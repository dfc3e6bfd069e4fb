/** Stand-in for the exporter's `utils.rename_if_duplicate`, whose code is
    not part of this model. The only property the rest of the model relies
    on is that the returned name is not already taken, and that a free name
    is returned unchanged. The suffix scheme `<name>_<k>`, first free k >= 1,
    is this model's choice of a concrete helper with those properties. */
module Utils {
  import opened Text

  ghost function MaxLength(taken: set<string>): (n: nat)
    ensures forall x :: x in taken ==> |x| <= n
  {
    if taken == {} then 0
    else
      var x :| x in taken;
      var rest := MaxLength(taken - {x});
      if |x| > rest then |x| else rest
  }

  function Candidate(name: string, k: nat): string {
    name + "_" + Digits(k)
  }

  /** Candidates with enough digits are longer than every taken name. */
  lemma CandidateFreeBeyond(name: string, taken: set<string>, k: nat)
    ensures k >= Pow10(MaxLength(taken)) ==> Candidate(name, k) !in taken
  {
    if k >= Pow10(MaxLength(taken)) {
      DigitsLength(k, MaxLength(taken));
    }
  }

  /** The first k' >= k whose candidate is free. */
  function FirstFree(name: string, taken: set<string>, k: nat): (i: nat)
    ensures i >= k && Candidate(name, i) !in taken
    ensures forall j :: k <= j < i ==> Candidate(name, j) in taken
    decreases Pow10(MaxLength(taken)) - k
  {
    if Candidate(name, k) !in taken then k
    else
      CandidateFreeBeyond(name, taken, k);
      FirstFree(name, taken, k + 1)
  }

  function RenameIfDuplicate(name: string, taken: set<string>): (r: string)
    ensures r !in taken
    ensures name !in taken ==> r == name
  {
    if name !in taken then name else Candidate(name, FirstFree(name, taken, 1))
  }

  /** A taken name is renamed to the first free numbered candidate. */
  lemma RenameFirstFree(name: string, taken: set<string>)
    requires name in taken
    ensures exists k :: k >= 1 && RenameIfDuplicate(name, taken) == Candidate(name, k)
                        && forall j :: 1 <= j < k ==> Candidate(name, j) in taken
  {
    var k := FirstFree(name, taken, 1);
    assert RenameIfDuplicate(name, taken) == Candidate(name, k);
  }
}
