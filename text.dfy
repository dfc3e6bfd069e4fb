/** String helpers with the meaning of the Python string operations the
    exporter uses: `in` on strings, `str.replace`, `str.join`, `str(int)`
    and `str.split()`. */
module Text {
  import opened Wrappers

  predicate StartsWith(s: string, p: string) {
    |p| <= |s| && s[..|p|] == p
  }

  /** `p in s` for strings. */
  function Contains(s: string, p: string): bool
    decreases |s|
  {
    if StartsWith(s, p) then true
    else if |s| == 0 then false
    else Contains(s[1..], p)
  }

  /** p occurs in s at position i. */
  ghost predicate OccursAt(s: string, p: string, i: int) {
    0 <= i <= |s| - |p| && s[i..i + |p|] == p
  }

  /** Contains agrees with the positional definition of a substring. */
  lemma {:induction false} ContainsIff(s: string, p: string)
    ensures Contains(s, p) <==> exists i :: OccursAt(s, p, i)
    decreases |s|
  {
    if StartsWith(s, p) {
      assert OccursAt(s, p, 0);
    } else if |s| == 0 {
    } else {
      ContainsIff(s[1..], p);
      if Contains(s[1..], p) {
        var i :| OccursAt(s[1..], p, i);
        assert s[i + 1..i + 1 + |p|] == s[1..][i..i + |p|];
        assert OccursAt(s, p, i + 1);
      }
      if exists i :: OccursAt(s, p, i) {
        var i :| OccursAt(s, p, i);
        assert OccursAt(s, p, 0) ==> StartsWith(s, p);
        assert s[1..][i - 1..i - 1 + |p|] == s[i..i + |p|];
        assert OccursAt(s[1..], p, i - 1);
      }
    }
  }

  /** `s.replace(p, q)`: every non-overlapping occurrence of p, scanned left
      to right, is replaced by q. */
  function Replace(s: string, p: string, q: string): string
    requires |p| > 0
    decreases |s|
  {
    if |s| < |p| then s
    else if s[..|p|] == p then q + Replace(s[|p|..], p, q)
    else [s[0]] + Replace(s[1..], p, q)
  }

  /** A line without the pattern is left as it is. */
  lemma {:induction false} ReplaceAbsent(s: string, p: string, q: string)
    requires |p| > 0 && !Contains(s, p)
    ensures Replace(s, p, q) == s
    decreases |s|
  {
    if |s| >= |p| {
      assert !StartsWith(s, p);
      ReplaceAbsent(s[1..], p, q);
      assert [s[0]] + s[1..] == s;
    }
  }

  /** Replacing a pattern by itself changes nothing. */
  lemma {:induction false} ReplaceSelf(s: string, p: string)
    requires |p| > 0
    ensures Replace(s, p, p) == s
    decreases |s|
  {
    if |s| >= |p| {
      if s[..|p|] == p {
        ReplaceSelf(s[|p|..], p);
        assert s[..|p|] + s[|p|..] == s;
      } else {
        ReplaceSelf(s[1..], p);
        assert [s[0]] + s[1..] == s;
      }
    }
  }

  /** `sep.join(xs)` */
  function Join(sep: string, xs: seq<string>): string
    decreases |xs|
  {
    if |xs| == 0 then ""
    else if |xs| == 1 then xs[0]
    else xs[0] + sep + Join(sep, xs[1..])
  }

  lemma JoinThree(sep: string, a: string, b: string, c: string)
    ensures Join(sep, [a, b, c]) == a + sep + b + sep + c
  {
    assert [a, b, c][1..] == [b, c];
    assert [b, c][1..] == [c];
    assert Join(sep, [c]) == c;
    assert Join(sep, [b, c]) == b + sep + c;
  }

  function DigitChar(d: nat): char
    requires d < 10
  {
    "0123456789"[d]
  }

  function DigitValue(c: char): nat {
    if '0' <= c <= '9' then (c as int - '0' as int) as nat else 0
  }

  /** `str(k)` for a natural number. */
  function Digits(k: nat): (r: string)
    ensures |r| >= 1
    decreases k
  {
    if k < 10 then [DigitChar(k)] else Digits(k / 10) + [DigitChar(k % 10)]
  }

  /** `int(s)` for a string of decimal digits. */
  function ParseNat(s: string): nat
    decreases |s|
  {
    if |s| == 0 then 0 else ParseNat(s[..|s| - 1]) * 10 + DigitValue(s[|s| - 1])
  }

  /** Reading back the decimal text of k gives k. */
  lemma {:induction false} DigitsRoundTrip(k: nat)
    ensures ParseNat(Digits(k)) == k
    decreases k
  {
    if k < 10 {
      assert DigitValue(DigitChar(k)) == k;
    } else {
      var s := Digits(k);
      DigitsRoundTrip(k / 10);
      assert s[..|s| - 1] == Digits(k / 10);
      assert DigitValue(DigitChar(k % 10)) == k % 10;
    }
  }

  /** Decimal text is injective. */
  lemma DigitsInjective(j: nat, k: nat)
    requires Digits(j) == Digits(k)
    ensures j == k
  {
    DigitsRoundTrip(j);
    DigitsRoundTrip(k);
  }

  function Pow10(n: nat): (r: nat)
    ensures r >= 1
  {
    if n == 0 then 1 else 10 * Pow10(n - 1)
  }

  /** Numbers of at least 10^n have more than n digits. */
  lemma {:induction false} DigitsLength(k: nat, n: nat)
    requires k >= Pow10(n)
    ensures |Digits(k)| > n
    decreases n
  {
    if n > 0 {
      assert k >= 10;
      assert k / 10 >= Pow10(n - 1);
      DigitsLength(k / 10, n - 1);
    }
  }

  /** Python's `str.isspace`, the separators `str.split()` breaks on: the
      ASCII controls 9-13 and 28-31, the space, NEL, the no-break space, and
      the Unicode space separators and line and paragraph separators. */
  predicate IsWhitespace(c: char) {
    ('\U{0009}' <= c <= '\U{000D}') || ('\U{001C}' <= c <= '\U{0020}')
    || c == '\U{0085}' || c == '\U{00A0}' || c == '\U{1680}'
    || ('\U{2000}' <= c <= '\U{200A}') || c == '\U{2028}' || c == '\U{2029}'
    || c == '\U{202F}' || c == '\U{205F}' || c == '\U{3000}'
  }

  function DropWhitespace(s: string): (r: string)
    ensures |r| <= |s| && r == s[|s| - |r|..]
    ensures r == [] || !IsWhitespace(r[0])
    ensures forall i :: 0 <= i < |s| - |r| ==> IsWhitespace(s[i])
    decreases |s|
  {
    if |s| > 0 && IsWhitespace(s[0]) then DropWhitespace(s[1..]) else s
  }

  function TakeWord(s: string): (r: string)
    ensures |r| <= |s| && r == s[..|r|]
    ensures forall i :: 0 <= i < |r| ==> !IsWhitespace(r[i])
    ensures |r| == |s| || IsWhitespace(s[|r|])
    decreases |s|
  {
    if |s| == 0 || IsWhitespace(s[0]) then [] else [s[0]] + TakeWord(s[1..])
  }

  /** `w` stands in `s` at `i` after nothing but whitespace, and is followed
      by whitespace or the end: it is the first whitespace-separated word. */
  predicate IsFirstWordAt(s: string, i: int, w: string) {
    0 <= i && i + |w| <= |s|
    && (forall j :: 0 <= j < i ==> IsWhitespace(s[j]))
    && s[i..i + |w|] == w
    && (i + |w| == |s| || IsWhitespace(s[i + |w|]))
  }

  /** `s.split()[0]`; the empty or all-blank string raises IndexError. */
  function FirstWord(s: string): (r: Result<string>)
    ensures r.Ok? <==> exists i :: 0 <= i < |s| && !IsWhitespace(s[i])
    ensures r.Ok? ==> |r.value| > 0 && forall i :: 0 <= i < |r.value| ==> !IsWhitespace(r.value[i])
    ensures r.Ok? ==> exists i :: IsFirstWordAt(s, i, r.value)
  {
    var t := DropWhitespace(s);
    ghost var i := |s| - |t|;
    assert t != [] ==> IsFirstWordAt(s, i, TakeWord(t));
    if t == [] then Err("list index out of range")
    else
      Ok(TakeWord(t))
  }
}
