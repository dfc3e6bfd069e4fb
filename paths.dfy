/** POSIX path composition (`os.path.join`). */
module Paths {
  /** `os.path.join(a, b)`: an absolute second component replaces the
      first; otherwise a separator goes between them unless the first is
      empty or already ends with one. */
  function PathJoin(a: string, b: string): string {
    if |b| > 0 && b[0] == '/' then b
    else if a == "" || a[|a| - 1] == '/' then a + b
    else a + "/" + b
  }

  /** The joined path ends with the second component. */
  lemma PathJoinEnds(a: string, b: string)
    ensures var r := PathJoin(a, b);
      |b| <= |r| && r[|r| - |b|..] == b
  {
  }
}
