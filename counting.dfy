/** Per-name counters as handed out by a `Counter` (or a dictionary of
    integers defaulting to zero): the k-th occurrence of a name gets k. */
module Counting {
  /** The value a counter holds for `x`, zero when it has none. */
  function Get<T>(c: map<T, nat>, x: T): nat {
    if x in c then c[x] else 0
  }

  /** The counter that has seen exactly the names in `s`. */
  ghost predicate Counts<T(!new)>(c: map<T, nat>, s: seq<T>) {
    forall x :: Get(c, x) == multiset(s)[x]
  }

  /** Bumping the counter of `x` keeps it in step with the names seen. */
  lemma CountsBump<T(!new)>(c: map<T, nat>, s: seq<T>, x: T)
    requires Counts(c, s)
    ensures Counts(c[x := Get(c, x) + 1], s + [x])
  {
    forall y
      ensures Get(c[x := Get(c, x) + 1], y) == multiset(s + [x])[y]
    {
      assert multiset(s + [x]) == multiset(s) + multiset{x};
    }
  }

  /** The tags handed out for the names `s`: each name with the number of
      times it came before. */
  function Tags<T(==)>(s: seq<T>): (r: seq<(T, nat)>)
    ensures |r| == |s|
    decreases |s|
  {
    if |s| == 0 then []
    else
      var p, x := s[..|s| - 1], s[|s| - 1];
      Tags(p) + [(x, multiset(p)[x])]
  }

  /** Tag i is name i with the number of earlier occurrences of that name. */
  lemma {:induction false} TagsAt<T>(s: seq<T>, i: nat)
    requires i < |s|
    ensures Tags(s)[i] == (s[i], multiset(s[..i])[s[i]])
    decreases |s|
  {
    var p := s[..|s| - 1];
    if i < |s| - 1 {
      TagsAt(p, i);
      assert p[..i] == s[..i];
    }
  }

  /** The tags of a longer run of names extend those of a shorter one. */
  lemma TagsPrefix<T>(s: seq<T>, x: T)
    ensures Tags(s + [x]) == Tags(s) + [(x, multiset(s)[x])]
  {
    assert (s + [x])[..|s|] == s;
  }

  /** No tag is handed out twice: two occurrences of one name get different numbers. */
  lemma TagsDistinct<T>(s: seq<T>, i: nat, j: nat)
    requires i < j < |s|
    ensures Tags(s)[i] != Tags(s)[j]
  {
    TagsAt(s, i);
    TagsAt(s, j);
    if s[i] == s[j] {
      assert s[..j] == s[..i] + s[i..j];
      assert s[i..j][0] == s[i];
      assert multiset(s[..j]) == multiset(s[..i]) + multiset(s[i..j]);
      assert s[i] in multiset(s[i..j]);
    }
  }

  /** The numbers a name receives are 0, 1, 2, ... in order: its n-th
      occurrence (counting from zero) gets n. */
  lemma TagsSequential<T>(s: seq<T>, i: nat)
    requires i < |s|
    ensures Tags(s)[i].1 == |set j | 0 <= j < i && s[j] == s[i]|
  {
    TagsAt(s, i);
    CountIsSize(s[..i], s[i]);
    assert (set j | 0 <= j < |s[..i]| && s[..i][j] == s[i]) == (set j | 0 <= j < i && s[j] == s[i]);
  }

  /** The positions before j whose tag has the name of tag j. */
  function Earlier<T(==)>(t: seq<(T, nat)>, j: nat): set<nat>
    requires j < |t|
  {
    set k: nat | k < j && t[k].0 == t[j].0
  }

  /** The same two facts read off the tags alone: the number a tag carries
      counts the earlier tags of its name, and no tag repeats. */
  lemma TagsNumbering<T>(s: seq<T>, i: nat, j: nat)
    requires i < j < |s|
    ensures var t := Tags(s);
      t[i] != t[j] && t[j].1 == |Earlier(t, j)|
  {
    var t := Tags(s);
    TagsDistinct(s, i, j);
    TagsSequential(s, j);
    forall k | 0 <= k < |s|
      ensures t[k].0 == s[k]
    {
      TagsAt(s, k);
    }
    assert Earlier(t, j) == (set k | 0 <= k < j && s[k] == s[j]);
  }

  lemma {:induction false} CountIsSize<T>(s: seq<T>, x: T)
    ensures multiset(s)[x] == |set j | 0 <= j < |s| && s[j] == x|
    decreases |s|
  {
    if |s| > 0 {
      var p := s[..|s| - 1];
      CountIsSize(p, x);
      assert s == p + [s[|s| - 1]];
      assert multiset(s) == multiset(p) + multiset{s[|s| - 1]};
      var a := set j | 0 <= j < |p| && p[j] == x;
      var b := set j | 0 <= j < |s| && s[j] == x;
      if s[|s| - 1] == x {
        assert b == a + {|s| - 1};
      } else {
        assert b == a;
      }
    }
  }
}
