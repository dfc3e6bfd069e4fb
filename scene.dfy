/** The scene graph of the design: a forest of occurrence nodes with
    parent/child links (the `Hierarchy` class of the exporter). Nodes are
    identified by the entity token of their occurrence. */
module Scene {
  import opened Wrappers

  type Token = nat

  /** An occurrence of the CAD assembly as traversal sees it: its entity
      token and its child occurrences. */
  datatype CadOcc = CadOcc(token: Token, children: seq<CadOcc>)

  /** All tokens of a list of occurrences and their sub-occurrences, in
      depth-first order. */
  function Flatten(os: seq<CadOcc>): seq<Token>
    decreases os
  {
    if |os| == 0 then [] else [os[0].token] + Flatten(os[0].children) + Flatten(os[1..])
  }

  /** `m` with `t` linked below `p`, when there is a parent. */
  function Attach(m: map<Token, Token>, t: Token, p: Option<Token>): map<Token, Token> {
    if p.Some? then m[t := p.value] else m
  }

  /** The parent links after traversing `os` below `p`, starting from `m`:
      each occurrence is linked to `p`, then its sub-occurrences below it. */
  function WithLinks(m: map<Token, Token>, os: seq<CadOcc>, p: Option<Token>): map<Token, Token>
    decreases os
  {
    if |os| == 0 then m
    else WithLinks(WithLinks(Attach(m, os[0].token, p), os[0].children, Some(os[0].token)), os[1..], p)
  }

  /** The set of tokens in a sequence. */
  ghost function Elems(s: seq<Token>): set<Token> {
    set x | x in s
  }

  ghost predicate Distinct(s: seq<Token>) {
    forall i, j :: 0 <= i < j < |s| ==> s[i] != s[j]
  }

  lemma ElemsConcat(a: seq<Token>, b: seq<Token>)
    ensures Elems(a + b) == Elems(a) + Elems(b)
  {
    assert forall x :: x in a + b <==> x in a || x in b;
  }

  lemma DistinctConcat(a: seq<Token>, b: seq<Token>)
    requires Distinct(a + b)
    ensures Distinct(a) && Distinct(b) && Elems(a) !! Elems(b)
    ensures Elems(a + b) == Elems(a) + Elems(b)
  {
    forall i, j | 0 <= i < j < |a| ensures a[i] != a[j] {
      assert a[i] == (a + b)[i] && a[j] == (a + b)[j];
    }
    forall i, j | 0 <= i < j < |b| ensures b[i] != b[j] {
      assert b[i] == (a + b)[|a| + i] && b[j] == (a + b)[|a| + j];
    }
    forall i, j | 0 <= i < |a| && 0 <= j < |b| ensures a[i] != b[j] {
      assert a[i] == (a + b)[i] && b[j] == (a + b)[|a| + j];
    }
    ElemsConcat(a, b);
  }

  /** Linking never touches a token outside the traversed occurrences. */
  lemma {:induction false} WithLinksKeeps(m: map<Token, Token>, os: seq<CadOcc>, p: Option<Token>, x: Token)
    requires x !in Elems(Flatten(os))
    ensures x in WithLinks(m, os, p) <==> x in m
    ensures x in m ==> WithLinks(m, os, p)[x] == m[x]
    decreases os
  {
    if |os| > 0 {
      var o := os[0];
      ElemsConcat([o.token] + Flatten(o.children), Flatten(os[1..]));
      ElemsConcat([o.token], Flatten(o.children));
      assert x != o.token;
      WithLinksKeeps(Attach(m, o.token, p), o.children, Some(o.token), x);
      WithLinksKeeps(WithLinks(Attach(m, o.token, p), o.children, Some(o.token)), os[1..], p, x);
    }
  }

  /** With distinct tokens, every top-level occurrence ends up linked to the
      parent it was traversed under. */
  lemma {:induction false} WithLinksTop(m: map<Token, Token>, os: seq<CadOcc>, q: Token, k: nat)
    requires Distinct(Flatten(os)) && k < |os|
    ensures os[k].token in WithLinks(m, os, Some(q))
    ensures WithLinks(m, os, Some(q))[os[k].token] == q
    decreases os
  {
    var o := os[0];
    var mid := WithLinks(Attach(m, o.token, Some(q)), o.children, Some(o.token));
    DistinctConcat([o.token] + Flatten(o.children), Flatten(os[1..]));
    if k == 0 {
      DistinctConcat([o.token], Flatten(o.children));
      assert o.token in Elems([o.token]);
      WithLinksKeeps(Attach(m, o.token, Some(q)), o.children, Some(o.token), o.token);
      WithLinksKeeps(mid, os[1..], Some(q), o.token);
    } else {
      assert os[1..][k - 1] == os[k];
      WithLinksTop(mid, os[1..], q, k - 1);
    }
  }

  /** Parent links and child lists agree, and depth grows by one from a
      parent to each of its children (so the links form a forest). */
  ghost predicate WellFormed(children: map<Token, seq<Token>>, parent: map<Token, Token>, depth: map<Token, nat>) {
    && children.Keys == depth.Keys
    && (forall c :: c in parent ==>
          && c in children && parent[c] in children
          && depth[c] == depth[parent[c]] + 1
          && c in children[parent[c]])
    && (forall c :: c in children && c !in parent ==> depth[c] == 0)
    && (forall p, i :: p in children && 0 <= i < |children[p]| ==>
          children[p][i] in parent && parent[children[p][i]] == p)
  }

  lemma AddRootKeepsWellFormed(children: map<Token, seq<Token>>, parent: map<Token, Token>, depth: map<Token, nat>, c: Token)
    requires WellFormed(children, parent, depth) && c !in children
    ensures WellFormed(children[c := []], parent, depth[c := 0])
  {
  }

  lemma AddChildKeepsWellFormed(children: map<Token, seq<Token>>, parent: map<Token, Token>, depth: map<Token, nat>, p: Token, c: Token)
    requires WellFormed(children, parent, depth) && p in children && c !in children
    ensures WellFormed(children[p := children[p] + [c]][c := []], parent[c := p], depth[c := depth[p] + 1])
  {
    var ch := children[p := children[p] + [c]][c := []];
    var pa := parent[c := p];
    forall q, i | q in ch && 0 <= i < |ch[q]| ensures ch[q][i] in pa && pa[ch[q][i]] == q {
      if q == p && i == |children[p]| {
        assert ch[q][i] == c;
      } else {
        assert ch[q][i] == children[q][i];
      }
    }
  }

  class SceneTree {
    /** Child list of every node; its keys are the nodes of the forest. */
    var children: map<Token, seq<Token>>
    /** Parent of every node that has one (`Hierarchy.parent`). */
    var parent: map<Token, Token>
    /** Distance from the root of the node's tree. */
    ghost var depth: map<Token, nat>

    ghost predicate Valid()
      reads this
    {
      WellFormed(children, parent, depth)
    }

    /** `Hierarchy(root)`: a tree holding one node without a parent. */
    constructor (root: Token)
      ensures Valid()
      ensures children == map[root := []] && parent == map[]
    {
      children := map[root := []];
      parent := map[];
      depth := map[root := 0];
    }

    /** A node created without a parent. */
    method AddRoot(c: Token)
      requires Valid() && c !in children
      modifies this
      ensures Valid()
      ensures children == old(children)[c := []] && parent == old(parent)
    {
      AddRootKeepsWellFormed(children, parent, depth, c);
      children := children[c := []];
      depth := depth[c := 0];
    }

    /** `p._add_child(c)` for a freshly created node c. */
    method AddChild(p: Token, c: Token)
      requires Valid() && p in children && c !in children
      modifies this
      ensures Valid()
      ensures children == old(children)[p := old(children[p]) + [c]][c := []]
      ensures parent == old(parent)[c := p]
    {
      AddChildKeepsWellFormed(children, parent, depth, p, c);
      depth := depth[c := depth[p] + 1];
      children := children[p := children[p] + [c]][c := []];
      parent := parent[c := p];
    }

    /** The ancestors of n, from its parent up to the root of its tree. */
    ghost function Ancestors(n: Token): seq<Token>
      requires Valid() && n in children
      reads this
      decreases depth[n]
    {
      if n in parent then [parent[n]] + Ancestors(parent[n]) else []
    }

    /** The chain of ancestors links each entry to the next one, ends at a
        root, and is as long as the depth of the node. */
    lemma {:induction false} AncestorsChain(n: Token)
      requires Valid() && n in children
      ensures |Ancestors(n)| == depth[n]
      ensures n in parent <==> |Ancestors(n)| > 0
      ensures n in parent ==> Ancestors(n)[0] == parent[n]
      ensures forall i :: 0 <= i < |Ancestors(n)| ==> Ancestors(n)[i] in children
      ensures forall i :: 0 <= i < |Ancestors(n)| ==> depth[Ancestors(n)[i]] < depth[n]
      ensures forall i :: 0 <= i < |Ancestors(n)| - 1 ==>
                Ancestors(n)[i] in parent && parent[Ancestors(n)[i]] == Ancestors(n)[i + 1]
      ensures |Ancestors(n)| > 0 ==> Ancestors(n)[|Ancestors(n)| - 1] !in parent
      decreases depth[n]
    {
      if n in parent {
        AncestorsChain(parent[n]);
      }
    }

    /** `get_all_parents`: the ancestor tokens from the immediate parent to
        the root. */
    method AllParents(n: Token) returns (ps: seq<Token>)
      requires Valid() && n in children
      ensures ps == Ancestors(n)
    {
      var cur := n;
      ps := [];
      while cur in parent
        invariant cur in children
        invariant ps + Ancestors(cur) == Ancestors(n)
        decreases depth[cur]
      {
        ps := ps + [parent[cur]];
        cur := parent[cur];
      }
    }

    /** Every node strictly below n. */
    ghost function Descendants(n: Token): set<Token>
      requires Valid()
      reads this
    {
      set d | d in children && n in Ancestors(d)
    }

    function ChildSet(n: Token): set<Token>
      requires n in children
      reads this
    {
      set i | 0 <= i < |children[n]| :: children[n][i]
    }

    /** A node below n is a child of n or below one of its descendants. */
    lemma DescendantStep(n: Token, d: Token)
      requires Valid() && d in children
      ensures d in Descendants(n) <==> d in parent && (parent[d] == n || parent[d] in Descendants(n))
    {
    }

    /** No node is its own descendant. */
    lemma NotOwnDescendant(n: Token)
      requires Valid() && n in children
      ensures n !in Descendants(n)
    {
      AncestorsChain(n);
    }

    /** The children of a node are among its descendants. */
    lemma ChildrenAreDescendants(n: Token)
      requires Valid() && n in children
      ensures ChildSet(n) <= Descendants(n)
    {
      forall c | c in ChildSet(n) ensures c in Descendants(n) {
        DescendantStep(n, c);
      }
    }

    /** A set of nodes closed under taking the parent is empty, since
        depths cannot decrease forever. */
    lemma {:induction false} ParentClosedIsDeep(s: set<Token>, k: nat)
      requires Valid() && s <= children.Keys
      requires forall d :: d in s ==> d in parent && parent[d] in s
      ensures forall d :: d in s ==> depth[d] >= k
      decreases k
    {
      if k > 0 {
        ParentClosedIsDeep(s, k - 1);
      }
    }

    lemma ParentClosedIsEmpty(s: set<Token>)
      requires Valid() && s <= children.Keys
      requires forall d :: d in s ==> d in parent && parent[d] in s
      ensures s == {}
    {
      if d :| d in s {
        ParentClosedIsDeep(s, depth[d] + 1);
      }
    }

    /** The work-list invariant of `get_all_children`: what is found or
        pending lies below n and hangs off n or a found node, and every node
        below n that is neither hangs off a node below n not yet found. */
    ghost predicate WorkInv(n: Token, stack: set<Token>, found: set<Token>)
      requires Valid()
      reads this
    {
      && stack <= Descendants(n) && found <= Descendants(n) && stack !! found
      && WorkHangs(n, found + stack, found)
      && WorkMissing(Descendants(n), stack, found)
    }

    ghost predicate WorkHangs(n: Token, seen: set<Token>, found: set<Token>)
      reads this
    {
      forall f :: f in seen ==> f in parent && (parent[f] == n || parent[f] in found)
    }

    ghost predicate WorkMissing(desc: set<Token>, stack: set<Token>, found: set<Token>)
      reads this
    {
      forall d :: d in desc && d !in found && d !in stack ==> d in parent && parent[d] in desc && parent[d] !in found
    }

    lemma WorkStart(n: Token)
      requires Valid() && n in children
      ensures WorkInv(n, ChildSet(n), {})
    {
      ChildrenAreDescendants(n);
      forall d | d in Descendants(n) && d !in ChildSet(n)
        ensures d in parent && parent[d] in Descendants(n)
      {
        DescendantStep(n, d);
      }
    }

    /** The children of a pending node are below n and were never seen. */
    lemma WorkChildrenNew(n: Token, stack: set<Token>, found: set<Token>, tmp: Token)
      requires Valid() && n in children && WorkInv(n, stack, found) && tmp in stack
      ensures ChildSet(tmp) <= Descendants(n)
      ensures ChildSet(tmp) !! found + stack
    {
      NotOwnDescendant(n);
      forall c | c in ChildSet(tmp) ensures c in Descendants(n) {
        DescendantStep(n, c);
      }
      forall c | c in ChildSet(tmp) ensures c !in found + stack {
        assert parent[c] == tmp;
      }
    }

    lemma WorkStep(n: Token, stack: set<Token>, found: set<Token>, tmp: Token)
      requires Valid() && n in children && WorkInv(n, stack, found) && tmp in stack
      ensures WorkInv(n, stack - {tmp} + ChildSet(tmp), found + {tmp})
    {
      WorkChildrenNew(n, stack, found, tmp);
      var desc := Descendants(n);
      var cs := ChildSet(tmp);
      var stack', found' := stack - {tmp} + cs, found + {tmp};
      assert stack' <= desc && found' <= desc && stack' !! found';
      HangsStep(n, stack, found, tmp, cs);
      MissingStep(desc, stack, found, tmp, cs);
    }

    lemma HangsStep(n: Token, stack: set<Token>, found: set<Token>, tmp: Token, cs: set<Token>)
      requires Valid() && tmp in children && cs == ChildSet(tmp) && tmp in stack
      requires WorkHangs(n, found + stack, found)
      ensures WorkHangs(n, found + {tmp} + (stack - {tmp} + cs), found + {tmp})
    {
      forall f | f in cs ensures f in parent && parent[f] == tmp {
      }
    }

    lemma MissingStep(desc: set<Token>, stack: set<Token>, found: set<Token>, tmp: Token, cs: set<Token>)
      requires Valid() && tmp in children && cs == ChildSet(tmp)
      requires WorkMissing(desc, stack, found)
      ensures WorkMissing(desc, stack - {tmp} + cs, found + {tmp})
    {
      forall d | d in desc && d !in found + {tmp} && d !in stack - {tmp} + cs
        ensures d in parent && parent[d] in desc && parent[d] !in found + {tmp}
      {
      }
    }

    lemma WorkDone(n: Token, found: set<Token>)
      requires Valid() && n in children && WorkInv(n, {}, found)
      ensures found == Descendants(n)
    {
      var rest := Descendants(n) - found;
      ParentClosedIsEmpty(rest);
    }

    /** `get_all_children`: every node below n, found with a work list; n
        itself is never among them. */
    method AllChildren(n: Token) returns (found: set<Token>)
      requires Valid() && n in children
      ensures found == Descendants(n)
      ensures n !in found
    {
      var stack := ChildSet(n);
      found := {};
      WorkStart(n);
      while stack != {}
        invariant WorkInv(n, stack, found)
        decreases Descendants(n) - found
      {
        var tmp :| tmp in stack;
        WorkStep(n, stack, found, tmp);
        stack := stack - {tmp};
        found := found + {tmp};
        stack := stack + ChildSet(tmp);
      }
      WorkDone(n, found);
      NotOwnDescendant(n);
    }

    /** `Hierarchy.traverse(occurrences, parent)`: creates a node for every
        occurrence and, below it, for every sub-occurrence, linking each to
        its parent node; returns the node of the last occurrence. An empty
        list fails the `assert occurrences` of the source. Entity tokens are
        unique in a design, so the new nodes are fresh. */
    method Traverse(os: seq<CadOcc>, p: Option<Token>) returns (r: Result<Token>)
      requires Valid() && (p.Some? ==> p.value in children)
      requires Distinct(Flatten(os)) && Elems(Flatten(os)) !! children.Keys
      modifies this
      ensures Valid()
      ensures r.Ok? <==> |os| > 0
      ensures r.Ok? ==> r.value == os[|os| - 1].token
      ensures children.Keys == old(children.Keys) + Elems(Flatten(os))
      ensures parent == WithLinks(old(parent), os, p)
      decreases os, 2
    {
      if |os| == 0 {
        return Err("assert occurrences");
      }
      var i := 0;
      var cur := os[0].token;
      while i < |os|
        invariant i <= |os| && Valid() && (p.Some? ==> p.value in children)
        invariant Distinct(Flatten(os[i..])) && Elems(Flatten(os[i..])) !! children.Keys
        invariant children.Keys + Elems(Flatten(os[i..])) == old(children.Keys) + Elems(Flatten(os))
        invariant WithLinks(parent, os[i..], p) == WithLinks(old(parent), os, p)
        invariant i > 0 ==> cur == os[i - 1].token
      {
        TraverseStep(os, i, p);
        cur := os[i].token;
        i := i + 1;
      }
      assert os[i..] == [];
      r := Ok(cur);
    }

    /** One loop iteration of `Traverse`: the occurrence `os[i]` and its
        subtree are added. */
    method TraverseStep(os: seq<CadOcc>, i: nat, p: Option<Token>)
      requires i < |os| && Valid() && (p.Some? ==> p.value in children)
      requires Distinct(Flatten(os[i..])) && Elems(Flatten(os[i..])) !! children.Keys
      modifies this
      ensures Valid() && (p.Some? ==> p.value in children)
      ensures Distinct(Flatten(os[i + 1..])) && Elems(Flatten(os[i + 1..])) !! children.Keys
      ensures children.Keys + Elems(Flatten(os[i + 1..])) == old(children.Keys) + Elems(Flatten(os[i..]))
      ensures WithLinks(parent, os[i + 1..], p) == WithLinks(old(parent), os[i..], p)
      decreases os, 1
    {
      assert os[i..][1..] == os[i + 1..];
      DistinctConcat(Head(os[i]), Flatten(os[i + 1..]));
      TraverseOne(os[i], p);
    }

    /** The tokens of one occurrence and its subtree, in traversal order. */
    static function Head(o: CadOcc): seq<Token> {
      [o.token] + Flatten(o.children)
    }

    /** One iteration of `traverse`: the node of o, then its subtree. */
    method TraverseOne(o: CadOcc, p: Option<Token>)
      requires Valid() && (p.Some? ==> p.value in children)
      requires Distinct(Head(o)) && Elems(Head(o)) !! children.Keys
      modifies this
      ensures Valid()
      ensures children.Keys == old(children.Keys) + Elems(Head(o))
      ensures parent == WithLinks(Attach(old(parent), o.token, p), o.children, Some(o.token))
      decreases o.children, 3
    {
      DistinctConcat([o.token], Flatten(o.children));
      assert Elems([o.token]) == {o.token};
      AddNode(o.token, p);
      if |o.children| > 0 {
        var _ := Traverse(o.children, Some(o.token));
      }
    }

    /** `cur = Hierarchy(occ)` and, under a parent, `parent._add_child(cur)`. */
    method AddNode(t: Token, p: Option<Token>)
      requires Valid() && (p.Some? ==> p.value in children) && t !in children
      modifies this
      ensures Valid()
      ensures children.Keys == old(children.Keys) + {t}
      ensures parent == Attach(old(parent), t, p)
    {
      if p.Some? {
        AddChild(p.value, t);
      } else {
        AddRoot(t);
      }
    }
  }
}
