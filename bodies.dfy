/** The body-naming pass of the resolver's build step: which bodies are
    filed under which link, and the numbered mesh name each one gets. */
module Bodies {
  import opened Host
  import opened OrderedDict
  import opened Text
  import Counting

  /** The visible bodies of `bs`, in order. */
  function Visible(bs: seq<Body>): (r: seq<Body>)
    ensures forall b :: b in r ==> b in bs && b.visible
    ensures forall b :: b in bs && b.visible ==> b in r
    decreases |bs|
  {
    if |bs| == 0 then []
    else Visible(bs[..|bs| - 1]) + (if bs[|bs| - 1].visible then [bs[|bs| - 1]] else [])
  }

  /** Filtering distributes over concatenation: the visible bodies of `a + b`
      are those of `a` then those of `b`, so order and multiplicity are kept. */
  lemma {:induction false} VisibleConcat(a: seq<Body>, b: seq<Body>)
    ensures Visible(a + b) == Visible(a) + Visible(b)
    decreases |b|
  {
    if |b| == 0 {
      assert a + b == a;
    } else {
      var b' := b[..|b| - 1];
      assert (a + b)[..|a + b| - 1] == a + b';
      VisibleConcat(a, b');
    }
  }

  /** The bodies recorded for an occurrence, none when it has no entry. */
  function BodiesOf(mapper: map<Token, seq<Body>>, t: Token): seq<Body> {
    if t in mapper then mapper[t] else []
  }

  /** Each of `bs` paired with the link name `k`. */
  function Pair(k: string, bs: seq<Body>): (r: seq<(string, Body)>)
    ensures |r| == |bs|
    decreases |bs|
  {
    if |bs| == 0 then [] else Pair(k, bs[..|bs| - 1]) + [(k, bs[|bs| - 1])]
  }

  /** The bodies the naming loop of `_build` records, in visiting order: the
      visible bodies of each occurrence, with its formatted link name. */
  function BodyItems(occs: seq<Occ>, names: map<Token, string>, mapper: map<Token, seq<Body>>,
                     fmt: string -> string): seq<(string, Body)>
    requires forall i :: 0 <= i < |occs| ==> occs[i].token in names
    decreases |occs|
  {
    if |occs| == 0 then []
    else
      var o := occs[|occs| - 1];
      BodyItems(occs[..|occs| - 1], names, mapper, fmt) + Pair(fmt(names[o.token]), Visible(BodiesOf(mapper, o.token)))
  }

  /** The formatted body names of the items, in order. */
  function BodyNames(items: seq<(string, Body)>, fmt: string -> string): (r: seq<string>)
    ensures |r| == |items|
    decreases |items|
  {
    if |items| == 0 then [] else BodyNames(items[..|items| - 1], fmt) + [fmt(items[|items| - 1].1.name)]
  }

  /** `{oc_name}_{body_name}_{count}`. */
  function MeshName(link: string, body: string, count: nat): string {
    link + "_" + body + "_" + Digits(count)
  }

  function ListAt<V>(m: map<string, seq<V>>, k: string): seq<V> {
    if k in m then m[k] else []
  }

  /** `body_dict` after the items: the bodies grouped by link name, in order. */
  function GroupBodies(items: seq<(string, Body)>): map<string, seq<Body>>
    decreases |items|
  {
    if |items| == 0 then map[]
    else
      var m, it := GroupBodies(items[..|items| - 1]), items[|items| - 1];
      m[it.0 := ListAt(m, it.0) + [it.1]]
  }

  /** `body_dict_urdf` after the items: under each link name the mesh names
      of its bodies, each body name numbered by how often it came before. */
  function GroupMeshNames(items: seq<(string, Body)>, fmt: string -> string): map<string, seq<string>>
    decreases |items|
  {
    if |items| == 0 then map[]
    else
      var p, it := items[..|items| - 1], items[|items| - 1];
      var m, b := GroupMeshNames(p, fmt), fmt(it.1.name);
      m[it.0 := ListAt(m, it.0) + [MeshName(it.0, b, multiset(BodyNames(p, fmt))[b])]]
  }

  /** The body names of a prefix of the items are the prefix of their body names. */
  lemma {:induction false} BodyNamesPrefix(items: seq<(string, Body)>, fmt: string -> string, i: nat)
    requires i <= |items|
    ensures BodyNames(items, fmt)[..i] == BodyNames(items[..i], fmt)
    decreases |items|
  {
    if i < |items| {
      BodyNamesPrefix(items[..|items| - 1], fmt, i);
      assert items[..|items| - 1][..i] == items[..i];
    } else {
      assert items[..i] == items;
    }
  }

  /** No two recorded bodies get the same (body name, number) pair: the
      number of item i is how often its body name came before, and so
      differs between any two items with the same body name. */
  lemma MeshTagsDistinct(items: seq<(string, Body)>, fmt: string -> string, i: nat, j: nat)
    requires i < j < |items|
    ensures var bi, bj := fmt(items[i].1.name), fmt(items[j].1.name);
      (bi, multiset(BodyNames(items[..i], fmt))[bi]) != (bj, multiset(BodyNames(items[..j], fmt))[bj])
  {
    var ns := BodyNames(items, fmt);
    BodyNameAt(items, fmt, i);
    BodyNameAt(items, fmt, j);
    BodyNamesPrefix(items, fmt, i);
    BodyNamesPrefix(items, fmt, j);
    Counting.TagsAt(ns, i);
    Counting.TagsAt(ns, j);
    Counting.TagsDistinct(ns, i, j);
  }

  lemma {:induction false} BodyNameAt(items: seq<(string, Body)>, fmt: string -> string, i: nat)
    requires i < |items|
    ensures BodyNames(items, fmt)[i] == fmt(items[i].1.name)
    decreases |items|
  {
    if i < |items| - 1 {
      BodyNameAt(items[..|items| - 1], fmt, i);
    }
  }

  /** The items only read the names of the occurrences they visit. */
  lemma {:induction false} BodyItemsNames(occs: seq<Occ>, names: map<Token, string>, names2: map<Token, string>,
                                          mapper: map<Token, seq<Body>>, fmt: string -> string)
    requires forall i :: 0 <= i < |occs| ==> occs[i].token in names
    requires Extends(names, names2)
    ensures forall i :: 0 <= i < |occs| ==> occs[i].token in names2
    ensures BodyItems(occs, names, mapper, fmt) == BodyItems(occs, names2, mapper, fmt)
    decreases |occs|
  {
    if |occs| > 0 {
      BodyItemsNames(occs[..|occs| - 1], names, names2, mapper, fmt);
    }
  }

  /** One visited body, on values: a hidden one adds no item, a visible one adds itself. */
  lemma BodyStep(done: seq<(string, Body)>, k: string, bs: seq<Body>, j: nat)
    requires j < |bs|
    ensures done + Pair(k, Visible(bs[..j + 1]))
         == done + Pair(k, Visible(bs[..j])) + (if bs[j].visible then [(k, bs[j])] else [])
  {
    var v := Visible(bs[..j]);
    assert bs[..j + 1][..j] == bs[..j];
    if bs[j].visible {
      assert Visible(bs[..j + 1]) == v + [bs[j]];
      assert (v + [bs[j]])[..|v|] == v;
      assert Pair(k, v + [bs[j]]) == Pair(k, v) + [(k, bs[j])];
    } else {
      assert Visible(bs[..j + 1]) == v;
    }
  }

  /** One more item extends the body names by its own and adds it to both tables. */
  lemma ItemStep(items: seq<(string, Body)>, it: (string, Body), fmt: string -> string)
    ensures BodyNames(items + [it], fmt) == BodyNames(items, fmt) + [fmt(it.1.name)]
    ensures GroupBodies(items + [it]) == GroupBodies(items)[it.0 := ListAt(GroupBodies(items), it.0) + [it.1]]
    ensures GroupMeshNames(items + [it], fmt) == GroupMeshNames(items, fmt)[it.0 := ListAt(GroupMeshNames(items, fmt), it.0)
             + [MeshName(it.0, fmt(it.1.name), multiset(BodyNames(items, fmt))[fmt(it.1.name)])]]
  {
    assert (items + [it])[..|items|] == items;
  }

  /** Moving on to the next occurrence, on values. */
  lemma OccStep(occs: seq<Occ>, i: nat, names: map<Token, string>, mapper: map<Token, seq<Body>>, fmt: string -> string)
    requires i < |occs| && forall j :: 0 <= j <= i ==> occs[j].token in names
    ensures var bs := BodiesOf(mapper, occs[i].token);
      BodyItems(occs[..i + 1], names, mapper, fmt)
        == BodyItems(occs[..i], names, mapper, fmt) + Pair(fmt(names[occs[i].token]), Visible(bs[..|bs|]))
  {
    assert occs[..i + 1][..i] == occs[..i];
    var bs := BodiesOf(mapper, occs[i].token);
    assert bs[..|bs|] == bs;
  }

  /** Filing one visible body, on values: counter and both tables move in step with the items. */
  lemma FileStep(items: seq<(string, Body)>, it: (string, Body), fmt: string -> string,
                 c: map<string, nat>, bd: map<string, seq<Body>>, bdu: map<string, seq<string>>)
    requires Counting.Counts(c, BodyNames(items, fmt)) && bd == GroupBodies(items) && bdu == GroupMeshNames(items, fmt)
    ensures var b := fmt(it.1.name);
      && Counting.Counts(c[b := Counting.Get(c, b) + 1], BodyNames(items + [it], fmt))
      && bd[it.0 := ListAt(bd, it.0) + [it.1]] == GroupBodies(items + [it])
      && bdu[it.0 := ListAt(bdu, it.0) + [MeshName(it.0, b, Counting.Get(c, b))]] == GroupMeshNames(items + [it], fmt)
  {
    ItemStep(items, it, fmt);
    Counting.CountsBump(c, BodyNames(items, fmt), fmt(it.1.name));
  }

  /** The counter and both tables after the items. */
  ghost predicate Filed(c: map<string, nat>, bd: map<string, seq<Body>>, bdu: map<string, seq<string>>,
                        items: seq<(string, Body)>, fmt: string -> string) {
    Counting.Counts(c, BodyNames(items, fmt)) && bd == GroupBodies(items) && bdu == GroupMeshNames(items, fmt)
  }

  /** One body of the inner loop, on values. */
  lemma FileOne(done: seq<(string, Body)>, ocName: string, bodyLst: seq<Body>, j: nat, fmt: string -> string,
                c: map<string, nat>, bd: map<string, seq<Body>>, bdu: map<string, seq<string>>)
    requires j < |bodyLst| && Filed(c, bd, bdu, done + Pair(ocName, Visible(bodyLst[..j])), fmt)
    ensures var b, n := bodyLst[j], fmt(bodyLst[j].name);
      Filed(if b.visible then c[n := Counting.Get(c, n) + 1] else c,
            if b.visible then bd[ocName := ListAt(bd, ocName) + [b]] else bd,
            if b.visible then bdu[ocName := ListAt(bdu, ocName) + [MeshName(ocName, n, Counting.Get(c, n))]] else bdu,
            done + Pair(ocName, Visible(bodyLst[..j + 1])), fmt)
  {
    var items := done + Pair(ocName, Visible(bodyLst[..j]));
    BodyStep(done, ocName, bodyLst, j);
    if bodyLst[j].visible {
      assert done + Pair(ocName, Visible(bodyLst[..j + 1])) == items + [(ocName, bodyLst[j])];
      FileStep(items, (ocName, bodyLst[j]), fmt, c, bd, bdu);
    } else {
      assert done + Pair(ocName, Visible(bodyLst[..j + 1])) == items;
    }
  }

  /** The inner loop of the body naming, over the bodies of one occurrence:
      the visible ones are filed under `ocName`, each with its mesh name. */
  method FileBodies(ocName: string, bodyLst: seq<Body>, bodyCount0: map<string, nat>,
                    bd0: map<string, seq<Body>>, bdu0: map<string, seq<string>>, fmt: string -> string,
                    ghost done: seq<(string, Body)>)
    returns (bodyCount: map<string, nat>, bd: map<string, seq<Body>>, bdu: map<string, seq<string>>)
    requires Filed(bodyCount0, bd0, bdu0, done, fmt)
    ensures Filed(bodyCount, bd, bdu, done + Pair(ocName, Visible(bodyLst)), fmt)
  {
    bodyCount, bd, bdu := bodyCount0, bd0, bdu0;
    var j := 0;
    assert done + Pair(ocName, Visible(bodyLst[..0])) == done;
    while j < |bodyLst|
      invariant 0 <= j <= |bodyLst|
      invariant Filed(bodyCount, bd, bdu, done + Pair(ocName, Visible(bodyLst[..j])), fmt)
    {
      bodyCount, bd, bdu := FileBody(ocName, bodyLst, j, bodyCount, bd, bdu, fmt, done);
      j := j + 1;
    }
    assert bodyLst[..j] == bodyLst;
  }

  /** One pass of the inner loop: body j is filed when it is visible. */
  method FileBody(ocName: string, bodyLst: seq<Body>, j: nat, bodyCount0: map<string, nat>,
                  bd0: map<string, seq<Body>>, bdu0: map<string, seq<string>>, fmt: string -> string,
                  ghost done: seq<(string, Body)>)
    returns (bodyCount: map<string, nat>, bd: map<string, seq<Body>>, bdu: map<string, seq<string>>)
    requires j < |bodyLst| && Filed(bodyCount0, bd0, bdu0, done + Pair(ocName, Visible(bodyLst[..j])), fmt)
    ensures Filed(bodyCount, bd, bdu, done + Pair(ocName, Visible(bodyLst[..j + 1])), fmt)
  {
    bodyCount, bd, bdu := bodyCount0, bd0, bdu0;
    var body := bodyLst[j];
    FileOne(done, ocName, bodyLst, j, fmt, bodyCount, bd, bdu);
    if body.visible {
      bd := bd[ocName := ListAt(bd, ocName) + [body]];
      var bodyName := fmt(body.name);
      var count := Counting.Get(bodyCount, bodyName);
      bodyCount := bodyCount[bodyName := count + 1];
      bdu := bdu[ocName := ListAt(bdu, ocName) + [MeshName(ocName, bodyName, count)]];
    }
  }

  /** The bodies among the items filed under link name `k`, in order. */
  function Under(items: seq<(string, Body)>, k: string): seq<Body>
    decreases |items|
  {
    if |items| == 0 then []
    else Under(items[..|items| - 1], k) + (if items[|items| - 1].0 == k then [items[|items| - 1].1] else [])
  }

  /** `body_dict` lists under each link name exactly the bodies filed under
      it, in visiting order, and has an entry only for links with bodies. */
  lemma {:induction false} GroupBodiesUnder(items: seq<(string, Body)>, k: string)
    ensures ListAt(GroupBodies(items), k) == Under(items, k)
    ensures k in GroupBodies(items) <==> Under(items, k) != []
    decreases |items|
  {
    if |items| > 0 {
      GroupBodiesUnder(items[..|items| - 1], k);
    }
  }

  /** A filed body is listed under its link name. */
  lemma {:induction false} UnderHas(items: seq<(string, Body)>, k: string, b: Body)
    requires (k, b) in items
    ensures b in Under(items, k)
    decreases |items|
  {
    var p, it := items[..|items| - 1], items[|items| - 1];
    assert items == p + [it];
    if it != (k, b) {
      UnderHas(p, k, b);
    }
  }

  lemma {:induction false} PairHas(k: string, bs: seq<Body>, b: Body)
    requires b in bs
    ensures (k, b) in Pair(k, bs)
    decreases |bs|
  {
    if bs[|bs| - 1] != b {
      assert bs == bs[..|bs| - 1] + [bs[|bs| - 1]];
      PairHas(k, bs[..|bs| - 1], b);
    }
  }

  /** Every visible body of every occurrence is filed under the formatted
      link name of that occurrence. */
  lemma {:induction false} BodyItemsHas(occs: seq<Occ>, names: map<Token, string>, mapper: map<Token, seq<Body>>,
                                        fmt: string -> string, i: nat, b: Body)
    requires forall j :: 0 <= j < |occs| ==> occs[j].token in names
    requires i < |occs| && b in BodiesOf(mapper, occs[i].token) && b.visible
    ensures (fmt(names[occs[i].token]), b) in BodyItems(occs, names, mapper, fmt)
    decreases |occs|
  {
    var prefix, o := occs[..|occs| - 1], occs[|occs| - 1];
    if i == |occs| - 1 {
      PairHas(fmt(names[o.token]), Visible(BodiesOf(mapper, o.token)), b);
    } else {
      BodyItemsHas(prefix, names, mapper, fmt, i, b);
    }
  }
}
