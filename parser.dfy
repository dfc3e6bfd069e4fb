/** `Configurator`: the resolver that names the links of the design, turns
    its joints and rigid groups into joint records, collects materials and
    builds the kinematic tree of links and joints by a breadth-first search
    from the grounded occurrence. */
module Parser {
  import opened Wrappers
  import opened Geometry
  import opened Host
  import opened JointRecords
  import opened OrderedDict
  import opened Utils
  import opened Text
  import opened Bodies
  import Counting
  import opened Kinematics

  /** The first grounded occurrence is at position k. */
  ghost predicate FirstGrounded(occs: seq<Occ>, k: int) {
    0 <= k < |occs| && occs[k].grounded && forall j :: 0 <= j < k ==> !occs[j].grounded
  }

  /** The record stored for a host joint that passed the screen and was
      accepted, under the key `key` and with the link names `names`. */
  ghost function Entry(j: HostJoint, key: string, names: map<Token, string>, order: (string, string), cm: real, eps: real): JointInfo
    requires Screen(j).Proceed? && j.one.token in names && j.two.token in names
    requires Accepts(Screen(j).kind, Screen(j).originOne, Screen(j).originTwo, j.motion, order, eps)
  {
    var s := Screen(j);
    RecordAccepts(s.kind, s.originOne, s.originTwo, j.motion, key, names[j.one.token], names[j.two.token], order, cm, eps);
    Record(s.kind, s.originOne, s.originTwo, j.motion, key, names[j.one.token], names[j.two.token], order, cm, eps).value
  }

  /** Every joint record of `d` is stored under its own name, between links of `names`. */
  ghost predicate JointsNamed(d: ODict<string, JointInfo>, names: map<string, Occ>) {
    && OrderedDict.Valid(d)
    && forall k :: k in d.m ==> d.m[k].name == k && d.m[k].parent in names && d.m[k].child in names
  }

  /** Recording a joint between named links under its own name keeps the
      records named, also once more links are named. */
  lemma JointsNamedPut(d: ODict<string, JointInfo>, names0: map<string, Occ>, names: map<string, Occ>,
                       key: string, j: JointInfo)
    requires JointsNamed(d, names0) && Extends(names0, names)
    requires j.name == key && j.parent in names && j.child in names
    ensures JointsNamed(Put(d, key, j), names)
  {
  }

  lemma JointsNamedMono(d: ODict<string, JointInfo>, names0: map<string, Occ>, names: map<string, Occ>)
    requires JointsNamed(d, names0) && Extends(names0, names)
    ensures JointsNamed(d, names)
  {
  }

  /** The keys from position `base` on hold the records of the kept host joints, in order. */
  ghost predicate HostRecorded(d: ODict<string, JointInfo>, base: nat, kept: seq<HostJoint>, names: map<Token, string>,
                               order: (string, string), cm: real, eps: real) {
    && base + |kept| <= |d.keys|
    && forall t :: 0 <= t < |kept| ==>
         && Screen(kept[t]).Proceed?
         && kept[t].one.token in names && kept[t].two.token in names
         && Accepts(Screen(kept[t]).kind, Screen(kept[t]).originOne, Screen(kept[t]).originTwo, kept[t].motion, order, eps)
         && d.keys[base + t] in d.m
         && d.m[d.keys[base + t]] == Entry(kept[t], d.keys[base + t], names, order, cm, eps)
  }

  /** The keys from position `base` on hold fixed joints between the named pairs, in order. */
  ghost predicate FixedRecorded(d: ODict<string, JointInfo>, base: nat, pairs: seq<(Occ, Occ)>, names: map<Token, string>) {
    && base + |pairs| <= |d.keys|
    && forall t :: 0 <= t < |pairs| ==>
         && pairs[t].0.token in names && pairs[t].1.token in names
         && d.keys[base + t] in d.m
         && d.m[d.keys[base + t]] == Fixed(d.keys[base + t], names[pairs[t].0.token], names[pairs[t].1.token])
  }

  /** `d2` keeps the keys of `d` in front, in order, and all its entries. */
  ghost predicate Grows<V>(d: ODict<string, V>, d2: ODict<string, V>) {
    |d.keys| <= |d2.keys| && d2.keys[..|d.keys|] == d.keys && Extends(d.m, d2.m)
  }

  /** Body k is the first of `bs` with an appearance of its own. */
  ghost predicate FirstWithAppearance(bs: seq<Body>, k: int) {
    0 <= k < |bs| && bs[k].appearance.Some? && forall j :: 0 <= j < k ==> bs[j].appearance.None?
  }

  /** Property k is the first colour property of `ps`. */
  ghost predicate FirstColor(ps: seq<AppearanceProperty>, k: int) {
    0 <= k < |ps| && ps[k].ColorProperty? && forall j :: 0 <= j < k ==> !ps[j].ColorProperty?
  }

  /** The appearance `__get_appearance` settles on: the occurrence's own;
      otherwise, when the occurrence has any bodies, the first body
      appearance and none if no body has one; only an occurrence without
      bodies falls back to its component's material. */
  ghost function ChosenAppearance(occ: Occ): Option<Appearance> {
    if occ.appearance.Some? then occ.appearance
    else if |occ.bodies| > 0 then
      if exists k :: FirstWithAppearance(occ.bodies, k) then
        var k :| FirstWithAppearance(occ.bodies, k); occ.bodies[k].appearance
      else None
    else if occ.material.Some? then occ.material.value.appearance
    else None
  }

  /** The (appearance name, colour property) pair of an occurrence: the first
      colour property of the chosen appearance, if there is one. */
  ghost function ColorChoice(occ: Occ): Option<(string, AppearanceProperty)> {
    var a := ChosenAppearance(occ);
    if a.Some? && exists k :: FirstColor(a.value.properties, k) then
      var k :| FirstColor(a.value.properties, k); Some((a.value.name, a.value.properties[k]))
    else None
  }

  /** An occurrence with bodies none of which has an appearance gets no
      colour, whatever its component's material says. */
  lemma BodiesShadowMaterial(occ: Occ)
    requires occ.appearance.None? && |occ.bodies| > 0
    requires forall j :: 0 <= j < |occ.bodies| ==> occ.bodies[j].appearance.None?
    ensures ChosenAppearance(occ) == None && ColorChoice(occ) == None
  {
    assert !exists k :: FirstWithAppearance(occ.bodies, k);
  }

  /** An occurrence without bodies and without its own appearance takes the
      colour of its component's material. */
  lemma MaterialWithoutBodies(occ: Occ, m: Material)
    requires occ.appearance.None? && |occ.bodies| == 0 && occ.material == Some(m)
    ensures ChosenAppearance(occ) == m.appearance
  {
  }

  const SilverDefault := "silver_default"
  const SilverRgba := "0.700 0.700 0.700 1.000"

  /** The name of the material an occurrence is given: its colour's name,
      translated and formatted, or the default silver. */
  ghost function MaterialName(occ: Occ, fmt: string -> string, german: string -> string): string {
    match ColorChoice(occ)
    case None => SilverDefault
    case Some(c) => fmt(german(c.0))
  }

  /** The rgba string of a colour property: each channel over 255, as the
      host language prints a float (`show`), separated by spaces. */
  function Rgba(p: AppearanceProperty, show: real -> string): string
    requires p.ColorProperty?
  {
    show(p.red as real / 255.0) + " " + show(p.green as real / 255.0) + " "
      + show(p.blue as real / 255.0) + " " + show(p.opacity as real / 255.0)
  }

  /** The material table after the occurrences `occs`, each writing its
      material under its formatted link name; later writes win. */
  ghost function WithMaterials(m: map<string, string>, occs: seq<Occ>, names: map<Token, string>,
                              fmt: string -> string, german: string -> string): map<string, string>
    requires forall i :: 0 <= i < |occs| ==> occs[i].token in names
    decreases |occs|
  {
    if |occs| == 0 then m
    else
      var o := occs[|occs| - 1];
      WithMaterials(m, occs[..|occs| - 1], names, fmt, german)[fmt(names[o.token]) := MaterialName(o, fmt, german)]
  }

  /** The colour table after the occurrences `occs`, each with a colour
      writing its rgba under its material name. */
  ghost function WithColors(d: ODict<string, string>, occs: seq<Occ>, fmt: string -> string,
                           german: string -> string, show: real -> string): (r: ODict<string, string>)
    requires OrderedDict.Valid(d)
    ensures OrderedDict.Valid(r)
    decreases |occs|
  {
    if |occs| == 0 then d
    else
      var o := occs[|occs| - 1];
      var d1 := WithColors(d, occs[..|occs| - 1], fmt, german, show);
      match ColorChoice(o)
      case None => d1
      case Some(c) => Put(d1, fmt(german(c.0)), Rgba(c.1, show))
  }

  /** The material table only reads the names of the occurrences it visits. */
  lemma {:induction false} WithMaterialsNames(m: map<string, string>, occs: seq<Occ>, names: map<Token, string>,
                                               names2: map<Token, string>, fmt: string -> string, german: string -> string)
    requires forall i :: 0 <= i < |occs| ==> occs[i].token in names
    requires Extends(names, names2)
    ensures forall i :: 0 <= i < |occs| ==> occs[i].token in names2
    ensures WithMaterials(m, occs, names, fmt, german) == WithMaterials(m, occs, names2, fmt, german)
    decreases |occs|
  {
    if |occs| > 0 {
      WithMaterialsNames(m, occs[..|occs| - 1], names, names2, fmt, german);
    }
  }

  /** Every visited occurrence has an entry, and the entry under a name is
      the material of the last occurrence formatted to that name. */
  lemma {:induction false} WithMaterialsLast(m: map<string, string>, occs: seq<Occ>, names: map<Token, string>,
                                              fmt: string -> string, german: string -> string, i: nat)
    requires forall j :: 0 <= j < |occs| ==> occs[j].token in names
    requires i < |occs|
    requires forall j :: i < j < |occs| ==> fmt(names[occs[j].token]) != fmt(names[occs[i].token])
    ensures fmt(names[occs[i].token]) in WithMaterials(m, occs, names, fmt, german)
    ensures WithMaterials(m, occs, names, fmt, german)[fmt(names[occs[i].token])] == MaterialName(occs[i], fmt, german)
    decreases |occs|
  {
    if i < |occs| - 1 {
      WithMaterialsLast(m, occs[..|occs| - 1], names, fmt, german, i);
    }
  }

  /** A material name handed out by the loop is always a key of the colour table. */
  lemma {:induction false} ColorsCoverMaterials(m: map<string, string>, d: ODict<string, string>, occs: seq<Occ>,
                                                 names: map<Token, string>, fmt: string -> string,
                                                 german: string -> string, show: real -> string)
    requires forall i :: 0 <= i < |occs| ==> occs[i].token in names
    requires OrderedDict.Valid(d) && SilverDefault in d.m && forall k :: k in m ==> m[k] in d.m
    ensures SilverDefault in WithColors(d, occs, fmt, german, show).m
    ensures forall k :: k in WithMaterials(m, occs, names, fmt, german) ==>
      WithMaterials(m, occs, names, fmt, german)[k] in WithColors(d, occs, fmt, german, show).m
    decreases |occs|
  {
    if |occs| > 0 {
      var prefix, o := occs[..|occs| - 1], occs[|occs| - 1];
      assert occs == prefix + [o];
      ColorsCoverMaterials(m, d, prefix, names, fmt, german, show);
      WithColorsGrows(d, prefix, o, fmt, german, show);
      var m1, d1 := WithMaterials(m, prefix, names, fmt, german), WithColors(d, prefix, fmt, german, show);
      var m2, d2 := WithMaterials(m, occs, names, fmt, german), WithColors(d, occs, fmt, german, show);
      assert m2 == m1[fmt(names[o.token]) := MaterialName(o, fmt, german)];
      forall k | k in m2
        ensures m2[k] in d2.m
      {
        if k != fmt(names[o.token]) {
          assert m2[k] == m1[k] && m1[k] in d1.m;
        }
      }
    }
  }

  /** One more occurrence only adds keys to the colour table, and adds its own colour's. */
  lemma WithColorsGrows(d: ODict<string, string>, occs: seq<Occ>, o: Occ, fmt: string -> string,
                        german: string -> string, show: real -> string)
    requires OrderedDict.Valid(d)
    ensures var d1, d2 := WithColors(d, occs, fmt, german, show), WithColors(d, occs + [o], fmt, german, show);
      d1.m.Keys <= d2.m.Keys && (MaterialName(o, fmt, german) == SilverDefault || MaterialName(o, fmt, german) in d2.m)
  {
    assert (occs + [o])[..|occs|] == occs;
  }

  /** One step of the materials loop, on values. */
  lemma MaterialsStep(m0: map<string, string>, d0: ODict<string, string>, occs: seq<Occ>, i: nat,
                      names0: map<Token, string>, names1: map<Token, string>,
                      fmt: string -> string, german: string -> string, show: real -> string)
    requires i < |occs| && OrderedDict.Valid(d0)
    requires forall j :: 0 <= j < i ==> occs[j].token in names0
    requires Extends(names0, names1) && occs[i].token in names1
    ensures forall j :: 0 <= j <= i ==> occs[j].token in names1
    ensures WithColors(d0, occs[..i + 1], fmt, german, show) ==
      match ColorChoice(occs[i])
      case None => WithColors(d0, occs[..i], fmt, german, show)
      case Some(c) => Put(WithColors(d0, occs[..i], fmt, german, show), fmt(german(c.0)), Rgba(c.1, show))
    ensures WithMaterials(m0, occs[..i + 1], names1, fmt, german) ==
      WithMaterials(m0, occs[..i], names0, fmt, german)[fmt(names1[occs[i].token]) := MaterialName(occs[i], fmt, german)]
  {
    assert occs[..i + 1][..i] == occs[..i];
    WithMaterialsNames(m0, occs[..i], names0, names1, fmt, german);
  }

  lemma HostRecordedMono(d: ODict<string, JointInfo>, d2: ODict<string, JointInfo>, base: nat, kept: seq<HostJoint>,
                         names: map<Token, string>, names2: map<Token, string>, order: (string, string), cm: real, eps: real)
    requires HostRecorded(d, base, kept, names, order, cm, eps) && Grows(d, d2) && Extends(names, names2)
    ensures HostRecorded(d2, base, kept, names2, order, cm, eps)
  {
    forall t | 0 <= t < |kept|
      ensures d2.keys[base + t] in d2.m && d2.m[d2.keys[base + t]] == Entry(kept[t], d2.keys[base + t], names2, order, cm, eps)
    {
      HostRecordedMonoAt(d, d2, base, kept, names, names2, order, cm, eps, t);
    }
  }

  lemma HostRecordedMonoAt(d: ODict<string, JointInfo>, d2: ODict<string, JointInfo>, base: nat, kept: seq<HostJoint>,
                           names: map<Token, string>, names2: map<Token, string>, order: (string, string), cm: real, eps: real, t: nat)
    requires HostRecorded(d, base, kept, names, order, cm, eps) && Grows(d, d2) && Extends(names, names2) && t < |kept|
    ensures d2.keys[base + t] in d2.m && d2.m[d2.keys[base + t]] == Entry(kept[t], d2.keys[base + t], names2, order, cm, eps)
  {
    var key := d.keys[base + t];
    assert Screen(kept[t]).Proceed?;
    assert key in d.m && d.m[key] == Entry(kept[t], key, names, order, cm, eps);
    assert d2.keys[base + t] == d2.keys[..|d.keys|][base + t] == key;
    assert names2[kept[t].one.token] == names[kept[t].one.token];
    assert names2[kept[t].two.token] == names[kept[t].two.token];
  }

  lemma HostRecordedAppend(d: ODict<string, JointInfo>, base: nat, kept: seq<HostJoint>, names: map<Token, string>,
                           j: HostJoint, key: string, order: (string, string), cm: real, eps: real)
    requires OrderedDict.Valid(d) && HostRecorded(d, base, kept, names, order, cm, eps) && base + |kept| == |d.keys|
    requires key !in d.m && Screen(j).Proceed? && j.one.token in names && j.two.token in names
    requires Accepts(Screen(j).kind, Screen(j).originOne, Screen(j).originTwo, j.motion, order, eps)
    ensures HostRecorded(Put(d, key, Entry(j, key, names, order, cm, eps)), base, kept + [j], names, order, cm, eps)
  {
    var d2 := Put(d, key, Entry(j, key, names, order, cm, eps));
    var k2 := kept + [j];
    assert Grows(d, d2) by {
      assert d2.keys[..|d.keys|] == d.keys;
    }
    HostRecordedMono(d, d2, base, kept, names, names, order, cm, eps);
    forall t | 0 <= t < |k2|
      ensures Screen(k2[t]).Proceed? && k2[t].one.token in names && k2[t].two.token in names
      ensures Accepts(Screen(k2[t]).kind, Screen(k2[t]).originOne, Screen(k2[t]).originTwo, k2[t].motion, order, eps)
      ensures d2.keys[base + t] in d2.m && d2.m[d2.keys[base + t]] == Entry(k2[t], d2.keys[base + t], names, order, cm, eps)
    {
      if t < |kept| {
        assert k2[t] == kept[t];
      } else {
        assert k2[t] == j && d2.keys[base + t] == key;
      }
    }
  }

  lemma FixedRecordedMono(d: ODict<string, JointInfo>, d2: ODict<string, JointInfo>, base: nat, pairs: seq<(Occ, Occ)>,
                          names: map<Token, string>, names2: map<Token, string>)
    requires FixedRecorded(d, base, pairs, names) && Grows(d, d2) && Extends(names, names2)
    ensures FixedRecorded(d2, base, pairs, names2)
  {
    forall t | 0 <= t < |pairs|
      ensures d2.keys[base + t] in d2.m
      ensures d2.m[d2.keys[base + t]] == Fixed(d2.keys[base + t], names2[pairs[t].0.token], names2[pairs[t].1.token])
    {
      FixedRecordedMonoAt(d, d2, base, pairs, names, names2, t);
    }
  }

  lemma FixedRecordedMonoAt(d: ODict<string, JointInfo>, d2: ODict<string, JointInfo>, base: nat, pairs: seq<(Occ, Occ)>,
                            names: map<Token, string>, names2: map<Token, string>, t: nat)
    requires FixedRecorded(d, base, pairs, names) && Grows(d, d2) && Extends(names, names2) && t < |pairs|
    ensures d2.keys[base + t] in d2.m
    ensures d2.m[d2.keys[base + t]] == Fixed(d2.keys[base + t], names2[pairs[t].0.token], names2[pairs[t].1.token])
  {
    var key := d.keys[base + t];
    assert pairs[t].0.token in names;
    assert key in d.m && d.m[key] == Fixed(key, names[pairs[t].0.token], names[pairs[t].1.token]);
    assert d2.keys[base + t] == d2.keys[..|d.keys|][base + t] == key;
  }

  lemma FixedRecordedAppend(d: ODict<string, JointInfo>, base: nat, pairs: seq<(Occ, Occ)>, names: map<Token, string>,
                            p: (Occ, Occ), key: string)
    requires OrderedDict.Valid(d) && FixedRecorded(d, base, pairs, names) && base + |pairs| == |d.keys|
    requires key !in d.m && p.0.token in names && p.1.token in names
    ensures FixedRecorded(Put(d, key, Fixed(key, names[p.0.token], names[p.1.token])), base, pairs + [p], names)
  {
    var d2 := Put(d, key, Fixed(key, names[p.0.token], names[p.1.token]));
    assert Grows(d, d2) by {
      assert d2.keys[..|d.keys|] == d.keys;
    }
    FixedRecordedMono(d, d2, base, pairs, names, names);
    assert d2.keys[base + |pairs|] == key;
  }

  lemma FixedRecordedConcat(d: ODict<string, JointInfo>, base: nat, p1: seq<(Occ, Occ)>, p2: seq<(Occ, Occ)>, names: map<Token, string>)
    requires FixedRecorded(d, base, p1, names) && FixedRecorded(d, base + |p1|, p2, names)
    ensures FixedRecorded(d, base, p1 + p2, names)
  {
    forall t | |p1| <= t < |p1| + |p2|
      ensures (p1 + p2)[t] == p2[t - |p1|]
    {
    }
  }

  /** One step of the host-joint loop, on values: a skipped joint leaves the
      records alone, a kept one appends its record under a fresh key. */
  lemma HostStep(d00: ODict<string, JointInfo>, d0: ODict<string, JointInfo>, d1: ODict<string, JointInfo>,
                 js: seq<HostJoint>, i: nat, names0: map<Token, string>, names1: map<Token, string>,
                 order: (string, string), cm: real, eps: real)
    requires i < |js|
    requires OrderedDict.Valid(d0) && Grows(d00, d0) && |d0.keys| == |d00.keys| + |Kept(js[..i])|
    requires HostRecorded(d0, |d00.keys|, Kept(js[..i]), names0, order, cm, eps) && Extends(names0, names1)
    requires !Screen(js[i]).Proceed? ==> d1 == d0
    requires Screen(js[i]).Proceed? ==>
      var j := js[i];
      var key := RenameIfDuplicate(j.name, d0.m.Keys);
      && j.one.token in names1 && j.two.token in names1
      && Accepts(Screen(j).kind, Screen(j).originOne, Screen(j).originTwo, j.motion, order, eps)
      && d1.keys == d0.keys + [key]
      && d1.m == d0.m[key := Entry(j, key, names1, order, cm, eps)]
    ensures Grows(d00, d1) && |d1.keys| == |d00.keys| + |Kept(js[..i + 1])|
    ensures HostRecorded(d1, |d00.keys|, Kept(js[..i + 1]), names1, order, cm, eps)
  {
    var base := |d00.keys|;
    var prefix, j := js[..i], js[i];
    assert js[..i + 1][..i] == prefix && js[..i + 1][i] == j;
    HostRecordedMono(d0, d0, base, Kept(prefix), names0, names1, order, cm, eps);
    if Screen(j).Proceed? {
      var key := RenameIfDuplicate(j.name, d0.m.Keys);
      assert d1 == Put(d0, key, Entry(j, key, names1, order, cm, eps));
      HostRecordedAppend(d0, base, Kept(prefix), names1, j, key, order, cm, eps);
      assert d1.keys[..|d00.keys|] == d0.keys[..|d00.keys|];
    }
  }

  /** One step of a rigid group's loop, on values: the fixed record of one
      more pair appended under a fresh key. */
  lemma FixedStep(d00: ODict<string, JointInfo>, d0: ODict<string, JointInfo>, d1: ODict<string, JointInfo>,
                  pairs: seq<(Occ, Occ)>, p: (Occ, Occ), key: string, names0: map<Token, string>, names1: map<Token, string>)
    requires OrderedDict.Valid(d0) && Grows(d00, d0) && |d0.keys| == |d00.keys| + |pairs|
    requires FixedRecorded(d0, |d00.keys|, pairs, names0) && Extends(names0, names1)
    requires key !in d0.m && p.0.token in names1 && p.1.token in names1
    requires d1 == Put(d0, key, Fixed(key, names1[p.0.token], names1[p.1.token]))
    ensures Grows(d00, d1) && |d1.keys| == |d00.keys| + |pairs| + 1
    ensures FixedRecorded(d1, |d00.keys|, pairs + [p], names1)
  {
    FixedRecordedMono(d0, d0, |d00.keys|, pairs, names0, names1);
    FixedRecordedAppend(d0, |d00.keys|, pairs, names1, p, key);
    assert d1.keys[..|d00.keys|] == d0.keys[..|d00.keys|];
  }

  lemma FixedRecordedRebase(d: ODict<string, JointInfo>, base: nat, base2: nat, pairs: seq<(Occ, Occ)>, names: map<Token, string>)
    requires base == base2 && FixedRecorded(d, base, pairs, names)
    ensures FixedRecorded(d, base2, pairs, names)
  {
  }

  /** One step of the rigid-group loop, on values. */
  lemma GroupStep(d00: ODict<string, JointInfo>, d0: ODict<string, JointInfo>, d1: ODict<string, JointInfo>,
                  gs: seq<RigidGroup>, i: nat, names0: map<Token, string>, names1: map<Token, string>)
    requires i < |gs|
    requires Grows(d00, d0) && |d0.keys| == |d00.keys| + |AllGroupPairs(gs[..i])|
    requires FixedRecorded(d0, |d00.keys|, AllGroupPairs(gs[..i]), names0)
    requires Grows(d0, d1) && Extends(names0, names1) && |d1.keys| == |d0.keys| + |GroupPairs(gs[i])|
    requires FixedRecorded(d1, |d0.keys|, GroupPairs(gs[i]), names1)
    ensures Grows(d00, d1) && |d1.keys| == |d00.keys| + |AllGroupPairs(gs[..i + 1])|
    ensures FixedRecorded(d1, |d00.keys|, AllGroupPairs(gs[..i + 1]), names1)
  {
    AllGroupPairsSnoc(gs, i);
    FixedRecordedMono(d0, d1, |d00.keys|, AllGroupPairs(gs[..i]), names0, names1);
    FixedRecordedConcat(d1, |d00.keys|, AllGroupPairs(gs[..i]), GroupPairs(gs[i]), names1);
    GrowsTrans(d00, d0, d1);
  }

  lemma AllGroupPairsSnoc(gs: seq<RigidGroup>, i: nat)
    requires i < |gs|
    ensures AllGroupPairs(gs[..i + 1]) == AllGroupPairs(gs[..i]) + GroupPairs(gs[i])
  {
    assert gs[..i + 1][..i] == gs[..i];
  }

  lemma GrowsTrans<V>(d: ODict<string, V>, d1: ODict<string, V>, d2: ODict<string, V>)
    requires Grows(d, d1) && Grows(d1, d2)
    ensures Grows(d, d2)
  {
    assert d2.keys[..|d.keys|] == d2.keys[..|d1.keys|][..|d.keys|];
  }

  /** The host records survive the rigid-group loop that follows them. */
  lemma JointsStep(d00: ODict<string, JointInfo>, d1: ODict<string, JointInfo>, d2: ODict<string, JointInfo>,
                   kept: seq<HostJoint>, names1: map<Token, string>, names2: map<Token, string>,
                   order: (string, string), cm: real, eps: real)
    requires Grows(d00, d1) && HostRecorded(d1, |d00.keys|, kept, names1, order, cm, eps)
    requires Grows(d1, d2) && Extends(names1, names2)
    ensures Grows(d00, d2) && HostRecorded(d2, |d00.keys|, kept, names2, order, cm, eps)
  {
    HostRecordedMono(d1, d2, |d00.keys|, kept, names1, names2, order, cm, eps);
    assert d2.keys[..|d00.keys|] == d1.keys[..|d00.keys|];
  }

  /** The step of a rigid group's loop at occurrence i >= 1. */
  lemma GroupPairStep(d00: ODict<string, JointInfo>, d0: ODict<string, JointInfo>, d1: ODict<string, JointInfo>,
                      g: RigidGroup, i: nat, key: string, names0: map<Token, string>, names1: map<Token, string>)
    requires 1 <= i < |g.occurrences|
    requires OrderedDict.Valid(d0) && Grows(d00, d0) && |d0.keys| == |d00.keys| + (i - 1)
    requires FixedRecorded(d0, |d00.keys|, GroupPairs(g)[..i - 1], names0) && Extends(names0, names1)
    requires key !in d0.m && g.occurrences[0].token in names1 && g.occurrences[i].token in names1
    requires d1 == Put(d0, key, Fixed(key, names1[g.occurrences[0].token], names1[g.occurrences[i].token]))
    ensures Grows(d00, d1) && |d1.keys| == |d00.keys| + i
    ensures FixedRecorded(d1, |d00.keys|, GroupPairs(g)[..i], names1)
  {
    var pairs := GroupPairs(g);
    var p := (g.occurrences[0], g.occurrences[i]);
    FixedStep(d00, d0, d1, pairs[..i - 1], p, key, names0, names1);
    assert pairs[..i - 1] + [p] == pairs[..i];
  }

  /** Which guard the sanity check applies to an occurrence: the one the
      source writes, keyed on the root component's first word, or the one
      it evidently intends, keyed on the occurrence's own link. */
  datatype Guard = AsWritten(rootWord: string) | Intended

  /** The guard of the sanity check as written: a visible occurrence, and a
      body list filed under the root component's first word, the same for
      every occurrence. */
  predicate CheckedAsWritten(o: Occ, rootWord: string, bodyDict: map<string, seq<Body>>) {
    o.visible && rootWord in bodyDict
  }

  /** The guard as intended: a visible occurrence whose own link has visible
      bodies filed under its formatted name. */
  predicate Checked(o: Occ, tokens: map<Token, string>, bodyDict: map<string, seq<Body>>, fmt: string -> string) {
    o.visible && o.token in tokens && fmt(tokens[o.token]) in bodyDict
  }

  predicate Selected(g: Guard, o: Occ, tokens: map<Token, string>, bodyDict: map<string, seq<Body>>, fmt: string -> string) {
    match g
    case AsWritten(w) => CheckedAsWritten(o, w, bodyDict)
    case Intended => Checked(o, tokens, bodyDict, fmt)
  }

  /** Every occurrence the guard selects has a link name, and its link was
      placed by the search. */
  predicate SanityPasses(occs: seq<Occ>, g: Guard, tokens: map<Token, string>, bodyDict: map<string, seq<Body>>,
                         fmt: string -> string, grounded: set<string>) {
    forall i :: 0 <= i < |occs| && Selected(g, occs[i], tokens, bodyDict, fmt) ==>
      occs[i].token in tokens && tokens[occs[i].token] in grounded
  }

  /** The names of the first n occurrences the guard selects that have no link name. */
  function NotInJoints(occs: seq<Occ>, n: nat, g: Guard, tokens: map<Token, string>, bodyDict: map<string, seq<Body>>,
                       fmt: string -> string): set<string>
    requires n <= |occs|
  {
    set j | 0 <= j < n && Selected(g, occs[j], tokens, bodyDict, fmt) && occs[j].token !in tokens :: occs[j].name
  }

  /** The names of the first n occurrences the guard selects whose link the search did not place. */
  function Unreachable(occs: seq<Occ>, n: nat, g: Guard, tokens: map<Token, string>, bodyDict: map<string, seq<Body>>,
                       fmt: string -> string, grounded: set<string>): set<string>
    requires n <= |occs|
  {
    set j | 0 <= j < n && Selected(g, occs[j], tokens, bodyDict, fmt) && occs[j].token in tokens
                                && tokens[occs[j].token] !in grounded :: occs[j].name
  }

  lemma NotInJointsStep(occs: seq<Occ>, i: nat, g: Guard, tokens: map<Token, string>, bodyDict: map<string, seq<Body>>,
                        fmt: string -> string)
    requires i < |occs|
    ensures NotInJoints(occs, i + 1, g, tokens, bodyDict, fmt) == NotInJoints(occs, i, g, tokens, bodyDict, fmt)
      + (if Selected(g, occs[i], tokens, bodyDict, fmt) && occs[i].token !in tokens then {occs[i].name} else {})
  {
  }

  lemma UnreachableStep(occs: seq<Occ>, i: nat, g: Guard, tokens: map<Token, string>, bodyDict: map<string, seq<Body>>,
                        fmt: string -> string, grounded: set<string>)
    requires i < |occs|
    ensures Unreachable(occs, i + 1, g, tokens, bodyDict, fmt, grounded) == Unreachable(occs, i, g, tokens, bodyDict, fmt, grounded)
      + (if Selected(g, occs[i], tokens, bodyDict, fmt) && occs[i].token in tokens && tokens[occs[i].token] !in grounded
         then {occs[i].name} else {})
  {
  }

  lemma SanityStep(occs: seq<Occ>, i: nat, g: Guard, tokens: map<Token, string>, bodyDict: map<string, seq<Body>>,
                   fmt: string -> string, grounded: set<string>)
    requires i < |occs|
    ensures SanityPasses(occs[..i + 1], g, tokens, bodyDict, fmt, grounded) <==>
      (SanityPasses(occs[..i], g, tokens, bodyDict, fmt, grounded) &&
       (Selected(g, occs[i], tokens, bodyDict, fmt) ==> occs[i].token in tokens && tokens[occs[i].token] in grounded))
  {
    assert forall j :: 0 <= j < i ==> occs[..i + 1][j] == occs[..i][j];
  }

  /** A visible occurrence with one visible body, used to exhibit the
      as-written guard. */
  const Plate := Body("plate", true, None)
  const Arm := Occ(7, "arm", false, true, Pose(Point3(0.0, 0.0, 0.0), Axes(0)), None, [Plate], None)

  /** As written, the guard looks up the root component's first word, which
      is not a link name: a visible occurrence with bodies whose link the
      search never placed passes the check, where the intended guard
      reports it. */
  lemma SanityAsWrittenMisses()
    ensures var tokens, bd, fmt := map[Arm.token := "arm"], map["arm" := [Plate]], (s: string) => s;
      && Checked(Arm, tokens, bd, fmt) && "arm" !in {BaseName}
      && SanityPasses([Arm], AsWritten("robot"), tokens, bd, fmt, {BaseName})
      && !SanityPasses([Arm], Intended, tokens, bd, fmt, {BaseName})
  {
    var tokens, bd, fmt := map[Arm.token := "arm"], map["arm" := [Plate]], (s: string) => s;
    assert Selected(Intended, [Arm][0], tokens, bd, fmt);
  }

  /** Whenever the root component's first word names no link with bodies,
      the check as written passes whatever the search placed. */
  lemma SanityAsWrittenVacuous(occs: seq<Occ>, rootWord: string, tokens: map<Token, string>,
                               bodyDict: map<string, seq<Body>>, fmt: string -> string, grounded: set<string>)
    requires rootWord !in bodyDict
    ensures SanityPasses(occs, AsWritten(rootWord), tokens, bodyDict, fmt, grounded)
  {
  }

  /** What the check as written decides: when the root component's first
      word names a link with bodies, every visible occurrence must have a
      placed link; otherwise it passes whatever the search placed. */
  lemma SanityAsWrittenMeaning(occs: seq<Occ>, rootWord: string, tokens: map<Token, string>,
                               bodyDict: map<string, seq<Body>>, fmt: string -> string, grounded: set<string>)
    ensures SanityPasses(occs, AsWritten(rootWord), tokens, bodyDict, fmt, grounded) <==>
      (rootWord in bodyDict ==>
         forall i :: 0 <= i < |occs| && occs[i].visible ==> occs[i].token in tokens && tokens[occs[i].token] in grounded)
  {
  }

  /** With the intended guard, a passing check means every visible
      occurrence that owns a visible body had its link placed. */
  lemma SanityCatches(occs: seq<Occ>, tokens: map<Token, string>, mapper: map<Token, seq<Body>>,
                      fmt: string -> string, grounded: set<string>, i: nat, b: Body)
    requires forall j :: 0 <= j < |occs| ==> occs[j].token in tokens
    requires SanityPasses(occs, Intended, tokens, GroupBodies(BodyItems(occs, tokens, mapper, fmt)), fmt, grounded)
    requires i < |occs| && occs[i].visible && b in BodiesOf(mapper, occs[i].token) && b.visible
    ensures tokens[occs[i].token] in grounded
  {
    var items := BodyItems(occs, tokens, mapper, fmt);
    var k := fmt(tokens[occs[i].token]);
    BodyItemsHas(occs, tokens, mapper, fmt, i, b);
    UnderHas(items, k, b);
    GroupBodiesUnder(items, k);
    assert Selected(Intended, occs[i], tokens, GroupBodies(items), fmt);
  }

  lemma SanityCatchesAll(occs: seq<Occ>, tokens: map<Token, string>, mapper: map<Token, seq<Body>>,
                         fmt: string -> string, grounded: set<string>)
    requires forall j :: 0 <= j < |occs| ==> occs[j].token in tokens
    requires SanityPasses(occs, Intended, tokens, GroupBodies(BodyItems(occs, tokens, mapper, fmt)), fmt, grounded)
    ensures forall i, b :: 0 <= i < |occs| && occs[i].visible && b in BodiesOf(mapper, occs[i].token) && b.visible ==>
      tokens[occs[i].token] in grounded
  {
    forall i, b | 0 <= i < |occs| && occs[i].visible && b in BodiesOf(mapper, occs[i].token) && b.visible
      ensures tokens[occs[i].token] in grounded
    {
      SanityCatches(occs, tokens, mapper, fmt, grounded, i, b);
    }
  }

  class Configurator {
    /** Link name of every named occurrence, by entity token. */
    var linksByToken: map<Token, string>
    /** The occurrence behind every link name. */
    var linksByName: map<string, Occ>
    /** The joint records, in the order they were found. */
    var jointsDict: ODict<string, JointInfo>
    var baseLink: Option<Occ>
    /** Colour name to rgba string, in the order first written. */
    var colorDict: ODict<string, string>
    /** Formatted link name to the name of its material. */
    var materialDict: map<string, string>
    /** Formatted link name to its visible bodies, and to their mesh names. */
    var bodyDict: map<string, seq<Body>>
    var bodyDictUrdf: map<string, seq<string>>
    /** `<root name>/meshes/`. */
    var meshFolder: string
    /** The URDF origin of every placed link, in design coordinates. */
    var linkOrigins: map<string, Pose>
    /** The URDF joints and links emitted by the search, in emission order. */
    var joints: ODict<string, UrdfJoint>
    var links: ODict<string, LinkEntry>
    /** Which side of a host joint is the parent: `('p','c')` or `('c','p')`. */
    var jointOrder: (string, string)
    const scale: real
    const cm: real
    const eps: real
    /** `parts.Link.scale`: the scale as text, which every mesh of every
        link rendered afterwards carries three times. */
    const linkScale: string

    /** Link names and occurrences correspond one to one. */
    ghost predicate Registry()
      reads this`linksByToken, this`linksByName
    {
      && (forall t :: t in linksByToken ==> linksByToken[t] in linksByName && linksByName[linksByToken[t]].token == t)
      && (forall n :: n in linksByName ==> linksByName[n].token in linksByToken && linksByToken[linksByName[n].token] == n)
    }

    /** Every joint record is stored under its own name, between named links. */
    ghost predicate JointsKnown()
      reads this`jointsDict, this`linksByName
    {
      JointsNamed(jointsDict, linksByName)
    }

    /** Every material handed out names a colour of the colour table. */
    ghost predicate ColorsKnown()
      reads this`colorDict, this`materialDict
    {
      OrderedDict.Valid(colorDict) && forall k :: k in materialDict ==> materialDict[k] in colorDict.m
    }

    /** `Configurator(root, scale, cm)`: empty tables, the parent-first order
        flag, the coincidence tolerance 1e-7 in design units, and the scale
        text of the links printed by `show`. */
    constructor(scale: real, cm: real, show: real -> string)
      requires scale != 0.0
      ensures this.scale == scale && this.cm == cm && eps * scale == 0.0000001
      ensures linkScale == show(scale)
      ensures linksByToken == map[] && linksByName == map[] && baseLink == None
      ensures jointsDict == OrderedDict.Empty() && jointOrder == ("p", "c")
      ensures colorDict == OrderedDict.Empty() && materialDict == map[]
      ensures bodyDict == map[] && bodyDictUrdf == map[] && meshFolder == ""
      ensures linkOrigins == map[] && joints == OrderedDict.Empty() && links == OrderedDict.Empty()
      ensures Registry() && JointsKnown() && ColorsKnown()
    {
      this.scale := scale;
      this.cm := cm;
      eps := 0.0000001 / scale;
      linkScale := show(scale);
      linksByToken := map[];
      linksByName := map[];
      jointsDict := OrderedDict.Empty();
      baseLink := None;
      jointOrder := ("p", "c");
      colorDict := OrderedDict.Empty();
      materialDict := map[];
      bodyDict := map[];
      bodyDictUrdf := map[];
      meshFolder := "";
      linkOrigins := map[];
      joints := OrderedDict.Empty();
      links := OrderedDict.Empty();
    }

    /** `get_name(oc)`: the cached link name of a known occurrence; otherwise
        a fresh name derived from the occurrence's name, recorded both ways. */
    method GetName(oc: Occ) returns (name: string)
      requires Registry()
      modifies this`linksByToken, this`linksByName
      ensures Registry()
      ensures oc.token in linksByToken && linksByToken[oc.token] == name && name in linksByName
      ensures oc.token in old(linksByToken) ==>
        name == old(linksByToken)[oc.token] && linksByToken == old(linksByToken) && linksByName == old(linksByName)
      ensures oc.token !in old(linksByToken) ==>
        && name == RenameIfDuplicate(oc.name, old(linksByName).Keys) && name !in old(linksByName)
        && linksByToken == old(linksByToken)[oc.token := name] && linksByName == old(linksByName)[name := oc]
      ensures Extends(old(linksByToken), linksByToken) && Extends(old(linksByName), linksByName)
    {
      if oc.token in linksByToken {
        return linksByToken[oc.token];
      }
      name := RenameIfDuplicate(oc.name, linksByName.Keys);
      linksByName := linksByName[name := oc];
      linksByToken := linksByToken[oc.token := name];
    }

    /** `_base()`: the first grounded occurrence becomes "base_link"; without
        one the export aborts. It runs on a fresh registry. */
    method Base(occs: seq<Occ>) returns (r: Outcome)
      requires linksByToken == map[] && linksByName == map[] && baseLink == None
      modifies this`baseLink, this`linksByToken, this`linksByName
      ensures Registry()
      ensures r.Pass? <==> exists i :: 0 <= i < |occs| && occs[i].grounded
      ensures r.Pass? ==> exists k :: (FirstGrounded(occs, k) && baseLink == Some(occs[k])
        && linksByToken == map[occs[k].token := "base_link"] && linksByName == map["base_link" := occs[k]])
      ensures r.Fail? ==> baseLink == None && linksByToken == map[] && linksByName == map[]
    {
      var i := 0;
      while i < |occs|
        invariant 0 <= i <= |occs| && forall j :: 0 <= j < i ==> !occs[j].grounded
      {
        if occs[i].grounded {
          baseLink := Some(occs[i]);
          break;
        }
        i := i + 1;
      }
      if baseLink == None {
        return Fail("Failed to find a grounded occurrence for base_link");
      }
      assert FirstGrounded(occs, i);
      linksByToken := linksByToken[occs[i].token := "base_link"];
      linksByName := linksByName["base_link" := occs[i]];
      r := Pass;
    }

    /** One host joint of `_joints`: screened, renamed against the records,
        its occurrences named, then recorded or rejected. */
    method AddHostJoint(j: HostJoint) returns (r: Outcome)
      requires Registry() && JointsKnown()
      modifies this`jointsDict, this`linksByToken, this`linksByName
      ensures Registry() && JointsKnown()
      ensures Extends(old(linksByToken), linksByToken) && Extends(old(linksByName), linksByName)
      ensures r.Fail? <==> HostFatal(j, jointOrder, eps)
      ensures !Screen(j).Proceed? || r.Fail? ==> jointsDict == old(jointsDict)
      ensures Screen(j).Skipped? ==> linksByToken == old(linksByToken) && linksByName == old(linksByName)
      ensures Screen(j).Proceed? && r.Pass? ==>
        var key := RenameIfDuplicate(j.name, old(jointsDict).m.Keys);
        && j.one.token in linksByToken && j.two.token in linksByToken
        && Accepts(Screen(j).kind, Screen(j).originOne, Screen(j).originTwo, j.motion, jointOrder, eps)
        && jointsDict.keys == old(jointsDict).keys + [key]
        && jointsDict.m == old(jointsDict).m[key := Entry(j, key, linksByToken, jointOrder, cm, eps)]
    {
      var s := Screen(j);
      if s.Skipped? {
        return Pass;
      } else if s.Fatal? {
        return Fail(s.msg);
      }
      ghost var d0, links0 := jointsDict, linksByName;
      assert JointsNamed(d0, links0);
      var key := RenameIfDuplicate(j.name, jointsDict.m.Keys);
      var one := GetName(j.one);
      var two := GetName(j.two);
      assert jointsDict == d0;
      assert Extends(links0, linksByName) && one in linksByName;
      RecordAccepts(s.kind, s.originOne, s.originTwo, j.motion, key, one, two, jointOrder, cm, eps);
      var rec := Record(s.kind, s.originOne, s.originTwo, j.motion, key, one, two, jointOrder, cm, eps);
      if rec.Err? {
        JointsNamedMono(d0, links0, linksByName);
        return Fail(rec.msg);
      }
      assert rec.value.parent == one || rec.value.parent == two;
      assert rec.value.child == one || rec.value.child == two;
      JointsNamedPut(d0, links0, linksByName, key, rec.value);
      jointsDict := Put(jointsDict, key, rec.value);
      r := Pass;
    }
    /** `__get_appearance(occ)`: the name of the chosen appearance and its
        first colour property, or nothing. */
    method GetAppearance(occ: Occ) returns (r: Option<(string, AppearanceProperty)>)
      ensures r == ColorChoice(occ)
      ensures r.Some? <==>
        (ChosenAppearance(occ).Some? &&
         exists k :: 0 <= k < |ChosenAppearance(occ).value.properties| && ChosenAppearance(occ).value.properties[k].ColorProperty?)
      ensures r.Some? ==> r.value.0 == ChosenAppearance(occ).value.name && r.value.1.ColorProperty?
    {
      var appearance: Option<Appearance> := None;
      if occ.appearance.Some? {
        appearance := occ.appearance;
      } else if |occ.bodies| > 0 {
        var i := 0;
        while i < |occ.bodies|
          invariant 0 <= i <= |occ.bodies| && appearance == None
          invariant forall j :: 0 <= j < i ==> occ.bodies[j].appearance.None?
        {
          if occ.bodies[i].appearance.Some? {
            appearance := occ.bodies[i].appearance;
            assert FirstWithAppearance(occ.bodies, i);
            break;
          }
          i := i + 1;
        }
      } else if occ.material.Some? {
        appearance := occ.material.value.appearance;
      }
      assert appearance == ChosenAppearance(occ);
      if appearance.Some? {
        var ps := appearance.value.properties;
        var i := 0;
        while i < |ps|
          invariant 0 <= i <= |ps| && forall j :: 0 <= j < i ==> !ps[j].ColorProperty?
        {
          if ps[i].ColorProperty? {
            assert FirstColor(ps, i);
            return Some((appearance.value.name, ps[i]));
          }
          i := i + 1;
        }
      }
      return None;
    }

    /** One occurrence of `_materials()`: its colour, if it has one, and
        its material under its formatted link name. */
    method MaterialOf(occs: seq<Occ>, i: nat, fmt: string -> string, german: string -> string, show: real -> string,
                      ghost m0: map<string, string>, ghost d0: ODict<string, string>)
      requires i < |occs| && Registry() && OrderedDict.Valid(colorDict)
      requires forall j :: 0 <= j < i ==> occs[j].token in linksByToken
      requires OrderedDict.Valid(d0) && colorDict == WithColors(d0, occs[..i], fmt, german, show)
      requires materialDict == WithMaterials(m0, occs[..i], linksByToken, fmt, german)
      modifies this`colorDict, this`materialDict, this`linksByToken, this`linksByName
      ensures Registry() && OrderedDict.Valid(colorDict)
      ensures Extends(old(linksByToken), linksByToken) && Extends(old(linksByName), linksByName)
      ensures forall j :: 0 <= j <= i ==> occs[j].token in linksByToken
      ensures colorDict == WithColors(d0, occs[..i + 1], fmt, german, show)
      ensures materialDict == WithMaterials(m0, occs[..i + 1], linksByToken, fmt, german)
    {
      ghost var names0 := linksByToken;
      var material := SilverDefault;
      var choice := GetAppearance(occs[i]);
      if choice.Some? {
        var colorName := fmt(german(choice.value.0));
        material := colorName;
        colorDict := Put(colorDict, colorName, Rgba(choice.value.1, show));
      }
      var occName := GetName(occs[i]);
      MaterialsStep(m0, d0, occs, i, names0, linksByToken, fmt, german, show);
      materialDict := materialDict[fmt(occName) := material];
    }

    /** `_materials()`: the default silver colour, then for each occurrence
        its colour (if any) and its material under its formatted link name. */
    method Materials(occs: seq<Occ>, fmt: string -> string, german: string -> string, show: real -> string)
      requires Registry() && ColorsKnown()
      modifies this`colorDict, this`materialDict, this`linksByToken, this`linksByName
      ensures Registry() && ColorsKnown() && SilverDefault in colorDict.m
      ensures Extends(old(linksByToken), linksByToken) && Extends(old(linksByName), linksByName)
      ensures forall i :: 0 <= i < |occs| ==> occs[i].token in linksByToken
      ensures colorDict == WithColors(Put(old(colorDict), SilverDefault, SilverRgba), occs, fmt, german, show)
      ensures materialDict == WithMaterials(old(materialDict), occs, linksByToken, fmt, german)
    {
      colorDict := Put(colorDict, SilverDefault, SilverRgba);
      ghost var d0 := colorDict;
      var i := 0;
      while i < |occs|
        invariant 0 <= i <= |occs| && Registry() && OrderedDict.Valid(colorDict)
        invariant Extends(old(linksByToken), linksByToken) && Extends(old(linksByName), linksByName)
        invariant forall j :: 0 <= j < i ==> occs[j].token in linksByToken
        invariant colorDict == WithColors(d0, occs[..i], fmt, german, show)
        invariant materialDict == WithMaterials(old(materialDict), occs[..i], linksByToken, fmt, german)
      {
        MaterialOf(occs, i, fmt, german, show, old(materialDict), d0);
        i := i + 1;
      }
      assert occs[..i] == occs;
      ColorsCoverMaterials(old(materialDict), d0, occs, linksByToken, fmt, german, show);
    }

    /** The body-naming loop of `_build`: every visible body of every
        occurrence is filed under the occurrence's formatted link name, with
        a mesh name numbered per body name by a shared counter. */
    method NameBodies(occs: seq<Occ>, mapper: map<Token, seq<Body>>, fmt: string -> string)
      requires Registry()
      modifies this`bodyDict, this`bodyDictUrdf, this`linksByToken, this`linksByName
      ensures Registry()
      ensures Extends(old(linksByToken), linksByToken) && Extends(old(linksByName), linksByName)
      ensures forall i :: 0 <= i < |occs| ==> occs[i].token in linksByToken
      ensures bodyDict == GroupBodies(BodyItems(occs, linksByToken, mapper, fmt))
      ensures bodyDictUrdf == GroupMeshNames(BodyItems(occs, linksByToken, mapper, fmt), fmt)
    {
      var bd: map<string, seq<Body>>, bdu: map<string, seq<string>> := map[], map[];
      var bodyCount: map<string, nat> := map[];
      ghost var items: seq<(string, Body)> := [];
      var i := 0;
      while i < |occs|
        invariant 0 <= i <= |occs| && Registry()
        invariant Extends(old(linksByToken), linksByToken) && Extends(old(linksByName), linksByName)
        invariant forall j :: 0 <= j < i ==> occs[j].token in linksByToken
        invariant items == BodyItems(occs[..i], linksByToken, mapper, fmt)
        invariant Filed(bodyCount, bd, bdu, items, fmt)
      {
        bodyCount, bd, bdu, items := NameOccBodies(occs, i, mapper, fmt, bodyCount, bd, bdu, items);
        i := i + 1;
      }
      assert occs[..i] == occs;
      bodyDict, bodyDictUrdf := bd, bdu;
    }

    /** One occurrence of the body-naming loop: its link name, then its
        visible bodies filed under the formatted name. */
    method NameOccBodies(occs: seq<Occ>, i: nat, mapper: map<Token, seq<Body>>, fmt: string -> string,
                         bodyCount0: map<string, nat>, bd0: map<string, seq<Body>>, bdu0: map<string, seq<string>>,
                         ghost items0: seq<(string, Body)>)
      returns (bodyCount: map<string, nat>, bd: map<string, seq<Body>>, bdu: map<string, seq<string>>,
               ghost items: seq<(string, Body)>)
      requires i < |occs| && Registry()
      requires forall j :: 0 <= j < i ==> occs[j].token in linksByToken
      requires items0 == BodyItems(occs[..i], linksByToken, mapper, fmt)
      requires Filed(bodyCount0, bd0, bdu0, items0, fmt)
      modifies this`linksByToken, this`linksByName
      ensures Registry()
      ensures Extends(old(linksByToken), linksByToken) && Extends(old(linksByName), linksByName)
      ensures forall j :: 0 <= j <= i ==> occs[j].token in linksByToken
      ensures items == BodyItems(occs[..i + 1], linksByToken, mapper, fmt)
      ensures Filed(bodyCount, bd, bdu, items, fmt)
    {
      ghost var names0 := linksByToken;
      var occName := GetName(occs[i]);
      var ocName := fmt(occName);
      BodyItemsNames(occs[..i], names0, linksByToken, mapper, fmt);
      var bodyLst := BodiesOf(mapper, occs[i].token);
      bodyCount, bd, bdu := FileBodies(ocName, bodyLst, bodyCount0, bd0, bdu0, fmt, items0);
      assert bodyLst[..|bodyLst|] == bodyLst;
      items := items0 + Pair(ocName, Visible(bodyLst));
      OccStep(occs, i, linksByToken, mapper, fmt);
    }

    /** One step of the host-joint loop: joint i is recorded after the
        records of the kept joints before it, or it is fatal. */
    method HostJointAt(js: seq<HostJoint>, i: nat, ghost d00: ODict<string, JointInfo>) returns (r: Outcome)
      requires i < |js| && Registry() && JointsKnown()
      requires Grows(d00, jointsDict) && |jointsDict.keys| == |d00.keys| + |Kept(js[..i])|
      requires HostRecorded(jointsDict, |d00.keys|, Kept(js[..i]), linksByToken, jointOrder, cm, eps)
      modifies this`jointsDict, this`linksByToken, this`linksByName
      ensures Registry() && JointsKnown()
      ensures Extends(old(linksByToken), linksByToken) && Extends(old(linksByName), linksByName)
      ensures r.Fail? <==> HostFatal(js[i], jointOrder, eps)
      ensures r.Pass? ==>
        && Grows(d00, jointsDict) && |jointsDict.keys| == |d00.keys| + |Kept(js[..i + 1])|
        && HostRecorded(jointsDict, |d00.keys|, Kept(js[..i + 1]), linksByToken, jointOrder, cm, eps)
    {
      ghost var d0, names0 := jointsDict, linksByToken;
      r := AddHostJoint(js[i]);
      if r.Pass? {
        HostStep(d00, d0, jointsDict, js, i, names0, linksByToken, jointOrder, cm, eps);
      }
    }

    /** The host-joint loop of `_joints`: stops at the first fatal joint;
        otherwise appends one record per kept joint, in order. */
    method AddHostJoints(js: seq<HostJoint>) returns (r: Outcome)
      requires Registry() && JointsKnown()
      modifies this`jointsDict, this`linksByToken, this`linksByName
      ensures Registry() && JointsKnown()
      ensures Extends(old(linksByToken), linksByToken) && Extends(old(linksByName), linksByName)
      ensures r.Pass? <==> forall k :: 0 <= k < |js| ==> !HostFatal(js[k], jointOrder, eps)
      ensures r.Pass? ==>
        && Grows(old(jointsDict), jointsDict)
        && |jointsDict.keys| == |old(jointsDict).keys| + |Kept(js)|
        && HostRecorded(jointsDict, |old(jointsDict).keys|, Kept(js), linksByToken, jointOrder, cm, eps)
    {
      ghost var d00 := jointsDict;
      r := Pass;
      var i := 0;
      while i < |js| && r.Pass?
        invariant 0 <= i <= |js| && Registry() && JointsKnown()
        invariant Extends(old(linksByToken), linksByToken) && Extends(old(linksByName), linksByName)
        invariant forall k :: 0 <= k < i ==> !HostFatal(js[k], jointOrder, eps)
        invariant r.Fail? ==> i < |js| && HostFatal(js[i], jointOrder, eps)
        invariant r.Pass? ==> Grows(d00, jointsDict) && |jointsDict.keys| == |d00.keys| + |Kept(js[..i])|
        invariant r.Pass? ==> HostRecorded(jointsDict, |d00.keys|, Kept(js[..i]), linksByToken, jointOrder, cm, eps)
        decreases |js| - i, if r.Pass? then 1 else 0
      {
        ghost var tokens, names := linksByToken, linksByName;
        r := HostJointAt(js, i, d00);
        ExtendsTrans(old(linksByToken), tokens, linksByToken);
        ExtendsTrans(old(linksByName), names, linksByName);
        if r.Pass? {
          i := i + 1;
        }
      }
      assert r.Pass? ==> js[..i] == js;
    }

    /** One rigid group: its first occurrence is the parent of a fixed joint
        to each later occurrence, each under a freshly deduplicated group name. */
    method AddGroup(g: RigidGroup)
      requires Registry() && JointsKnown()
      modifies this`jointsDict, this`linksByToken, this`linksByName
      ensures Registry() && JointsKnown()
      ensures Extends(old(linksByToken), linksByToken) && Extends(old(linksByName), linksByName)
      ensures Grows(old(jointsDict), jointsDict)
      ensures |jointsDict.keys| == |old(jointsDict).keys| + |GroupPairs(g)|
      ensures FixedRecorded(jointsDict, |old(jointsDict).keys|, GroupPairs(g), linksByToken)
    {
      ghost var d00 := jointsDict;
      ghost var pairs := GroupPairs(g);
      var os := g.occurrences;
      if |os| == 0 {
        return;
      }
      var i := 1;
      while i < |os|
        invariant 1 <= i <= |os| && Registry() && JointsKnown()
        invariant Extends(old(linksByToken), linksByToken) && Extends(old(linksByName), linksByName)
        invariant Grows(d00, jointsDict) && |jointsDict.keys| == |d00.keys| + (i - 1)
        invariant FixedRecorded(jointsDict, |d00.keys|, pairs[..i - 1], linksByToken)
      {
        AddPair(g, i, d00);
        i := i + 1;
      }
      assert pairs[..i - 1] == pairs;
    }

    /** One pass of a rigid group's loop: the fixed joint from the group's
        first occurrence to occurrence i, under a fresh group name. */
    method AddPair(g: RigidGroup, i: nat, ghost d00: ODict<string, JointInfo>)
      requires 1 <= i < |g.occurrences| && Registry() && JointsKnown()
      requires Grows(d00, jointsDict) && |jointsDict.keys| == |d00.keys| + (i - 1)
      requires FixedRecorded(jointsDict, |d00.keys|, GroupPairs(g)[..i - 1], linksByToken)
      modifies this`jointsDict, this`linksByToken, this`linksByName
      ensures Registry() && JointsKnown()
      ensures Extends(old(linksByToken), linksByToken) && Extends(old(linksByName), linksByName)
      ensures Grows(d00, jointsDict) && |jointsDict.keys| == |d00.keys| + i
      ensures FixedRecorded(jointsDict, |d00.keys|, GroupPairs(g)[..i], linksByToken)
    {
      ghost var d0, names0, links0 := jointsDict, linksByToken, linksByName;
      var key := RenameIfDuplicate(g.name, jointsDict.m.Keys);
      var parentName := GetName(g.occurrences[0]);
      ghost var links1 := linksByName;
      var childName := GetName(g.occurrences[i]);
      assert Extends(links0, linksByName) && parentName in linksByName;
      JointsNamedPut(d0, links0, linksByName, key, Fixed(key, parentName, childName));
      jointsDict := Put(jointsDict, key, Fixed(key, parentName, childName));
      GroupPairStep(d00, d0, jointsDict, g, i, key, names0, linksByToken);
    }

    /** The rigid-group loop of `_joints`. */
    method AddGroups(gs: seq<RigidGroup>)
      requires Registry() && JointsKnown()
      modifies this`jointsDict, this`linksByToken, this`linksByName
      ensures Registry() && JointsKnown()
      ensures Extends(old(linksByToken), linksByToken) && Extends(old(linksByName), linksByName)
      ensures Grows(old(jointsDict), jointsDict)
      ensures |jointsDict.keys| == |old(jointsDict).keys| + |AllGroupPairs(gs)|
      ensures FixedRecorded(jointsDict, |old(jointsDict).keys|, AllGroupPairs(gs), linksByToken)
    {
      ghost var d00 := jointsDict;
      var i := 0;
      while i < |gs|
        invariant 0 <= i <= |gs| && Registry() && JointsKnown()
        invariant Extends(old(linksByToken), linksByToken) && Extends(old(linksByName), linksByName)
        invariant Grows(d00, jointsDict) && |jointsDict.keys| == |d00.keys| + |AllGroupPairs(gs[..i])|
        invariant FixedRecorded(jointsDict, |d00.keys|, AllGroupPairs(gs[..i]), linksByToken)
      {
        ghost var d0, names0 := jointsDict, linksByToken;
        AddGroup(gs[i]);
        GroupStep(d00, d0, jointsDict, gs, i, names0, linksByToken);
        i := i + 1;
      }
      assert gs[..i] == gs;
    }

    /** `_joints()`: the records of the host joints in order, then n-1 fixed
        records per rigid group of n; any fatal host joint aborts. */
    method Joints(js: seq<HostJoint>, gs: seq<RigidGroup>) returns (r: Outcome)
      requires Registry() && JointsKnown()
      modifies this`jointsDict, this`linksByToken, this`linksByName
      ensures Registry() && JointsKnown()
      ensures Extends(old(linksByToken), linksByToken) && Extends(old(linksByName), linksByName)
      ensures r.Pass? <==> forall k :: 0 <= k < |js| ==> !HostFatal(js[k], jointOrder, eps)
      ensures r.Pass? ==>
        var base := |old(jointsDict).keys|;
        && Grows(old(jointsDict), jointsDict)
        && |jointsDict.keys| == base + |Kept(js)| + EdgeCount(gs)
        && HostRecorded(jointsDict, base, Kept(js), linksByToken, jointOrder, cm, eps)
        && FixedRecorded(jointsDict, base + |Kept(js)|, AllGroupPairs(gs), linksByToken)
    {
      ghost var d00 := jointsDict;
      r := AddHostJoints(js);
      if r.Fail? {
        return;
      }
      ghost var d1, names1 := jointsDict, linksByToken;
      AddGroups(gs);
      FixedRecordedRebase(jointsDict, |d1.keys|, |old(jointsDict).keys| + |Kept(js)|, AllGroupPairs(gs), linksByToken);
      AllGroupPairsCount(gs);
      JointsStep(d00, d1, jointsDict, Kept(js), names1, linksByToken, jointOrder, cm, eps);
    }
  
    /** The sanity check at the end of `_build`: among the occurrences the
        guard `checked` selects, those without a link name and those whose
        link was never placed; the export aborts when either set is non-empty. */
    method Sanity(occs: seq<Occ>, g: Guard, fmt: string -> string, grounded: set<string>)
      returns (r: Outcome, notInJoints: set<string>, unreachable: set<string>)
      ensures notInJoints == NotInJoints(occs, |occs|, g, linksByToken, bodyDict, fmt)
      ensures unreachable == Unreachable(occs, |occs|, g, linksByToken, bodyDict, fmt, grounded)
      ensures r.Pass? <==> SanityPasses(occs, g, linksByToken, bodyDict, fmt, grounded)
    {
      var tokens, bd := linksByToken, bodyDict;
      notInJoints, unreachable := {}, {};
      var i := 0;
      while i < |occs|
        invariant 0 <= i <= |occs|
        invariant notInJoints == NotInJoints(occs, i, g, tokens, bd, fmt)
        invariant unreachable == Unreachable(occs, i, g, tokens, bd, fmt, grounded)
        invariant (notInJoints == {} && unreachable == {}) <==> SanityPasses(occs[..i], g, tokens, bd, fmt, grounded)
      {
        var c := occs[i];
        SanityStep(occs, i, g, tokens, bd, fmt, grounded);
        NotInJointsStep(occs, i, g, tokens, bd, fmt);
        UnreachableStep(occs, i, g, tokens, bd, fmt, grounded);
        var selected := match g
          case AsWritten(w) => c.visible && w in bd
          case Intended => c.visible && c.token in tokens && fmt(tokens[c.token]) in bd;
        if selected {
          if c.token !in tokens {
            notInJoints := notInJoints + {c.name};
          } else if tokens[c.token] !in grounded {
            unreachable := unreachable + {c.name};
          }
        }
        i := i + 1;
      }
      assert occs[..i] == occs;
      if notInJoints != {} || unreachable != {} {
        var error := "Not all components were included in the export:";
        if notInJoints != {} {
          error := error + "Not a part of any joint or rigid group: ";
        }
        if unreachable != {} {
          error := error + "Unreacheable from the grounded component via joints+links: ";
        }
        return Fail(error), notInJoints, unreachable;
      }
      r := Pass;
    }

    /** The links the search placed form the URDF tree: the joints and
        links emitted and the origins assigned satisfy the search's
        invariant, and no joint record leaves the placed links. */
    ghost predicate Placed(grounded: set<string>, depth: map<string, nat>, via: map<string, string>)
      reads this`baseLink, this`jointsDict, this`linksByName, this`linkOrigins, this`joints, this`links
    {
      && baseLink.Some?
      && Grown(jointsDict, linksByName, baseLink.value, grounded, {}, depth, via, linkOrigins, joints, links)
      && Closed(jointsDict, grounded, grounded)
    }

    /** The mesh folder and the body tables of `_build()` for the root
        component's first word and the given occurrences. */
    ghost predicate Tabled(word: string, occs: seq<Occ>, mapper: map<Token, seq<Body>>, fmt: string -> string)
      reads this`meshFolder, this`bodyDict, this`bodyDictUrdf, this`linksByToken
    {
      && meshFolder == word + "/meshes/"
      && (forall i :: 0 <= i < |occs| ==> occs[i].token in linksByToken)
      && bodyDict == GroupBodies(BodyItems(occs, linksByToken, mapper, fmt))
      && bodyDictUrdf == GroupMeshNames(BodyItems(occs, linksByToken, mapper, fmt), fmt)
    }

    /** The first steps of `_build()`: the mesh folder under the root
        component's first word, then the body tables. */
    method Tables(rootName: string, occs: seq<Occ>, mapper: map<Token, seq<Body>>, fmt: string -> string) returns (r: Outcome)
      requires Registry() && JointsKnown()
      modifies this`meshFolder, this`bodyDict, this`bodyDictUrdf, this`linksByToken, this`linksByName
      ensures Registry() && JointsKnown()
      ensures Extends(old(linksByToken), linksByToken) && Extends(old(linksByName), linksByName)
      ensures r.Pass? <==> FirstWord(rootName).Ok?
      ensures r.Fail? ==> unchanged(this`meshFolder, this`bodyDict, this`bodyDictUrdf, this`linksByToken, this`linksByName)
      ensures r.Pass? ==> Tabled(FirstWord(rootName).value, occs, mapper, fmt)
    {
      var word := FirstWord(rootName);
      if word.Err? {
        return Fail(word.msg);
      }
      meshFolder := word.value + "/meshes/";
      NameBodies(occs, mapper, fmt);
      r := Pass;
    }

    /** The breadth-first search of `_build()` from the base link, its
        results stored as the link origins, joints and links. */
    method Tree() returns (grounded: set<string>, ghost depth: map<string, nat>, ghost via: map<string, string>)
      requires Registry() && JointsKnown()
      requires baseLink.Some? && BaseName in linksByName && linksByName[BaseName] == baseLink.value
      modifies this`linkOrigins, this`joints, this`links
      ensures Placed(grounded, depth, via)
    {
      assert Indexed(jointsDict, linksByName, linksByToken);
      var origins, js, ls;
      grounded, origins, js, ls, depth, via := Search(jointsDict, linksByName, linksByToken, baseLink.value);
      linkOrigins, joints, links := origins, js, ls;
    }

    /** `_build()`: the mesh folder and body tables, the tree of links and
        joints, then the sanity check with the guard of the source, keyed on
        the root component's first word. */
    method Build(rootName: string, occs: seq<Occ>, mapper: map<Token, seq<Body>>, fmt: string -> string)
      returns (r: Outcome, grounded: set<string>, ghost depth: map<string, nat>, ghost via: map<string, string>)
      requires Registry() && JointsKnown()
      requires baseLink.Some? && BaseName in linksByName && linksByName[BaseName] == baseLink.value
      modifies this`meshFolder, this`bodyDict, this`bodyDictUrdf, this`linksByToken, this`linksByName
      modifies this`linkOrigins, this`joints, this`links
      ensures Extends(old(linksByToken), linksByToken) && Extends(old(linksByName), linksByName)
      ensures FirstWord(rootName).Err? ==> r.Fail? && unchanged(this`meshFolder, this`bodyDict, this`bodyDictUrdf, this`linksByToken, this`linksByName)
      ensures FirstWord(rootName).Err? ==> unchanged(this`linkOrigins, this`joints, this`links)
      ensures FirstWord(rootName).Ok? ==>
        var word := FirstWord(rootName).value;
        && Tabled(word, occs, mapper, fmt)
        && Placed(grounded, depth, via)
        && (r.Pass? <==> SanityPasses(occs, AsWritten(word), linksByToken, bodyDict, fmt, grounded))
        && (r.Pass? <==> (word in bodyDict ==>
              forall i :: 0 <= i < |occs| && occs[i].visible ==> linksByToken[occs[i].token] in grounded))
    {
      r := Tables(rootName, occs, mapper, fmt);
      grounded, depth, via := {}, map[], map[];
      if r.Pass? {
        r, grounded, depth, via := TreeAndSanity(occs, FirstWord(rootName).value, fmt);
      }
    }

    /** The part of `_build()` after the body tables: the search from the
        base link, then the sanity check as written, with `word` the root
        component's first word. */
    method TreeAndSanity(occs: seq<Occ>, word: string, fmt: string -> string)
      returns (r: Outcome, grounded: set<string>, ghost depth: map<string, nat>, ghost via: map<string, string>)
      requires Registry() && JointsKnown()
      requires baseLink.Some? && BaseName in linksByName && linksByName[BaseName] == baseLink.value
      requires forall i :: 0 <= i < |occs| ==> occs[i].token in linksByToken
      modifies this`linkOrigins, this`joints, this`links
      ensures Placed(grounded, depth, via)
      ensures r.Pass? <==> SanityPasses(occs, AsWritten(word), linksByToken, bodyDict, fmt, grounded)
      ensures r.Pass? <==> (word in bodyDict ==>
        forall i :: 0 <= i < |occs| && occs[i].visible ==> linksByToken[occs[i].token] in grounded)
    {
      grounded, depth, via := Tree();
      var notInJoints, unreachable;
      r, notInJoints, unreachable := Sanity(occs, AsWritten(word), fmt, grounded);
      SanityAsWrittenMeaning(occs, word, linksByToken, bodyDict, fmt, grounded);
    }

  }
}
