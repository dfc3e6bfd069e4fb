/** The kinematic tree of `_build`: the joint records are indexed by the
    link names they touch, then a breadth-first search from the base link
    orients every reachable joint away from the base, places each link it
    reaches and emits the URDF joints and links. */
module Kinematics {
  import opened Geometry
  import opened Host
  import opened JointRecords
  import opened OrderedDict
  import Bodies

  /** The name the grounded occurrence is registered under. */
  const BaseName := "base_link"

  /** A joint of the URDF tree: its record's name, kind, axis and limits,
      the link it hangs from, the link it moves and its origin seen from
      the parent's link origin. */
  datatype UrdfJoint = UrdfJoint(
    name: string,
    kind: string,
    origin: Frame,
    axis: seq<real>,
    parent: string,
    child: string,
    upper: real,
    lower: real)

  /** A link of the URDF tree: its name and the frame its visual and
      collision geometry is placed by, the inverse of its link origin. */
  datatype LinkEntry = LinkEntry(name: string, visual: Frame)

  // ---------------------------------------------------------------------
  // Joints by the links they touch

  /** `occurrences[n]` after the records under keys `ks`: each key is
      appended under its parent's name, then under its child's name. */
  function Incident(d: ODict<string, JointInfo>, ks: seq<string>, n: string): seq<string>
    requires forall i :: 0 <= i < |ks| ==> ks[i] in d.m
    decreases |ks|
  {
    if |ks| == 0 then []
    else
      var p, k := ks[..|ks| - 1], ks[|ks| - 1];
      Incident(d, p, n) + (if d.m[k].parent == n then [k] else []) + (if d.m[k].child == n then [k] else [])
  }

  /** A key is listed under a link exactly when its record touches that link. */
  lemma {:induction false} IncidentMembers(d: ODict<string, JointInfo>, ks: seq<string>, n: string, k: string)
    requires forall i :: 0 <= i < |ks| ==> ks[i] in d.m
    ensures k in Incident(d, ks, n) <==> k in ks && (d.m[k].parent == n || d.m[k].child == n)
    decreases |ks|
  {
    if |ks| > 0 {
      var p := ks[..|ks| - 1];
      IncidentMembers(d, p, n, k);
      assert ks == p + [ks[|ks| - 1]];
    }
  }

  lemma IncidentStep(d: ODict<string, JointInfo>, ks: seq<string>, i: nat, n: string)
    requires i < |ks| && forall j :: 0 <= j < |ks| ==> ks[j] in d.m
    ensures Incident(d, ks[..i + 1], n)
         == Incident(d, ks[..i], n) + (if d.m[ks[i]].parent == n then [ks[i]] else [])
            + (if d.m[ks[i]].child == n then [ks[i]] else [])
  {
    assert ks[..i + 1][..i] == ks[..i];
  }

  /** The first loop of the search: the joint keys under every link name,
      parent side first, in the order of the joint records. */
  method Incidence(d: ODict<string, JointInfo>) returns (occurrences: map<string, seq<string>>)
    requires Valid(d)
    ensures forall n :: Bodies.ListAt(occurrences, n) == Incident(d, d.keys, n)
    ensures forall n :: ListsJointsOf(d, Bodies.ListAt(occurrences, n), n)
  {
    occurrences := map[];
    for i := 0 to |d.keys|
      invariant forall n :: Bodies.ListAt(occurrences, n) == Incident(d, d.keys[..i], n)
    {
      occurrences := AddIncident(d, i, occurrences);
    }
    assert d.keys[..|d.keys|] == d.keys;
    forall n
      ensures ListsJointsOf(d, Bodies.ListAt(occurrences, n), n)
    {
      IncidentLists(d, n);
    }
  }

  /** One pass of the first loop: joint key i is listed under its parent,
      then under its child. */
  method AddIncident(d: ODict<string, JointInfo>, i: nat, occurrences0: map<string, seq<string>>)
    returns (occurrences: map<string, seq<string>>)
    requires Valid(d) && i < |d.keys|
    requires forall n :: Bodies.ListAt(occurrences0, n) == Incident(d, d.keys[..i], n)
    ensures forall n :: Bodies.ListAt(occurrences, n) == Incident(d, d.keys[..i + 1], n)
  {
    var k := d.keys[i];
    var rec := d.m[k];
    occurrences := occurrences0[rec.parent := Bodies.ListAt(occurrences0, rec.parent) + [k]];
    occurrences := occurrences[rec.child := Bodies.ListAt(occurrences, rec.child) + [k]];
    forall n
      ensures Bodies.ListAt(occurrences, n) == Incident(d, d.keys[..i + 1], n)
    {
      IncidentStep(d, d.keys, i, n);
    }
  }

  // ---------------------------------------------------------------------
  // The state of the search

  /** Joint record `rec` runs between `a` and `b`, in either direction. */
  predicate Joins(rec: JointInfo, a: string, b: string) {
    (rec.parent == a && rec.child == b) || (rec.child == a && rec.parent == b)
  }

  /** The end of `rec` that is not `n`, seen from `n`: the child when `n`
      is the parent, the parent otherwise. */
  function Other(rec: JointInfo, n: string): string {
    if rec.parent == n then rec.child else rec.parent
  }

  /** The link origin a joint gives the link it reaches: the occurrence's
      own placement, moved to the joint origin unless the joint is fixed. */
  function ChildOrigin(rec: JointInfo, p: Pose): (r: Pose)
    ensures rec.kind == "fixed" ==> r == p
    ensures rec.kind != "fixed" ==> r.origin == rec.origin && r.axes == p.axes
  {
    if rec.kind != "fixed" then MovedTo(p, rec.origin) else p
  }

  /** `__add_link(occ)`: the link named after the occurrence, placed by the
      inverse of that name's link origin. */
  function AddLink(links: ODict<string, LinkEntry>, tokens: map<Token, string>, origins: map<string, Pose>, occ: Occ): (r: ODict<string, LinkEntry>)
    requires Valid(links) && occ.token in tokens && tokens[occ.token] in origins
    ensures Valid(r)
    ensures r.m == links.m[tokens[occ.token] := LinkEntry(tokens[occ.token], Inverse(origins[tokens[occ.token]]))]
  {
    var n := tokens[occ.token];
    Put(links, n, LinkEntry(n, Inverse(origins[n])))
  }

  /** URDF joint `u` was emitted for record `rec`: it copies the record's
      name, kind, axis and limits, runs between the record's two links with
      its child one level further from the base than its parent, and its
      origin relates the parent's link origin to the origin the record gives
      the child. */
  ghost predicate Emitted(u: UrdfJoint, rec: JointInfo, names: map<string, Occ>, origins: map<string, Pose>, depth: map<string, nat>) {
    && u.name == rec.name && u.kind == rec.kind && u.axis == rec.axis
    && u.upper == rec.upperLimit && u.lower == rec.lowerLimit
    && Joins(rec, u.parent, u.child)
    && u.parent in depth && u.child in depth && depth[u.child] == depth[u.parent] + 1
    && u.parent in origins && u.child in names
    && u.origin == Relative(origins[u.parent], ChildOrigin(rec, names[u.child].pose))
  }

  /** The tree grown so far. `grounded` are the links placed in earlier
      levels, `newB` those placed in the current one; `depth` is the level
      of every placed link and `via[n]` the key of the joint that last placed
      `n`. Every placed link is a named occurrence with a link origin and a
      link entry (the base at its own placement); every other placed link is
      the child of the joint that placed it, and takes the origin that joint
      gives it; every emitted joint hangs from an earlier level. */
  ghost predicate Grown(d: ODict<string, JointInfo>, names: map<string, Occ>, base: Occ,
                        grounded: set<string>, newB: set<string>, depth: map<string, nat>, via: map<string, string>,
                        origins: map<string, Pose>, joints: ODict<string, UrdfJoint>, links: ODict<string, LinkEntry>)
  {
    && Shaped(names, base, grounded, newB, depth, via, origins, joints, links)
    && Recorded(d, names, grounded, depth, via, origins, joints, links)
  }

  /** Which links are placed, and what is known of each. */
  ghost predicate Shaped(names: map<string, Occ>, base: Occ,
                         grounded: set<string>, newB: set<string>, depth: map<string, nat>, via: map<string, string>,
                         origins: map<string, Pose>, joints: ODict<string, UrdfJoint>, links: ODict<string, LinkEntry>)
  {
    && Valid(joints) && Valid(links)
    && grounded !! newB
    && depth.Keys == grounded + newB
    && links.m.Keys == depth.Keys
    && BaseName in grounded && depth[BaseName] == 0
    && via.Keys == depth.Keys - {BaseName}
    && (forall n :: n in depth ==> n in names && n in origins)
    && BaseName in origins && origins[BaseName] == base.pose
  }

  /** What the links, the placing joints and the emitted joints record. */
  ghost predicate Recorded(d: ODict<string, JointInfo>, names: map<string, Occ>,
                           grounded: set<string>, depth: map<string, nat>, via: map<string, string>,
                           origins: map<string, Pose>, joints: ODict<string, UrdfJoint>, links: ODict<string, LinkEntry>)
  {
    && (forall n :: n in links.m && n in origins ==> links.m[n] == LinkEntry(n, Inverse(origins[n])))
    && (forall n {:trigger via[n]} :: n in via && n in names && n in origins ==>
          && via[n] in joints.m && via[n] in d.m && joints.m[via[n]].child == n
          && origins[n] == ChildOrigin(d.m[via[n]], names[n].pose))
    && (forall k :: k in joints.m ==>
          && k in d.m && joints.m[k].parent in grounded
          && Emitted(joints.m[k], d.m[k], names, origins, depth))
  }

  /** The level structure: the boundary is the last level placed, the new
      links are one level further, and nothing placed is further than that. */
  ghost predicate Levels(depth: map<string, nat>, grounded: set<string>, boundary: set<string>, newB: set<string>, level: nat) {
    && boundary <= grounded
    && (forall n :: n in grounded ==> n in depth && depth[n] <= level)
    && (forall n :: n in boundary ==> n in depth && depth[n] == level)
    && (forall n :: n in newB ==> n in depth && depth[n] == level + 1)
  }

  /** The state of the search inside a level. */
  ghost predicate Searching(d: ODict<string, JointInfo>, names: map<string, Occ>, base: Occ,
                            grounded: set<string>, boundary: set<string>, newB: set<string>,
                            depth: map<string, nat>, via: map<string, string>,
                            origins: map<string, Pose>, joints: ODict<string, UrdfJoint>, links: ODict<string, LinkEntry>, level: nat)
  {
    Grown(d, names, base, grounded, newB, depth, via, origins, joints, links) && Levels(depth, grounded, boundary, newB, level)
  }

  /** The state at the start of a level: the tree so far, with `boundary`
      the last level, and every joint touching an earlier level leading
      into the tree. */
  ghost predicate LevelReady(d: ODict<string, JointInfo>, names: map<string, Occ>, base: Occ,
                             grounded: set<string>, boundary: set<string>,
                             depth: map<string, nat>, via: map<string, string>,
                             origins: map<string, Pose>, joints: ODict<string, UrdfJoint>, links: ODict<string, LinkEntry>, level: nat)
  {
    && Searching(d, names, base, grounded, boundary, {}, depth, via, origins, joints, links, level)
    && Closed(d, grounded - boundary, grounded)
  }

  /** Every joint with an end in `p` has its other end in `s`. */
  ghost predicate Closed(d: ODict<string, JointInfo>, p: set<string>, s: set<string>) {
    forall k :: k in d.m ==> (d.m[k].parent in p ==> d.m[k].child in s) && (d.m[k].child in p ==> d.m[k].parent in s)
  }

  /** The joint records of `d` name their keys and touch named links, and the
      names and tokens correspond. */
  ghost predicate Indexed(d: ODict<string, JointInfo>, names: map<string, Occ>, tokens: map<Token, string>) {
    && Valid(d)
    && (forall k :: k in d.m ==> d.m[k].name == k && d.m[k].parent in names && d.m[k].child in names)
    && (forall n :: n in names ==> names[n].token in tokens && tokens[names[n].token] == n)
  }

  /** What the search needs of one joint record: it is stored under its
      own name, and both its ends are named links whose tokens map back to
      those names. */
  ghost predicate KeyKnown(d: ODict<string, JointInfo>, names: map<string, Occ>, tokens: map<Token, string>, key: string) {
    && key in d.m && d.m[key].name == key
    && d.m[key].parent in names && names[d.m[key].parent].token in tokens && tokens[names[d.m[key].parent].token] == d.m[key].parent
    && d.m[key].child in names && names[d.m[key].child].token in tokens && tokens[names[d.m[key].child].token] == d.m[key].child
  }

  // ---------------------------------------------------------------------
  // The search

  /** One joint key from the list of `occName`: skipped when the link across
      it is already grounded; otherwise that link joins the new boundary,
      gets its link origin, and the joint and the link are emitted. */
  method Visit(d: ODict<string, JointInfo>, names: map<string, Occ>, tokens: map<Token, string>, base: Occ,
               grounded: set<string>, ghost boundary: set<string>, occName: string, key: string,
               newB: set<string>, origins: map<string, Pose>, joints: ODict<string, UrdfJoint>, links: ODict<string, LinkEntry>,
               ghost depth: map<string, nat>, ghost via: map<string, string>, ghost level: nat)
    returns (newB': set<string>, origins': map<string, Pose>, joints': ODict<string, UrdfJoint>, links': ODict<string, LinkEntry>,
             ghost depth': map<string, nat>, ghost via': map<string, string>)
    requires KeyKnown(d, names, tokens, key)
    requires Searching(d, names, base, grounded, boundary, newB, depth, via, origins, joints, links, level)
    requires occName in boundary && key in d.m && (d.m[key].parent == occName || d.m[key].child == occName)
    ensures Searching(d, names, base, grounded, boundary, newB', depth', via', origins', joints', links', level)
    ensures newB <= newB' && Other(d.m[key], occName) in grounded + newB'
  {
    newB', origins', joints', links', depth', via' := newB, origins, joints, links, depth, via;
    var joint := d.m[key];
    // A joint whose far end is already grounded is passed over.
    var childName: string, skip: bool;
    if joint.parent == occName {
      childName := joint.child;
      skip := childName in grounded;
    } else {
      childName := joint.parent;
      skip := joint.parent in grounded;
    }
    if !skip {
      newB', origins', joints', links', depth', via' :=
        Place(d, names, tokens, base, grounded, boundary, occName, key, childName, newB, origins, joints, links, depth, via, level);
      VisitKeeps(d, names, base, grounded, boundary, occName, key, childName, level, newB, depth, via, origins, joints, links,
                 newB', depth', via', origins', joints', links');
    }
  }

  /** Placing link `childName`, reached across joint `key` from `occName`:
      it joins the new boundary and gets its link origin, and the joint and
      the link are emitted. */
  method Place(d: ODict<string, JointInfo>, names: map<string, Occ>, tokens: map<Token, string>, base: Occ,
               grounded: set<string>, ghost boundary: set<string>, occName: string, key: string, childName: string,
               newB: set<string>, origins: map<string, Pose>, joints: ODict<string, UrdfJoint>, links: ODict<string, LinkEntry>,
               ghost depth: map<string, nat>, ghost via: map<string, string>, ghost level: nat)
    returns (newB': set<string>, origins': map<string, Pose>, joints': ODict<string, UrdfJoint>, links': ODict<string, LinkEntry>,
             ghost depth': map<string, nat>, ghost via': map<string, string>)
    requires KeyKnown(d, names, tokens, key) && occName in origins && Valid(joints) && Valid(links)
    requires d.m[key].parent == occName || d.m[key].child == occName
    requires childName == Other(d.m[key], occName) && childName !in grounded
    ensures Placed(d, names, grounded, occName, key, childName, level, newB, depth, via, origins, joints, links,
                   newB', depth', via', origins', joints', links')
  {
    var joint := d.m[key];
    newB' := newB + {childName};
    var childOrigin := names[childName].pose;
    var parentOrigin := origins[occName];
    if joint.kind != "fixed" {
      childOrigin := MovedTo(childOrigin, joint.origin);
    }
    origins' := origins[childName := childOrigin];
    joints' := Put(joints, joint.name, UrdfJoint(joint.name, joint.kind, Relative(parentOrigin, childOrigin), joint.axis,
                                                 occName, childName, joint.upperLimit, joint.lowerLimit));
    links' := AddLink(links, tokens, origins', names[childName]);
    depth' := depth[childName := level + 1];
    via' := via[childName := key];
  }

  /** The state after placing link `c` across joint `key` from `occName`. */
  ghost predicate Placed(d: ODict<string, JointInfo>, names: map<string, Occ>, grounded: set<string>,
                         occName: string, key: string, c: string, level: nat,
                         newB: set<string>, depth: map<string, nat>, via: map<string, string>,
                         origins: map<string, Pose>, joints: ODict<string, UrdfJoint>, links: ODict<string, LinkEntry>,
                         newB': set<string>, depth': map<string, nat>, via': map<string, string>,
                         origins': map<string, Pose>, joints': ODict<string, UrdfJoint>, links': ODict<string, LinkEntry>)
  {
    && key in d.m && (d.m[key].parent == occName || d.m[key].child == occName)
    && c == Other(d.m[key], occName) && c !in grounded && c in names && occName in origins
    && origins' == origins[c := ChildOrigin(d.m[key], names[c].pose)]
    && Valid(joints') && joints'.m == joints.m[key := UrdfJoint(key, d.m[key].kind, Relative(origins[occName], origins'[c]),
                                                            d.m[key].axis, occName, c, d.m[key].upperLimit, d.m[key].lowerLimit)]
    && Valid(links') && links'.m == links.m[c := LinkEntry(c, Inverse(origins'[c]))]
    && newB' == newB + {c} && depth' == depth[c := level + 1] && via' == via[c := key]
  }

  lemma VisitVia(d: ODict<string, JointInfo>, names: map<string, Occ>, base: Occ,
                   grounded: set<string>, boundary: set<string>, occName: string, key: string, c: string, level: nat,
                   newB: set<string>, depth: map<string, nat>, via: map<string, string>,
                   origins: map<string, Pose>, joints: ODict<string, UrdfJoint>, links: ODict<string, LinkEntry>,
                   newB': set<string>, depth': map<string, nat>, via': map<string, string>,
                   origins': map<string, Pose>, joints': ODict<string, UrdfJoint>, links': ODict<string, LinkEntry>)
    requires Shaped(names, base, grounded, newB, depth, via, origins, joints, links)
    requires Recorded(d, names, grounded, depth, via, origins, joints, links)
    requires Placed(d, names, grounded, occName, key, c, level, newB, depth, via, origins, joints, links,
                    newB', depth', via', origins', joints', links')
    requires d.m[key].name == key
    ensures forall n :: n in via' ==>
              && via'[n] in joints'.m && via'[n] in d.m && joints'.m[via'[n]].child == n
              && origins'[n] == ChildOrigin(d.m[via'[n]], names[n].pose)
  {
    forall n | n in via'
      ensures via'[n] in joints'.m && via'[n] in d.m && joints'.m[via'[n]].child == n
      ensures origins'[n] == ChildOrigin(d.m[via'[n]], names[n].pose)
    {
      if n != c {
        var k := via[n];
        var u := joints.m[k];
        assert Emitted(u, d.m[k], names, origins, depth) && u.parent in grounded && u.child == n;
        if k == key {
          // The joint that placed n runs between u.parent and n, and c is one of them.
          OtherEnd(d.m[key], occName, u.parent, n);
          assert false;
        }
      }
    }
  }

  lemma VisitJoints(d: ODict<string, JointInfo>, names: map<string, Occ>, base: Occ,
                   grounded: set<string>, boundary: set<string>, occName: string, key: string, c: string, level: nat,
                   newB: set<string>, depth: map<string, nat>, via: map<string, string>,
                   origins: map<string, Pose>, joints: ODict<string, UrdfJoint>, links: ODict<string, LinkEntry>,
                   newB': set<string>, depth': map<string, nat>, via': map<string, string>,
                   origins': map<string, Pose>, joints': ODict<string, UrdfJoint>, links': ODict<string, LinkEntry>)
    requires Shaped(names, base, grounded, newB, depth, via, origins, joints, links)
    requires Recorded(d, names, grounded, depth, via, origins, joints, links)
    requires Levels(depth, grounded, boundary, newB, level) && occName in boundary
    requires Placed(d, names, grounded, occName, key, c, level, newB, depth, via, origins, joints, links,
                    newB', depth', via', origins', joints', links')
    requires d.m[key].name == key
    ensures forall k :: k in joints'.m ==>
              && k in d.m && joints'.m[k].parent in grounded
              && Emitted(joints'.m[k], d.m[k], names, origins', depth')
  {
    forall k | k in joints'.m
      ensures k in d.m && joints'.m[k].parent in grounded
      ensures Emitted(joints'.m[k], d.m[k], names, origins', depth')
    {
      if k != key {
        var u := joints.m[k];
        assert Emitted(u, d.m[k], names, origins, depth);
        assert u.parent in grounded;
        assert u.child == c ==> depth[c] == level + 1;
      } else {
        assert occName in depth && depth'[occName] == level;
      }
    }
  }

  lemma VisitLinks(d: ODict<string, JointInfo>, names: map<string, Occ>, base: Occ,
                   grounded: set<string>, boundary: set<string>, occName: string, key: string, c: string, level: nat,
                   newB: set<string>, depth: map<string, nat>, via: map<string, string>,
                   origins: map<string, Pose>, joints: ODict<string, UrdfJoint>, links: ODict<string, LinkEntry>,
                   newB': set<string>, depth': map<string, nat>, via': map<string, string>,
                   origins': map<string, Pose>, joints': ODict<string, UrdfJoint>, links': ODict<string, LinkEntry>)
    requires Shaped(names, base, grounded, newB, depth, via, origins, joints, links)
    requires Recorded(d, names, grounded, depth, via, origins, joints, links)
    requires Placed(d, names, grounded, occName, key, c, level, newB, depth, via, origins, joints, links,
                    newB', depth', via', origins', joints', links')
    ensures forall n :: n in links'.m ==> links'.m[n] == LinkEntry(n, Inverse(origins'[n]))
  {
    forall n | n in links'.m
      ensures links'.m[n] == LinkEntry(n, Inverse(origins'[n]))
    {
      if n != c {
        assert links'.m[n] == links.m[n] && origins'[n] == origins[n];
      }
    }
  }

  lemma VisitLevels(d: ODict<string, JointInfo>, names: map<string, Occ>, base: Occ,
                   grounded: set<string>, boundary: set<string>, occName: string, key: string, c: string, level: nat,
                   newB: set<string>, depth: map<string, nat>, via: map<string, string>,
                   origins: map<string, Pose>, joints: ODict<string, UrdfJoint>, links: ODict<string, LinkEntry>,
                   newB': set<string>, depth': map<string, nat>, via': map<string, string>,
                   origins': map<string, Pose>, joints': ODict<string, UrdfJoint>, links': ODict<string, LinkEntry>)
    requires Levels(depth, grounded, boundary, newB, level) && occName in boundary
    requires Placed(d, names, grounded, occName, key, c, level, newB, depth, via, origins, joints, links,
                    newB', depth', via', origins', joints', links')
    ensures Levels(depth', grounded, boundary, newB', level)
  {
    forall n | n in grounded
      ensures n in depth' && depth'[n] <= level
    {
      assert n != c && depth'[n] == depth[n];
    }
    forall n | n in newB'
      ensures n in depth' && depth'[n] == level + 1
    {
      if n != c {
        assert n in newB && depth'[n] == depth[n];
      }
    }
  }

  lemma VisitShape(d: ODict<string, JointInfo>, names: map<string, Occ>, base: Occ,
                   grounded: set<string>, boundary: set<string>, occName: string, key: string, c: string, level: nat,
                   newB: set<string>, depth: map<string, nat>, via: map<string, string>,
                   origins: map<string, Pose>, joints: ODict<string, UrdfJoint>, links: ODict<string, LinkEntry>,
                   newB': set<string>, depth': map<string, nat>, via': map<string, string>,
                   origins': map<string, Pose>, joints': ODict<string, UrdfJoint>, links': ODict<string, LinkEntry>)
    requires Shaped(names, base, grounded, newB, depth, via, origins, joints, links)
    requires Placed(d, names, grounded, occName, key, c, level, newB, depth, via, origins, joints, links,
                    newB', depth', via', origins', joints', links')
    ensures Shaped(names, base, grounded, newB', depth', via', origins', joints', links')
  {
    assert depth'.Keys == grounded + newB';
    assert links'.m.Keys == depth'.Keys;
    assert via'.Keys == depth'.Keys - {BaseName};
    assert forall n :: n in depth' ==> n in names && n in origins';
  }

  lemma VisitRecorded(d: ODict<string, JointInfo>, names: map<string, Occ>, base: Occ,
                   grounded: set<string>, boundary: set<string>, occName: string, key: string, c: string, level: nat,
                   newB: set<string>, depth: map<string, nat>, via: map<string, string>,
                   origins: map<string, Pose>, joints: ODict<string, UrdfJoint>, links: ODict<string, LinkEntry>,
                   newB': set<string>, depth': map<string, nat>, via': map<string, string>,
                   origins': map<string, Pose>, joints': ODict<string, UrdfJoint>, links': ODict<string, LinkEntry>)
    requires Grown(d, names, base, grounded, newB, depth, via, origins, joints, links)
    requires Levels(depth, grounded, boundary, newB, level) && occName in boundary
    requires Placed(d, names, grounded, occName, key, c, level, newB, depth, via, origins, joints, links,
                    newB', depth', via', origins', joints', links')
    requires d.m[key].name == key
    ensures Recorded(d, names, grounded, depth', via', origins', joints', links')
  {
    VisitVia(d, names, base, grounded, boundary, occName, key, c, level, newB, depth, via, origins, joints, links,
             newB', depth', via', origins', joints', links');
    VisitJoints(d, names, base, grounded, boundary, occName, key, c, level, newB, depth, via, origins, joints, links,
                newB', depth', via', origins', joints', links');
    VisitLinks(d, names, base, grounded, boundary, occName, key, c, level, newB, depth, via, origins, joints, links,
               newB', depth', via', origins', joints', links');
  }

  /** Placing the link across one joint keeps the tree and the levels. */
  lemma VisitKeeps(d: ODict<string, JointInfo>, names: map<string, Occ>, base: Occ,
                   grounded: set<string>, boundary: set<string>, occName: string, key: string, c: string, level: nat,
                   newB: set<string>, depth: map<string, nat>, via: map<string, string>,
                   origins: map<string, Pose>, joints: ODict<string, UrdfJoint>, links: ODict<string, LinkEntry>,
                   newB': set<string>, depth': map<string, nat>, via': map<string, string>,
                   origins': map<string, Pose>, joints': ODict<string, UrdfJoint>, links': ODict<string, LinkEntry>)
    requires Grown(d, names, base, grounded, newB, depth, via, origins, joints, links)
    requires Levels(depth, grounded, boundary, newB, level) && occName in boundary
    requires Placed(d, names, grounded, occName, key, c, level, newB, depth, via, origins, joints, links,
                    newB', depth', via', origins', joints', links')
    requires d.m[key].name == key
    ensures Grown(d, names, base, grounded, newB', depth', via', origins', joints', links')
    ensures Levels(depth', grounded, boundary, newB', level)
  {
    VisitShape(d, names, base, grounded, boundary, occName, key, c, level, newB, depth, via, origins, joints, links,
               newB', depth', via', origins', joints', links');
    VisitRecorded(d, names, base, grounded, boundary, occName, key, c, level, newB, depth, via, origins, joints, links,
                  newB', depth', via', origins', joints', links');
    VisitLevels(d, names, base, grounded, boundary, occName, key, c, level, newB, depth, via, origins, joints, links,
                newB', depth', via', origins', joints', links');
  }

  /** The joint keys of `adj` are exactly those of the records touching `n`. */
  ghost predicate ListsJointsOf(d: ODict<string, JointInfo>, adj: seq<string>, n: string) {
    && (forall q :: 0 <= q < |adj| ==> adj[q] in d.m && (d.m[adj[q]].parent == n || d.m[adj[q]].child == n))
    && (forall k :: k in d.m && (d.m[k].parent == n || d.m[k].child == n) ==> k in adj)
  }

  /** The list `Incidence` files under a link name lists the joints touching it. */
  lemma IncidentLists(d: ODict<string, JointInfo>, n: string)
    requires Valid(d)
    ensures ListsJointsOf(d, Incident(d, d.keys, n), n)
  {
    var adj := Incident(d, d.keys, n);
    forall q | 0 <= q < |adj|
      ensures adj[q] in d.m && (d.m[adj[q]].parent == n || d.m[adj[q]].child == n)
    {
      IncidentMembers(d, d.keys, n, adj[q]);
    }
    forall k | k in d.m && (d.m[k].parent == n || d.m[k].child == n)
      ensures k in adj
    {
      IncidentMembers(d, d.keys, n, k);
    }
  }

  /** Once every listed joint has been looked at, every joint touching `n`
      leads into `s`. */
  lemma NodeDone(d: ODict<string, JointInfo>, adj: seq<string>, n: string, s: set<string>)
    requires ListsJointsOf(d, adj, n) && n in s
    requires forall q :: 0 <= q < |adj| ==> Other(d.m[adj[q]], n) in s
    ensures Closed(d, {n}, s)
  {
    forall k | k in d.m
      ensures (d.m[k].parent in {n} ==> d.m[k].child in s) && (d.m[k].child in {n} ==> d.m[k].parent in s)
    {
      if d.m[k].parent == n || d.m[k].child == n {
        var q :| 0 <= q < |adj| && adj[q] == k;
      }
    }
  }

  /** Closing one more link of the boundary. */
  lemma ClosedStep(d: ODict<string, JointInfo>, grounded: set<string>, left: set<string>, s: set<string>, s': set<string>, n: string)
    requires Closed(d, grounded - left, s) && s <= s' && Closed(d, {n}, s') && n in grounded
    ensures Closed(d, grounded - (left - {n}), s')
  {
    assert grounded - (left - {n}) == (grounded - left) + {n};
  }

  /** Seen from either of its ends, the far end of a joint is one of its ends. */
  lemma OtherEnd(rec: JointInfo, n: string, a: string, b: string)
    requires rec.parent == n || rec.child == n
    requires Joins(rec, a, b)
    ensures Other(rec, n) == a || Other(rec, n) == b
  {
  }

  /** Growing the set of placed links keeps the joints already looked at leading into it. */
  lemma SeenMore(d: ODict<string, JointInfo>, adj: seq<string>, n: string, q: nat, s: set<string>, s': set<string>)
    requires q < |adj| && ListsJointsOf(d, adj, n) && s <= s'
    requires forall q' :: 0 <= q' < q ==> Other(d.m[adj[q']], n) in s
    requires Other(d.m[adj[q]], n) in s'
    ensures forall q' :: 0 <= q' < q + 1 ==> Other(d.m[adj[q']], n) in s'
  {
  }

  /** The loop over the joints of one boundary link. */
  method ExpandNode(d: ODict<string, JointInfo>, names: map<string, Occ>, tokens: map<Token, string>, base: Occ,
                    grounded: set<string>, ghost boundary: set<string>, occName: string, adj: seq<string>,
                    newB: set<string>, origins: map<string, Pose>, joints: ODict<string, UrdfJoint>, links: ODict<string, LinkEntry>,
                    ghost depth: map<string, nat>, ghost via: map<string, string>, ghost level: nat)
    returns (newB': set<string>, origins': map<string, Pose>, joints': ODict<string, UrdfJoint>, links': ODict<string, LinkEntry>,
             ghost depth': map<string, nat>, ghost via': map<string, string>)
    requires Indexed(d, names, tokens)
    requires Searching(d, names, base, grounded, boundary, newB, depth, via, origins, joints, links, level)
    requires occName in boundary && ListsJointsOf(d, adj, occName)
    ensures Searching(d, names, base, grounded, boundary, newB', depth', via', origins', joints', links', level)
    ensures newB <= newB' && Closed(d, {occName}, grounded + newB')
  {
    newB', origins', joints', links', depth', via' := newB, origins, joints, links, depth, via;
    for q := 0 to |adj|
      invariant Searching(d, names, base, grounded, boundary, newB', depth', via', origins', joints', links', level)
      invariant newB <= newB'
      invariant forall q' :: 0 <= q' < q ==> Other(d.m[adj[q']], occName) in grounded + newB'
    {
      ghost var before := newB';
      newB', origins', joints', links', depth', via' :=
        Visit(d, names, tokens, base, grounded, boundary, occName, adj[q], newB', origins', joints', links', depth', via', level);
      SeenMore(d, adj, occName, q, grounded + before, grounded + newB');
    }
    NodeDone(d, adj, occName, grounded + newB');
  }

  /** The loop over one level: every boundary link, in an order the source
      leaves to the set, has its joints looked at. */
  method ExpandLevel(d: ODict<string, JointInfo>, names: map<string, Occ>, tokens: map<Token, string>, base: Occ,
                     grounded: set<string>, boundary: set<string>, occurrences: map<string, seq<string>>,
                     origins: map<string, Pose>, joints: ODict<string, UrdfJoint>, links: ODict<string, LinkEntry>,
                     ghost depth: map<string, nat>, ghost via: map<string, string>, ghost level: nat)
    returns (newB: set<string>, origins': map<string, Pose>, joints': ODict<string, UrdfJoint>, links': ODict<string, LinkEntry>,
             ghost depth': map<string, nat>, ghost via': map<string, string>)
    requires Indexed(d, names, tokens)
    requires forall n :: ListsJointsOf(d, Bodies.ListAt(occurrences, n), n)
    requires LevelReady(d, names, base, grounded, boundary, depth, via, origins, joints, links, level)
    ensures Searching(d, names, base, grounded, boundary, newB, depth', via', origins', joints', links', level)
    ensures Closed(d, grounded, grounded + newB)
  {
    newB, origins', joints', links', depth', via' := {}, origins, joints, links, depth, via;
    var left := boundary;
    while left != {}
      invariant left <= boundary
      invariant Searching(d, names, base, grounded, boundary, newB, depth', via', origins', joints', links', level)
      invariant Closed(d, grounded - left, grounded + newB)
      decreases left
    {
      var occName :| occName in left;
      var adj := Bodies.ListAt(occurrences, occName);
      ghost var before := newB;
      newB, origins', joints', links', depth', via' :=
        ExpandNode(d, names, tokens, base, grounded, boundary, occName, adj, newB, origins', joints', links', depth', via', level);
      ClosedStep(d, grounded, left, grounded + before, grounded + newB, occName);
      left := left - {occName};
    }
  }

  /** |a - (g + n)| < |a - g| when n is a non-empty part of a - g. */
  lemma CardShrink(a: set<string>, g: set<string>, n: set<string>)
    requires n != {} && n <= a - g
    ensures |a - (g + n)| < |a - g|
  {
    assert a - g == (a - (g + n)) + n;
    assert (a - (g + n)) * n == {};
  }

  /** A finished level becomes the new boundary, and the links still to be
      placed are fewer unless the level placed nothing. */
  lemma LevelDone(d: ODict<string, JointInfo>, names: map<string, Occ>, base: Occ,
                  grounded: set<string>, boundary: set<string>, newB: set<string>,
                  depth: map<string, nat>, via: map<string, string>,
                  origins: map<string, Pose>, joints: ODict<string, UrdfJoint>, links: ODict<string, LinkEntry>, level: nat)
    requires Searching(d, names, base, grounded, boundary, newB, depth, via, origins, joints, links, level)
    requires Closed(d, grounded, grounded + newB)
    ensures LevelReady(d, names, base, grounded + newB, newB, depth, via, origins, joints, links, level + 1)
    ensures newB != {} ==> |names.Keys - (grounded + newB)| < |names.Keys - grounded|
    ensures newB == {} ==> grounded + newB == grounded
  {
    assert (grounded + newB) - newB == grounded;
    assert grounded + newB + {} == grounded + newB;
    if newB != {} {
      CardShrink(names.Keys, grounded, newB);
    }
  }

  /** The search starts with the base link alone, at its own placement. */
  lemma SearchStart(d: ODict<string, JointInfo>, names: map<string, Occ>, base: Occ,
                    origins: map<string, Pose>, links: ODict<string, LinkEntry>)
    requires BaseName in names && origins == map[BaseName := base.pose]
    requires Valid(links) && links.m == map[BaseName := LinkEntry(BaseName, Inverse(base.pose))]
    ensures LevelReady(d, names, base, {BaseName}, {BaseName}, map[BaseName := 0], map[], origins, Empty(), links, 0)
  {
    assert {BaseName} - {BaseName} == {};
  }

  /** The breadth-first search of `_build`, from the base link: links are
      placed level by level until a level places nothing new. */
  method Search(d: ODict<string, JointInfo>, names: map<string, Occ>, tokens: map<Token, string>, base: Occ)
    returns (grounded: set<string>, origins: map<string, Pose>, joints: ODict<string, UrdfJoint>, links: ODict<string, LinkEntry>,
             ghost depth: map<string, nat>, ghost via: map<string, string>)
    requires Indexed(d, names, tokens)
    requires BaseName in names && names[BaseName] == base
    ensures Grown(d, names, base, grounded, {}, depth, via, origins, joints, links)
    ensures Closed(d, grounded, grounded)
  {
    var occurrences := Incidence(d);
    grounded := {BaseName};
    origins := map[BaseName := base.pose];
    links := AddLink(Empty(), tokens, origins, base);
    joints := Empty();
    depth, via := map[BaseName := 0], map[];
    SearchStart(d, names, base, origins, links);
    grounded, origins, joints, links, depth, via := Grow(d, names, tokens, base, occurrences, grounded, origins, joints, links, depth, via);
  }

  /** One pass of the level loop: the new links become grounded and form
      the next boundary. */
  method NextLevel(d: ODict<string, JointInfo>, names: map<string, Occ>, tokens: map<Token, string>, base: Occ,
                   grounded: set<string>, boundary: set<string>, occurrences: map<string, seq<string>>,
                   origins: map<string, Pose>, joints: ODict<string, UrdfJoint>, links: ODict<string, LinkEntry>,
                   ghost depth: map<string, nat>, ghost via: map<string, string>, ghost level: nat)
    returns (grounded': set<string>, boundary': set<string>,
             origins': map<string, Pose>, joints': ODict<string, UrdfJoint>, links': ODict<string, LinkEntry>,
             ghost depth': map<string, nat>, ghost via': map<string, string>)
    requires Indexed(d, names, tokens)
    requires forall n :: ListsJointsOf(d, Bodies.ListAt(occurrences, n), n)
    requires LevelReady(d, names, base, grounded, boundary, depth, via, origins, joints, links, level)
    ensures LevelReady(d, names, base, grounded', boundary', depth', via', origins', joints', links', level + 1)
    ensures |names.Keys - grounded'| < |names.Keys - grounded| || (grounded' == grounded && boundary' == {})
  {
    var newB;
    newB, origins', joints', links', depth', via' :=
      ExpandLevel(d, names, tokens, base, grounded, boundary, occurrences, origins, joints, links, depth, via, level);
    LevelDone(d, names, base, grounded, boundary, newB, depth', via', origins', joints', links', level);
    // grounded_occ.update(new_boundary); boundary = new_boundary
    grounded' := grounded + newB;
    boundary' := newB;
  }

  /** The level loop of the search. */
  method Grow(d: ODict<string, JointInfo>, names: map<string, Occ>, tokens: map<Token, string>, base: Occ,
              occurrences: map<string, seq<string>>, grounded0: set<string>,
              origins0: map<string, Pose>, joints0: ODict<string, UrdfJoint>, links0: ODict<string, LinkEntry>,
              ghost depth0: map<string, nat>, ghost via0: map<string, string>)
    returns (grounded: set<string>, origins: map<string, Pose>, joints: ODict<string, UrdfJoint>, links: ODict<string, LinkEntry>,
             ghost depth: map<string, nat>, ghost via: map<string, string>)
    requires Indexed(d, names, tokens)
    requires forall n :: ListsJointsOf(d, Bodies.ListAt(occurrences, n), n)
    requires LevelReady(d, names, base, grounded0, grounded0, depth0, via0, origins0, joints0, links0, 0)
    ensures Grown(d, names, base, grounded, {}, depth, via, origins, joints, links)
    ensures Closed(d, grounded, grounded)
  {
    grounded, origins, joints, links, depth, via := grounded0, origins0, joints0, links0, depth0, via0;
    var boundary := grounded;
    ghost var level := 0;
    while boundary != {}
      invariant LevelReady(d, names, base, grounded, boundary, depth, via, origins, joints, links, level)
      decreases |names.Keys - grounded|, |boundary|
    {
      grounded, boundary, origins, joints, links, depth, via :=
        NextLevel(d, names, tokens, base, grounded, boundary, occurrences, origins, joints, links, depth, via, level);
      level := level + 1;
    }
    SearchDone(d, names, base, grounded, depth, via, origins, joints, links, level);
  }

  /** When a level places nothing, the tree is closed under the joints. */
  lemma SearchDone(d: ODict<string, JointInfo>, names: map<string, Occ>, base: Occ, grounded: set<string>,
                   depth: map<string, nat>, via: map<string, string>,
                   origins: map<string, Pose>, joints: ODict<string, UrdfJoint>, links: ODict<string, LinkEntry>, level: nat)
    requires LevelReady(d, names, base, grounded, {}, depth, via, origins, joints, links, level)
    ensures Grown(d, names, base, grounded, {}, depth, via, origins, joints, links)
    ensures Closed(d, grounded, grounded)
  {
    assert grounded - {} == grounded;
  }

  // ---------------------------------------------------------------------
  // What the search finds

  /** `ks` are emitted joints leading from link `a` down to link `b`, each
      hanging from the link the previous one moves. */
  ghost predicate Chain(joints: ODict<string, UrdfJoint>, ks: seq<string>, a: string, b: string) {
    && (forall i :: 0 <= i < |ks| ==> ks[i] in joints.m)
    && (|ks| == 0 ==> a == b)
    && (|ks| > 0 ==>
          && joints.m[ks[0]].parent == a && joints.m[ks[|ks| - 1]].child == b
          && forall i :: 0 <= i < |ks| - 1 ==> joints.m[ks[i]].child == joints.m[ks[i + 1]].parent)
  }

  /** The shape of the emitted tree: each grounded link other than the base
      is the child of the joint that placed it, which hangs from a grounded
      link one level up. */
  ghost predicate Hangs(grounded: set<string>, depth: map<string, nat>, via: map<string, string>, joints: ODict<string, UrdfJoint>) {
    && depth.Keys == grounded
    && BaseName in grounded && depth[BaseName] == 0
    && forall n | n in grounded && n != BaseName ::
         && n in via && via[n] in joints.m && joints.m[via[n]].child == n
         && joints.m[via[n]].parent in grounded && depth[joints.m[via[n]].parent] + 1 == depth[n]
  }

  lemma GrownHangs(d: ODict<string, JointInfo>, names: map<string, Occ>, base: Occ, grounded: set<string>,
                   depth: map<string, nat>, via: map<string, string>,
                   origins: map<string, Pose>, joints: ODict<string, UrdfJoint>, links: ODict<string, LinkEntry>)
    requires Grown(d, names, base, grounded, {}, depth, via, origins, joints, links)
    ensures Hangs(grounded, depth, via, joints)
  {
    forall n | n in grounded && n != BaseName
      ensures && n in via && via[n] in joints.m && joints.m[via[n]].child == n
              && joints.m[via[n]].parent in grounded && depth[joints.m[via[n]].parent] + 1 == depth[n]
    {
      assert Emitted(joints.m[via[n]], d.m[via[n]], names, origins, depth);
    }
  }

  /** The emitted joints from the base link down to a grounded link `n`:
      one per level, so as many as `n`'s level. */
  ghost function PathTo(grounded: set<string>, depth: map<string, nat>, via: map<string, string>,
                        joints: ODict<string, UrdfJoint>, n: string): (ks: seq<string>)
    requires Hangs(grounded, depth, via, joints) && n in grounded
    ensures |ks| == depth[n]
    ensures Chain(joints, ks, BaseName, n)
    decreases depth[n]
  {
    if n == BaseName then []
    else
      var k := via[n];
      PathTo(grounded, depth, via, joints, joints.m[k].parent) + [k]
  }

  /** `ks` is a walk over the joint records through the links `ns`, each
      joint crossed in either direction. */
  ghost predicate Route(d: ODict<string, JointInfo>, ks: seq<string>, ns: seq<string>) {
    |ns| == |ks| + 1 && forall i :: 0 <= i < |ks| ==> ks[i] in d.m && Joins(d.m[ks[i]], ns[i], ns[i + 1])
  }

  /** A set of links closed under the joints holds every link a walk from
      one of its links reaches. */
  lemma {:induction false} ClosedReaches(d: ODict<string, JointInfo>, g: set<string>, ks: seq<string>, ns: seq<string>)
    requires Closed(d, g, g) && Route(d, ks, ns) && ns[0] in g
    ensures ns[|ns| - 1] in g
    decreases |ks|
  {
    if |ks| > 0 {
      var ks', ns' := ks[..|ks| - 1], ns[..|ns| - 1];
      assert Route(d, ks', ns') by {
        forall i | 0 <= i < |ks'|
          ensures ks'[i] in d.m && Joins(d.m[ks'[i]], ns'[i], ns'[i + 1])
        {
          assert ks'[i] == ks[i] && ns'[i] == ns[i] && ns'[i + 1] == ns[i + 1];
        }
      }
      ClosedReaches(d, g, ks', ns');
      var k := ks[|ks| - 1];
      assert Joins(d.m[k], ns[|ns| - 2], ns[|ns| - 1]);
    }
  }

  /** The search places exactly the links reachable from the base link:
      every link a walk over the joint records reaches from the base is
      grounded, and every grounded link hangs from the base by a chain of
      emitted joints, one per level. */
  lemma SearchReach(d: ODict<string, JointInfo>, names: map<string, Occ>, base: Occ, grounded: set<string>,
                    depth: map<string, nat>, via: map<string, string>,
                    origins: map<string, Pose>, joints: ODict<string, UrdfJoint>, links: ODict<string, LinkEntry>,
                    ks: seq<string>, ns: seq<string>, n: string)
    requires Grown(d, names, base, grounded, {}, depth, via, origins, joints, links) && Closed(d, grounded, grounded)
    ensures Route(d, ks, ns) && ns[0] == BaseName ==> ns[|ns| - 1] in grounded
    ensures Hangs(grounded, depth, via, joints)
    ensures n in grounded ==> Chain(joints, PathTo(grounded, depth, via, joints, n), BaseName, n)
  {
    GrownHangs(d, names, base, grounded, depth, via, origins, joints, links);
    if Route(d, ks, ns) && ns[0] == BaseName {
      ClosedReaches(d, grounded, ks, ns);
    }
  }
}
