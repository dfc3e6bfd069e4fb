/** The joint records of the resolver (`JointInfo`) and the pure decisions
    `Configurator._joints` takes for each host joint: the health and
    readability filter, the kind table, the origins of both sides, the
    parent/child order flag, the coincidence check and the limits. */
module JointRecords {
  import opened Wrappers
  import opened Geometry
  import opened Host

  /** `JointInfo`: a resolved joint between two named links. */
  datatype JointInfo = JointInfo(
    name: string,
    parent: string,
    child: string,
    kind: string,
    origin: Point3,
    axis: seq<real>,
    upperLimit: real,
    lowerLimit: real)

  /** A `JointInfo` with only name, parent and child given: the defaults of
      the record make it a fixed joint at the zero point with a zero axis
      and zero limits. */
  function Fixed(name: string, parent: string, child: string): JointInfo {
    JointInfo(name, parent, child, "fixed", Point3(0.0, 0.0, 0.0), [0.0, 0.0, 0.0], 0.0, 0.0)
  }

  /** `Configurator.joint_type_list`, indexed by the host's kind ordinal. */
  const KindNames: seq<string> := ["fixed", "revolute", "prismatic", "Cylinderical", "PinSlot", "Planner", "Ball"]

  /** Indexing the kind table as Python does: negative ordinals count from the
      end, anything else out of range is an IndexError. */
  function KindAt(i: int): (r: Option<string>)
    ensures r.Some? <==> -|KindNames| <= i < |KindNames|
    ensures 0 <= i < |KindNames| ==> r == Some(KindNames[i])
  {
    if 0 <= i < |KindNames| then Some(KindNames[i])
    else if -|KindNames| <= i < 0 then Some(KindNames[|KindNames| + i])
    else None
  }

  /** The origin of one side: a runtime error of the host is caught and the
      side has no origin; the ValueError of `get_origin` is not caught. */
  function SideOrigin(l: Lookup): (r: Result<Option<Point3>>)
    ensures r.Err? <==> l == ValueFailure
    ensures l.Got? ==> r == Ok(l.point)
    ensures l == RuntimeFailure ==> r == Ok(None)
  {
    match l
    case Got(p) => Ok(p)
    case RuntimeFailure => Ok(None)
    case ValueFailure => Err("ValueError: get_origin: unexpected object")
  }

  /** What `_joints` decides about a host joint before it names anything. */
  datatype Screened = Skipped | Fatal(msg: string) | Proceed(kind: string, originOne: Option<Point3>, originTwo: Option<Point3>)

  function Screen(j: HostJoint): Screened {
    if j.health == Suppressed || j.health == RolledBack then Skipped
    else if j.health != Healthy then Fatal("joint in unexpected health state")
    else if !j.headReadable then Skipped
    else
      match KindAt(j.kindIndex)
      case None => Fatal("IndexError: joint kind")
      case Some(kind) =>
        if !j.occurrencesReadable then Skipped
        else
        match SideOrigin(GetOrigin(j.geometryOne))
        case Err(m) => Fatal(m)
        case Ok(o1) =>
          match SideOrigin(GetOrigin(j.geometryTwo))
          case Err(m) => Fatal(m)
          case Ok(o2) => Proceed(kind, o1, o2)
  }

  /** The health filter: suppressed and rolled-back joints are skipped, any
      other state but healthy aborts, and a healthy joint whose token or
      motion the host cannot read is skipped. The kind is looked up next: an
      ordinal outside the table aborts even when the occurrences could not
      have been read; with a kind, unreadable occurrences mean a skip. A
      joint that passes has a kind from the table and the origins get_origin
      reports, with host failures read as absent. */
  lemma ScreenFilters(j: HostJoint)
    ensures j.health == Suppressed || j.health == RolledBack ==> Screen(j) == Skipped
    ensures j.health.OtherHealth? ==> Screen(j).Fatal?
    ensures j.health == Healthy && !j.headReadable ==> Screen(j) == Skipped
    ensures j.health == Healthy && j.headReadable && KindAt(j.kindIndex).None? ==> Screen(j).Fatal?
    ensures j.health == Healthy && j.headReadable && KindAt(j.kindIndex).Some? && !j.occurrencesReadable ==>
      Screen(j) == Skipped
    ensures Screen(j).Proceed? ==>
      && j.health == Healthy && j.headReadable && j.occurrencesReadable
      && KindAt(j.kindIndex) == Some(Screen(j).kind)
      && Ok(Screen(j).originOne) == SideOrigin(GetOrigin(j.geometryOne))
      && Ok(Screen(j).originTwo) == SideOrigin(GetOrigin(j.geometryTwo))
  {
  }

  /** Parent and child from the order flag: `('p','c')` keeps the sides,
      `('c','p')` swaps them, and any other flag raises. */
  function Orient(order: (string, string), one: string, two: string): Result<(string, string)> {
    if order == ("p", "c") then Ok((one, two))
    else if order == ("c", "p") then Ok((two, one))
    else Err("ValueError: order not supported")
  }

  /** Axis, upper and lower limit of a non-fixed joint by its motion. */
  function Limits(m: Motion, cm: real): Result<(seq<real>, real, real)> {
    match m
    case RevoluteMotion(axis, maxOn, minOn, hi, lo) =>
      if !maxOn || !minOn then Err("AssertionError: rotation limits")
      else if Abs(hi - lo) == 0.0 then Ok((axis, 3.14159, -3.14159))
      else Ok((axis, hi, lo))
    case SliderMotion(dir, maxOn, minOn, hi, lo) =>
      if !maxOn || !minOn then Err("AssertionError: slide limits")
      else Ok((dir, hi * cm, lo * cm))
    case OtherMotion => Ok(([0.0, 0.0, 0.0], 0.0, 0.0))
  }

  /** The record `_joints` stores for a joint that passed the screen, given
      its deduplicated name and the link names of its two occurrences. */
  function Record(kind: string, o1: Option<Point3>, o2: Option<Point3>, m: Motion,
                  name: string, one: string, two: string, order: (string, string), cm: real, eps: real): Result<JointInfo>
  {
    match Orient(order, one, two)
    case Err(e) => Err(e)
    case Ok(pc) =>
      if kind == "fixed" then Ok(Fixed(name, pc.0, pc.1))
      else if o1.None? then Err("Non-fixed joint does not have an origin")
      else if o2.Some? && !PointsClose(o2.value, o1.value, eps) then Err("origins do not coincide")
      else
        match Limits(m, cm)
        case Err(e) => Err(e)
        case Ok(l) => Ok(JointInfo(name, pc.0, pc.1, kind, o1.value, l.0, l.1, l.2))
  }

  /** When a screened joint is accepted, independently of any name: a valid
      order flag, and for a non-fixed joint an origin on side one, a
      coinciding origin on side two if it has one, and enabled limits for a
      rotational or sliding motion. */
  predicate Accepts(kind: string, o1: Option<Point3>, o2: Option<Point3>, m: Motion, order: (string, string), eps: real) {
    && (order == ("p", "c") || order == ("c", "p"))
    && (kind != "fixed" ==>
          && o1.Some?
          && (o2.Some? ==> PointsClose(o2.value, o1.value, eps))
          && (m.RevoluteMotion? ==> m.maxEnabled && m.minEnabled)
          && (m.SliderMotion? ==> m.maxEnabled && m.minEnabled))
  }

  /** Record fails exactly when Accepts does not hold, whatever the names;
      its record carries the name it was given and the order flag's sides. */
  lemma RecordAccepts(kind: string, o1: Option<Point3>, o2: Option<Point3>, m: Motion,
                      name: string, one: string, two: string, order: (string, string), cm: real, eps: real)
    ensures Record(kind, o1, o2, m, name, one, two, order, cm, eps).Ok? <==> Accepts(kind, o1, o2, m, order, eps)
    ensures Record(kind, o1, o2, m, name, one, two, order, cm, eps).Ok? ==>
      var r := Record(kind, o1, o2, m, name, one, two, order, cm, eps).value;
      && r.name == name
      && (order == ("p", "c") ==> r.parent == one && r.child == two)
      && (order == ("c", "p") ==> r.parent == two && r.child == one)
  {
  }

  /** Limits and axis by kind and motion: a fixed joint keeps the defaults; a
      rotational joint with equal limits gets the full turn +-3.14159; a
      sliding joint's limits are scaled by cm; any other motion has a zero
      axis and zero limits. A non-fixed joint sits at the origin of side one. */
  lemma RecordLimits(kind: string, o1: Option<Point3>, o2: Option<Point3>, m: Motion,
                     name: string, one: string, two: string, order: (string, string), cm: real, eps: real)
    requires Record(kind, o1, o2, m, name, one, two, order, cm, eps).Ok?
    ensures var r := Record(kind, o1, o2, m, name, one, two, order, cm, eps).value;
      && r.kind == kind
      && (kind == "fixed" ==> r == Fixed(name, r.parent, r.child))
      && (kind != "fixed" ==>
            && r.origin == o1.value
            && (m.RevoluteMotion? ==> r.axis == m.axis)
            && (m.RevoluteMotion? && m.maximum == m.minimum ==> r.upperLimit == 3.14159 && r.lowerLimit == -3.14159)
            && (m.RevoluteMotion? && m.maximum != m.minimum ==> r.upperLimit == m.maximum && r.lowerLimit == m.minimum)
            && (m.SliderMotion? ==> r.axis == m.direction && r.upperLimit == m.maximum * cm && r.lowerLimit == m.minimum * cm)
            && (m.OtherMotion? ==> r.axis == [0.0, 0.0, 0.0] && r.upperLimit == 0.0 && r.lowerLimit == 0.0))
  {
  }

  /** Origins 1e-9 apart coincide at tolerance 1e-7; origins 0.01 apart do not. */
  lemma CoincidenceExamples(m: Motion, order: (string, string))
    requires order == ("p", "c") && m.OtherMotion?
    ensures Accepts("revolute", Some(Point3(0.0, 0.0, 0.0)), Some(Point3(0.0, 0.0, 0.000000001)), m, order, 0.0000001)
    ensures !Accepts("revolute", Some(Point3(0.0, 0.0, 0.0)), Some(Point3(0.0, 0.0, 0.01)), m, order, 0.0000001)
  {
  }

  /** A host joint aborts `_joints`: the screen aborts, or the screened joint
      is not accepted. */
  predicate HostFatal(j: HostJoint, order: (string, string), eps: real) {
    match Screen(j)
    case Fatal(_) => true
    case Skipped => false
    case Proceed(kind, o1, o2) => !Accepts(kind, o1, o2, j.motion, order, eps)
  }

  /** The host joints that pass the screen, in order. */
  function Kept(js: seq<HostJoint>): (r: seq<HostJoint>)
    ensures |r| <= |js|
    ensures forall i :: 0 <= i < |r| ==> Screen(r[i]).Proceed?
    decreases |js|
  {
    if |js| == 0 then []
    else Kept(js[..|js| - 1]) + (if Screen(js[|js| - 1]).Proceed? then [js[|js| - 1]] else [])
  }

  /** A joint that passes the screen is kept; one that does not is dropped. */
  lemma {:induction false} KeptMembers(js: seq<HostJoint>, j: HostJoint)
    ensures j in Kept(js) <==> j in js && Screen(j).Proceed?
    decreases |js|
  {
    if |js| > 0 {
      KeptMembers(js[..|js| - 1], j);
      assert js == js[..|js| - 1] + [js[|js| - 1]];
      assert j in js <==> j in js[..|js| - 1] || j == js[|js| - 1];
    }
  }

  /** The (parent, child) occurrence pairs a rigid group becomes: its first
      occurrence with each later one; a group of n occurrences gives n-1. */
  function GroupPairs(g: RigidGroup): (r: seq<(Occ, Occ)>)
    ensures |g.occurrences| > 0 ==> |r| == |g.occurrences| - 1
    ensures |g.occurrences| == 0 ==> r == []
    ensures forall k :: 0 <= k < |r| ==> r[k] == (g.occurrences[0], g.occurrences[k + 1])
  {
    var os := g.occurrences;
    if |os| == 0 then [] else seq(|os| - 1, k requires 0 <= k < |os| - 1 => (os[0], os[k + 1]))
  }

  /** The pairs of all groups, group after group. */
  function AllGroupPairs(gs: seq<RigidGroup>): seq<(Occ, Occ)>
    decreases |gs|
  {
    if |gs| == 0 then [] else AllGroupPairs(gs[..|gs| - 1]) + GroupPairs(gs[|gs| - 1])
  }

  /** The number of fixed joints the rigid groups yield: n-1 per group of n. */
  function EdgeCount(gs: seq<RigidGroup>): nat
    decreases |gs|
  {
    if |gs| == 0 then 0
    else EdgeCount(gs[..|gs| - 1]) + (if |gs[|gs| - 1].occurrences| == 0 then 0 else |gs[|gs| - 1].occurrences| - 1)
  }

  lemma {:induction false} AllGroupPairsCount(gs: seq<RigidGroup>)
    ensures |AllGroupPairs(gs)| == EdgeCount(gs)
    decreases |gs|
  {
    if |gs| > 0 {
      AllGroupPairsCount(gs[..|gs| - 1]);
    }
  }
}
