/** The URDF fragments of one joint and one link, as element trees: which
    sub-elements each fragment has and what their attributes hold. Numbers
    are printed by `show`, the host language's `str` of a float; names are
    formatted by `fmt`, the exporter's name formatter. */
module Parts {
  import opened Wrappers
  import opened Text

  /** The element kinds of the URDF fragments. */
  datatype Tag = JointTag | LinkTag | Origin | Parent | Child | Axis | Limit | Inertial | Mass | Inertia
               | Visual | Collision | Geometry | Mesh | Material

  /** The XML name of each element kind. */
  function TagName(t: Tag): string {
    match t
    case JointTag => "joint"
    case LinkTag => "link"
    case Origin => "origin"
    case Parent => "parent"
    case Child => "child"
    case Axis => "axis"
    case Limit => "limit"
    case Inertial => "inertial"
    case Mass => "mass"
    case Inertia => "inertia"
    case Visual => "visual"
    case Collision => "collision"
    case Geometry => "geometry"
    case Mesh => "mesh"
    case Material => "material"
  }

  /** An XML element: its tag, its attributes in order, its children. */
  datatype Element = Element(tag: Tag, attrs: seq<(string, string)>, children: seq<Element>)

  /** Each number printed, in order. */
  function Shows(show: real -> string, xs: seq<real>): (r: seq<string>)
    ensures |r| == |xs| && forall i :: 0 <= i < |xs| ==> r[i] == show(xs[i])
    decreases |xs|
  {
    if |xs| == 0 then [] else Shows(show, xs[..|xs| - 1]) + [show(xs[|xs| - 1])]
  }

  /** `' '.join([str(_) for _ in xs])` */
  function Spaced(show: real -> string, xs: seq<real>): string {
    Join(" ", Shows(show, xs))
  }

  // ---------------------------------------------------------------------
  // Joints

  /** The effort and velocity limits of every joint, as printed. */
  const EffortLimit := "100.0"
  const VelocityLimit := "100.0"

  predicate HasAxis(kind: string) {
    kind == "revolute" || kind == "continuous" || kind == "prismatic"
  }

  predicate HasLimit(kind: string) {
    kind == "revolute" || kind == "prismatic"
  }

  function AxisElement(show: real -> string, axis: seq<real>): Element {
    Element(Axis, [("xyz", Spaced(show, axis))], [])
  }

  function LimitElement(show: real -> string, upper: real, lower: real): Element {
    Element(Limit, [("upper", show(upper)), ("lower", show(lower)), ("effort", EffortLimit), ("velocity", VelocityLimit)], [])
  }

  /** The `<joint>` fragment of a joint with these fields: name and type,
      origin, parent and child links, then an axis and a limit for the kinds
      that have them. */
  function JointTree(name: string, kind: string, xyz: seq<real>, rpy: seq<real>, parent: string, child: string,
                     axis: seq<real>, upper: real, lower: real, fmt: string -> string, show: real -> string): Element
  {
    Element(JointTag, [("name", fmt(name)), ("type", kind)],
      [ Element(Origin, [("xyz", Spaced(show, xyz)), ("rpy", Spaced(show, rpy))], []),
        Element(Parent, [("link", fmt(parent))], []),
        Element(Child, [("link", fmt(child))], []) ]
      + (if HasAxis(kind) then [AxisElement(show, axis)] else [])
      + (if HasLimit(kind) then [LimitElement(show, upper, lower)] else []))
  }

  /** A joint fragment names the joint and its type, places it by the
      printed `xyz`/`rpy` and links the formatted parent and child, in that
      order; after them comes one axis exactly for revolute, continuous and
      prismatic joints, and last one limit, with effort and velocity 100.0,
      exactly for revolute and prismatic ones. */
  lemma JointElements(name: string, kind: string, xyz: seq<real>, rpy: seq<real>, parent: string, child: string,
                      axis: seq<real>, upper: real, lower: real, fmt: string -> string, show: real -> string)
    ensures var e := JointTree(name, kind, xyz, rpy, parent, child, axis, upper, lower, fmt, show);
      var c := e.children;
      && e.tag == JointTag && e.attrs == [("name", fmt(name)), ("type", kind)]
      && |c| == 3 + (if HasAxis(kind) then 1 else 0) + (if HasLimit(kind) then 1 else 0)
      && c[0] == Element(Origin, [("xyz", Spaced(show, xyz)), ("rpy", Spaced(show, rpy))], [])
      && c[1] == Element(Parent, [("link", fmt(parent))], [])
      && c[2] == Element(Child, [("link", fmt(child))], [])
      && (HasAxis(kind) ==> c[3] == AxisElement(show, axis))
      && (HasLimit(kind) ==> c[|c| - 1] == LimitElement(show, upper, lower))
      && (forall i :: 3 <= i < |c| ==> c[i].tag == Axis || c[i].tag == Limit)
  {
  }

  /** Rendering writes the formatted link names back into the joint; with a
      formatter that leaves formatted names alone, a second rendering
      yields the same fragment. */
  lemma JointRerender(name: string, kind: string, xyz: seq<real>, rpy: seq<real>, parent: string, child: string,
                      axis: seq<real>, upper: real, lower: real, fmt: string -> string, show: real -> string)
    requires fmt(fmt(parent)) == fmt(parent) && fmt(fmt(child)) == fmt(child)
    ensures JointTree(name, kind, xyz, rpy, fmt(parent), fmt(child), axis, upper, lower, fmt, show)
         == JointTree(name, kind, xyz, rpy, parent, child, axis, upper, lower, fmt, show)
  {
  }

  /** `parts.Joint`: the fields of an emitted joint; rendering overwrites the
      parent and child with their formatted names and caches the fragment. */
  class Joint {
    const name: string
    const kind: string
    const xyz: seq<real>
    const rpy: seq<real>
    var parent: string
    var child: string
    const axis: seq<real>
    const upper: real
    const lower: real
    var jointXml: Option<Element>

    constructor(name: string, xyz: seq<real>, rpy: seq<real>, axis: seq<real>, parent: string, child: string,
                kind: string, upper: real, lower: real)
      ensures this.name == name && this.xyz == xyz && this.rpy == rpy && this.axis == axis
      ensures this.parent == parent && this.child == child && this.kind == kind
      ensures this.upper == upper && this.lower == lower && jointXml == None
    {
      this.name, this.xyz, this.rpy, this.axis := name, xyz, rpy, axis;
      this.parent, this.child, this.kind := parent, child, kind;
      this.upper, this.lower := upper, lower;
      jointXml := None;
    }

    /** `joint_xml`: the fragment of the joint's fields, with the parent and
        child formatted in place. */
    method JointXml(fmt: string -> string, show: real -> string) returns (e: Element)
      modifies this`parent, this`child, this`jointXml
      ensures parent == fmt(old(parent)) && child == fmt(old(child))
      ensures e == JointTree(name, kind, xyz, rpy, old(parent), old(child), axis, upper, lower, fmt, show)
      ensures jointXml == Some(e)
    {
      var children := [Element(Origin, [("xyz", Spaced(show, xyz)), ("rpy", Spaced(show, rpy))], [])];
      parent := fmt(parent);
      children := children + [Element(Parent, [("link", parent)], [])];
      child := fmt(child);
      children := children + [Element(Child, [("link", child)], [])];
      if kind == "revolute" || kind == "continuous" || kind == "prismatic" {
        children := children + [Element(Axis, [("xyz", Spaced(show, axis))], [])];
      }
      if kind == "revolute" || kind == "prismatic" {
        children := children + [Element(Limit, [("upper", show(upper)), ("lower", show(lower)),
                                                  ("effort", EffortLimit), ("velocity", VelocityLimit)], [])];
      }
      e := Element(JointTag, [("name", fmt(name)), ("type", kind)], children);
      jointXml := Some(e);
    }
  }

  // ---------------------------------------------------------------------
  // Links

  /** `' '.join([Link.scale] * 3)`: the mesh scale attribute, three copies
      of the scale text of the links. */
  function ScaleAttr(scale: string): string {
    Join(" ", [scale, scale, scale])
  }

  /** `package://{sub_folder}{format_name(body)}.stl` */
  function MeshFile(subFolder: string, fmt: string -> string, body: string): string {
    "package://" + subFolder + fmt(body) + ".stl"
  }

  function VisualOf(show: real -> string, scale: string, xyz: seq<real>, rpy: seq<real>, file: string, material: string): Element {
    Element(Visual, [], [
      Element(Origin, [("xyz", Spaced(show, xyz)), ("rpy", Spaced(show, rpy))], []),
      Element(Geometry, [], [Element(Mesh, [("filename", file), ("scale", ScaleAttr(scale))], [])]),
      Element(Material, [("name", material)], [])])
  }

  function CollisionOf(show: real -> string, scale: string, xyz: seq<real>, rpy: seq<real>, file: string): Element {
    Element(Collision, [], [
      Element(Origin, [("xyz", Spaced(show, xyz)), ("rpy", Spaced(show, rpy))], []),
      Element(Geometry, [], [Element(Mesh, [("filename", file), ("scale", ScaleAttr(scale))], [])])])
  }

  /** The inertial block: origin at the centre of mass, the mass, and the
      six inertia entries in the order ixx, iyy, izz, ixy, iyz, ixz. */
  function InertialOf(show: real -> string, com: seq<real>, rpy: seq<real>, mass: real, inertia: seq<real>): Element
    requires |inertia| >= 6
  {
    Element(Inertial, [], [
      Element(Origin, [("xyz", Spaced(show, com)), ("rpy", Spaced(show, rpy))], []),
      Element(Mass, [("value", show(mass))], []),
      Element(Inertia, [("ixx", show(inertia[0])), ("iyy", show(inertia[1])), ("izz", show(inertia[2])),
                          ("ixy", show(inertia[3])), ("iyz", show(inertia[4])), ("ixz", show(inertia[5]))], [])])
  }

  /** One silver visual per body mesh, in order. */
  function SubVisuals(show: real -> string, scale: string, xyz: seq<real>, rpy: seq<real>, subFolder: string, fmt: string -> string,
                      bodies: seq<string>): (r: seq<Element>)
    ensures |r| == |bodies|
    ensures forall i :: 0 <= i < |bodies| ==> r[i] == VisualOf(show, scale, xyz, rpy, MeshFile(subFolder, fmt, bodies[i]), "silver")
    decreases |bodies|
  {
    if |bodies| == 0 then []
    else SubVisuals(show, scale, xyz, rpy, subFolder, fmt, bodies[..|bodies| - 1])
         + [VisualOf(show, scale, xyz, rpy, MeshFile(subFolder, fmt, bodies[|bodies| - 1]), "silver")]
  }

  /** One collision per body mesh, in order. */
  function SubCollisions(show: real -> string, scale: string, xyz: seq<real>, rpy: seq<real>, subFolder: string, fmt: string -> string,
                         bodies: seq<string>): (r: seq<Element>)
    ensures |r| == |bodies|
    ensures forall i :: 0 <= i < |bodies| ==> r[i] == CollisionOf(show, scale, xyz, rpy, MeshFile(subFolder, fmt, bodies[i]))
    decreases |bodies|
  {
    if |bodies| == 0 then []
    else SubCollisions(show, scale, xyz, rpy, subFolder, fmt, bodies[..|bodies| - 1])
         + [CollisionOf(show, scale, xyz, rpy, MeshFile(subFolder, fmt, bodies[|bodies| - 1]))]
  }

  /** The fields a link fragment is rendered from. */
  datatype LinkFields = LinkFields(
    name: string,
    xyz: seq<real>,
    rpy: seq<real>,
    com: seq<real>,
    subFolder: string,
    mass: real,
    inertia: seq<real>,
    bodyDict: map<string, seq<string>>,
    subMesh: bool,
    materialDict: map<string, string>,
    visible: bool,
    scale: string)

  /** The visuals of a link: one silver visual per body mesh, or one on the
      link's own mesh with its material when it is visible, or none. */
  function LinkVisuals(f: LinkFields, fmt: string -> string, show: real -> string): seq<Element>
    requires f.subMesh ==> fmt(f.name) in f.bodyDict
    requires !f.subMesh && f.visible ==> fmt(f.name) in f.materialDict
  {
    var n := fmt(f.name);
    if f.subMesh then SubVisuals(show, f.scale, f.xyz, f.rpy, f.subFolder, fmt, f.bodyDict[n])
    else if f.visible then [VisualOf(show, f.scale, f.xyz, f.rpy, MeshFile(f.subFolder, fmt, n), f.materialDict[n])]
    else []
  }

  /** The collisions of a link, on the same meshes as its visuals. */
  function LinkCollisions(f: LinkFields, fmt: string -> string, show: real -> string): seq<Element>
    requires f.subMesh ==> fmt(f.name) in f.bodyDict
  {
    var n := fmt(f.name);
    if f.subMesh then SubCollisions(show, f.scale, f.xyz, f.rpy, f.subFolder, fmt, f.bodyDict[n])
    else if f.visible then [CollisionOf(show, f.scale, f.xyz, f.rpy, MeshFile(f.subFolder, fmt, n))]
    else []
  }

  /** The `<link>` fragment of a link: nothing when no bodies are filed
      under its formatted name; an index error for an inertia tensor of
      fewer than six entries; a key error for a whole-link visual without a
      material; otherwise the inertial block, the visuals and the
      collisions. */
  function LinkTree(f: LinkFields, fmt: string -> string, show: real -> string): Result<Option<Element>> {
    var n := fmt(f.name);
    if n !in f.bodyDict then Ok(None)
    else if |f.inertia| < 6 then Err("list index out of range")
    else if !f.subMesh && f.visible && n !in f.materialDict then Err("KeyError")
    else Ok(Some(Element(LinkTag, [("name", n)],
                         [InertialOf(show, f.com, f.rpy, f.mass, f.inertia)] + LinkVisuals(f, fmt, show) + LinkCollisions(f, fmt, show))))
  }

  /** When and how a link fragment fails: not at all without a body entry;
      otherwise exactly for a short inertia tensor or a missing material of
      a visible whole-link mesh. */
  lemma LinkOutcome(f: LinkFields, fmt: string -> string, show: real -> string)
    ensures LinkTree(f, fmt, show) == Ok(None) <==> fmt(f.name) !in f.bodyDict
    ensures LinkTree(f, fmt, show).Err? <==>
      fmt(f.name) in f.bodyDict && (|f.inertia| < 6 || (!f.subMesh && f.visible && fmt(f.name) !in f.materialDict))
  {
  }

  /** A rendered link is named by its formatted name and always opens with
      its inertial block. With per-body meshes the silver visuals, one per
      mesh name filed under it and each pointing at
      `package://<folder><mesh>.stl`, come next and the collisions on the
      same meshes after them; otherwise a visible link has one visual with
      its material and one collision, both on its own mesh, and a hidden one
      has neither. */
  lemma LinkElements(f: LinkFields, fmt: string -> string, show: real -> string)
    requires LinkTree(f, fmt, show).Ok? && LinkTree(f, fmt, show).value.Some?
    ensures var e, n := LinkTree(f, fmt, show).value.value, fmt(f.name);
      var c := e.children;
      && e.tag == LinkTag && e.attrs == [("name", n)] && n in f.bodyDict
      && |f.inertia| >= 6 && |c| >= 1 && c[0] == InertialOf(show, f.com, f.rpy, f.mass, f.inertia)
      && (f.subMesh ==>
            var bodies := f.bodyDict[n];
            && |c| == 1 + 2 * |bodies|
            && (forall i :: 0 <= i < |bodies| ==>
                  c[1 + i] == VisualOf(show, f.scale, f.xyz, f.rpy, MeshFile(f.subFolder, fmt, bodies[i]), "silver"))
            && (forall i :: 0 <= i < |bodies| ==>
                  c[1 + |bodies| + i] == CollisionOf(show, f.scale, f.xyz, f.rpy, MeshFile(f.subFolder, fmt, bodies[i]))))
      && (!f.subMesh && f.visible ==>
            && n in f.materialDict && |c| == 3
            && c[1] == VisualOf(show, f.scale, f.xyz, f.rpy, MeshFile(f.subFolder, fmt, n), f.materialDict[n])
            && c[2] == CollisionOf(show, f.scale, f.xyz, f.rpy, MeshFile(f.subFolder, fmt, n)))
      && (!f.subMesh && !f.visible ==> |c| == 1)
  {
    var n := fmt(f.name);
    var c := [InertialOf(show, f.com, f.rpy, f.mass, f.inertia)] + LinkVisuals(f, fmt, show) + LinkCollisions(f, fmt, show);
    assert LinkTree(f, fmt, show).value.value.children == c;
    if f.subMesh {
      PerBodyLayout(InertialOf(show, f.com, f.rpy, f.mass, f.inertia), show, f.scale, f.xyz, f.rpy, f.subFolder, fmt, f.bodyDict[n]);
    }
  }

  /** The per-body layout: the head, then the visuals, then the collisions. */
  lemma PerBodyLayout(head: Element, show: real -> string, scale: string, xyz: seq<real>, rpy: seq<real>, subFolder: string,
                      fmt: string -> string, bodies: seq<string>)
    ensures var c := [head] + SubVisuals(show, scale, xyz, rpy, subFolder, fmt, bodies) + SubCollisions(show, scale, xyz, rpy, subFolder, fmt, bodies);
      && |c| == 1 + 2 * |bodies| && c[0] == head
      && (forall i :: 0 <= i < |bodies| ==> c[1 + i] == VisualOf(show, scale, xyz, rpy, MeshFile(subFolder, fmt, bodies[i]), "silver"))
      && (forall i :: 0 <= i < |bodies| ==> c[1 + |bodies| + i] == CollisionOf(show, scale, xyz, rpy, MeshFile(subFolder, fmt, bodies[i])))
  {
    Spliced(head, SubVisuals(show, scale, xyz, rpy, subFolder, fmt, bodies), SubCollisions(show, scale, xyz, rpy, subFolder, fmt, bodies));
  }

  lemma Spliced(head: Element, xs: seq<Element>, ys: seq<Element>)
    ensures var c := [head] + xs + ys;
      && |c| == 1 + |xs| + |ys| && c[0] == head
      && (forall i :: 0 <= i < |xs| ==> c[1 + i] == xs[i])
      && (forall i :: 0 <= i < |ys| ==> c[1 + |xs| + i] == ys[i])
  {
  }

  /** Rendering writes the formatted name back into the link; with a
      formatter that leaves formatted names alone, a second rendering
      yields the same fragment. */
  lemma LinkRerender(f: LinkFields, fmt: string -> string, show: real -> string)
    requires fmt(fmt(f.name)) == fmt(f.name)
    ensures LinkTree(f.(name := fmt(f.name)), fmt, show) == LinkTree(f, fmt, show)
  {
  }

  /** `parts.Link`: the fields of a link; rendering overwrites its name with
      the formatted name and caches the fragment it produces. */
  class Link {
    var name: string
    const xyz: seq<real>
    const rpy: seq<real>
    const com: seq<real>
    const subFolder: string
    const mass: real
    const inertia: seq<real>
    const bodyDict: map<string, seq<string>>
    const subMesh: bool
    const materialDict: map<string, string>
    const visible: bool
    /** `Link.scale`, the text the resolver set from its scale before any link is rendered. */
    const scale: string
    var linkXml: Option<Element>

    function Fields(): LinkFields
      reads this`name
    {
      LinkFields(name, xyz, rpy, com, subFolder, mass, inertia, bodyDict, subMesh, materialDict, visible, scale)
    }

    constructor(f: LinkFields)
      ensures Fields() == f && linkXml == None
    {
      name, xyz, rpy, com, subFolder, mass := f.name, f.xyz, f.rpy, f.com, f.subFolder, f.mass;
      inertia, bodyDict, subMesh, materialDict, visible := f.inertia, f.bodyDict, f.subMesh, f.materialDict, f.visible;
      scale := f.scale;
      linkXml := None;
    }

    /** `link_xml`: the fragment of the link's fields, with the name
        formatted in place; the cache is set only when a fragment is made. */
    method LinkXml(fmt: string -> string, show: real -> string) returns (r: Result<Option<Element>>)
      modifies this`name, this`linkXml
      ensures name == fmt(old(name))
      ensures r == LinkTree(old(Fields()), fmt, show)
      ensures r.Ok? && r.value.Some? ==> linkXml == Some(r.value.value)
      ensures !(r.Ok? && r.value.Some?) ==> linkXml == old(linkXml)
    {
      ghost var f := Fields();
      name := fmt(name);
      if name !in bodyDict {
        r := Ok(None);
      } else if |inertia| < 6 {
        r := Err("list index out of range");
      } else {
        var children := [InertialOf(show, com, rpy, mass, inertia)];
        var found := true;
        if subMesh {
          var visuals := MeshVisuals(show, scale, xyz, rpy, subFolder, fmt, bodyDict[name]);
          children := children + visuals;
        } else if visible {
          if name in materialDict {
            children := children + [VisualOf(show, scale, xyz, rpy, MeshFile(subFolder, fmt, name), materialDict[name])];
          } else {
            found := false;
          }
        }
        if !found {
          r := Err("KeyError");
        } else {
          if subMesh {
            var collisions := MeshCollisions(show, scale, xyz, rpy, subFolder, fmt, bodyDict[name]);
            children := children + collisions;
          } else if visible {
            children := children + [CollisionOf(show, scale, xyz, rpy, MeshFile(subFolder, fmt, name))];
          }
          var e := Element(LinkTag, [("name", name)], children);
          assert children == [InertialOf(show, f.com, f.rpy, f.mass, f.inertia)] + LinkVisuals(f, fmt, show) + LinkCollisions(f, fmt, show);
          linkXml := Some(e);
          r := Ok(Some(e));
        }
      }
    }
  }

  /** The per-body visuals loop of `link_xml`. */
  method MeshVisuals(show: real -> string, scale: string, xyz: seq<real>, rpy: seq<real>, subFolder: string, fmt: string -> string,
                     bodies: seq<string>) returns (vs: seq<Element>)
    ensures vs == SubVisuals(show, scale, xyz, rpy, subFolder, fmt, bodies)
  {
    vs := [];
    for i := 0 to |bodies|
      invariant vs == SubVisuals(show, scale, xyz, rpy, subFolder, fmt, bodies[..i])
    {
      assert bodies[..i + 1][..i] == bodies[..i];
      vs := vs + [VisualOf(show, scale, xyz, rpy, MeshFile(subFolder, fmt, bodies[i]), "silver")];
    }
    assert bodies[..|bodies|] == bodies;
  }

  /** The per-body collisions loop of `link_xml`. */
  method MeshCollisions(show: real -> string, scale: string, xyz: seq<real>, rpy: seq<real>, subFolder: string, fmt: string -> string,
                        bodies: seq<string>) returns (cs: seq<Element>)
    ensures cs == SubCollisions(show, scale, xyz, rpy, subFolder, fmt, bodies)
  {
    cs := [];
    for i := 0 to |bodies|
      invariant cs == SubCollisions(show, scale, xyz, rpy, subFolder, fmt, bodies[..i])
    {
      assert bodies[..i + 1][..i] == bodies[..i];
      cs := cs + [CollisionOf(show, scale, xyz, rpy, MeshFile(subFolder, fmt, bodies[i]))];
    }
    assert bodies[..|bodies|] == bodies;
  }
}
