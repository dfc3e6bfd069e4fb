/** What the resolver reads from the host CAD design, as plain values:
    occurrences, their bodies and appearances, joints and rigid groups. */
module Host {
  import opened Wrappers
  import opened Geometry
  import Scene

  /** The entity token of an occurrence. */
  type Token = Scene.Token

  /** A colour property of an appearance, channels in 0..255. */
  datatype AppearanceProperty = ColorProperty(red: int, green: int, blue: int, opacity: int) | OtherProperty

  datatype Appearance = Appearance(name: string, properties: seq<AppearanceProperty>)

  /** The material of a component; it normally has an appearance. */
  datatype Material = Material(appearance: Option<Appearance>)

  /** A B-rep body: its name, its light-bulb visibility and its own appearance. */
  datatype Body = Body(name: string, visible: bool, appearance: Option<Appearance>)

  /** An occurrence of a component in the design. `bodies` are the bodies it
      owns directly (`bRepBodies`), `material` the material of its component. */
  datatype Occ = Occ(
    token: Token,
    name: string,
    grounded: bool,
    visible: bool,
    pose: Pose,
    appearance: Option<Appearance>,
    bodies: seq<Body>,
    material: Option<Material>)

  /** The health state of a joint feature. */
  datatype Health = Healthy | Suppressed | RolledBack | OtherHealth(code: nat)

  /** The motion of a joint: rotational and sliding motions carry their axis
      and limits; every other motion carries nothing the exporter reads. */
  datatype Motion =
    | RevoluteMotion(axis: seq<real>, maxEnabled: bool, minEnabled: bool, maximum: real, minimum: real)
    | SliderMotion(direction: seq<real>, maxEnabled: bool, minEnabled: bool, maximum: real, minimum: real)
    | OtherMotion

  /** A joint of the design. `headReadable` is false when reading its token
      or its joint motion raises a runtime error of the host, and
      `occurrencesReadable` when reading its two occurrences does; the kind
      is looked up between the two reads. `kindIndex` is the host's ordinal
      for the kind of motion. */
  datatype HostJoint = HostJoint(
    name: string,
    health: Health,
    headReadable: bool,
    occurrencesReadable: bool,
    kindIndex: int,
    motion: Motion,
    one: Occ,
    two: Occ,
    geometryOne: GeomRef,
    geometryTwo: GeomRef)

  /** A rigid group: a name and the occurrences it binds together. */
  datatype RigidGroup = RigidGroup(name: string, occurrences: seq<Occ>)
}
