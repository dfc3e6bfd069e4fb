/** The export settings: unit factors, accuracy settings, the optional
    YAML configuration and the package directory (`manager.Manager`). */
module Manager {
  import opened Wrappers
  import opened Paths

  // ---------------------------------------------------------------------
  // Units

  /** The length units the exporter recognises. */
  const Units: set<string> := {"mm", "cm", "m"}

  /** Metres per document unit; any other document unit is an error. */
  function DocUnit(u: string): Result<real> {
    if u == "mm" then Ok(0.001)
    else if u == "cm" then Ok(0.01)
    else if u == "m" then Ok(1.0)
    else Err("Inexpected document units: '" + u + "'")
  }

  /** Metres per target unit; an unrecognised target unit counts as metres. */
  function TargetUnit(u: string): real {
    if u == "mm" then 0.001
    else if u == "cm" then 0.01
    else if u == "m" then 1.0
    else 1.0
  }

  /** The two unit tables agree on the recognised units; a document unit
      outside them is refused, a target unit outside them means metres. */
  lemma UnitTables(u: string)
    ensures DocUnit(u).Ok? <==> u in Units
    ensures DocUnit(u).Ok? ==> DocUnit(u).value == TargetUnit(u)
    ensures u !in Units ==> TargetUnit(u) == 1.0
    ensures TargetUnit(u) > 0.0
  {
  }

  /** `scale`: document lengths in target units. */
  function Scale(docU: real, tarU: real): (r: real)
    requires tarU > 0.0
    ensures r * tarU == docU
  {
    docU / tarU
  }

  /** `cm`: one centimetre in target units. */
  function Cm(tarU: real): (r: real)
    requires tarU > 0.0
    ensures r * tarU == 0.01
  {
    0.01 / tarU
  }

  /** From centimetres to metres lengths shrink a hundredfold; to
      millimetres they grow tenfold. */
  lemma ScaleExamples()
    ensures Scale(DocUnit("cm").value, TargetUnit("m")) == 0.01
    ensures Scale(DocUnit("cm").value, TargetUnit("mm")) == 10.0
    ensures Scale(DocUnit("m").value, TargetUnit("m")) == 1.0
  {
  }

  /** `cm` is the scale of a centimetre document, whatever the target. */
  lemma CmIsCentimetreScale(t: string)
    ensures Cm(TargetUnit(t)) == Scale(DocUnit("cm").value, TargetUnit(t))
  {
  }

  /** Converting from a to b and then from b to c is converting from a to
      c; in particular converting there and back is the identity. */
  lemma ScaleComposes(a: string, b: string, c: string)
    requires a in Units && b in Units
    ensures Scale(DocUnit(a).value, TargetUnit(b)) * Scale(DocUnit(b).value, TargetUnit(c))
         == Scale(DocUnit(a).value, TargetUnit(c))
  {
    var ua, ub, uc := DocUnit(a).value, DocUnit(b).value, TargetUnit(c);
    assert DocUnit(b).value == TargetUnit(b);
    calc {
      Scale(ua, ub) * Scale(ub, uc) * uc;
      Scale(ua, ub) * (Scale(ub, uc) * uc);
      Scale(ua, ub) * ub;
      ua;
    }
  }

  // ---------------------------------------------------------------------
  // Accuracy settings

  /** The host's inertia calculation accuracies. */
  datatype CalculationAccuracy = LowCalculationAccuracy | MediumCalculationAccuracy | VeryHighCalculationAccuracy

  /** The host's mesh refinement settings. */
  datatype MeshRefinement = MeshRefinementLow | MeshRefinementMedium | MeshRefinementHigh

  const Levels: set<string> := {"Low", "Medium", "High"}

  /** The inertia accuracy of a precision setting; an unknown setting
      leaves the accuracy unset. */
  function InertiaAccuracy(p: string): Option<CalculationAccuracy> {
    if p == "Low" then Some(LowCalculationAccuracy)
    else if p == "Medium" then Some(MediumCalculationAccuracy)
    else if p == "High" then Some(VeryHighCalculationAccuracy)
    else None
  }

  /** The mesh refinement of a resolution setting; an unknown setting
      leaves it unset. */
  function MeshAccuracy(r: string): Option<MeshRefinement> {
    if r == "Low" then Some(MeshRefinementLow)
    else if r == "Medium" then Some(MeshRefinementMedium)
    else if r == "High" then Some(MeshRefinementHigh)
    else None
  }

  /** Exactly the three levels are understood, and they give three
      different accuracies; "High" asks for the very high inertia one. */
  lemma AccuracyLevels(p: string, q: string)
    ensures InertiaAccuracy(p).Some? <==> p in Levels
    ensures MeshAccuracy(p).Some? <==> p in Levels
    ensures p in Levels && q in Levels && p != q ==>
      InertiaAccuracy(p) != InertiaAccuracy(q) && MeshAccuracy(p) != MeshAccuracy(q)
    ensures InertiaAccuracy("High") == Some(VeryHighCalculationAccuracy)
  {
  }

  // ---------------------------------------------------------------------
  // Configuration file

  /** A loaded YAML document. */
  datatype Value = VMap(entries: map<string, Value>) | VList(items: seq<Value>) | VStr(s: string)
                 | VNum(x: real) | VBool(b: bool) | VNull

  /** The top-level keys a configuration may have. */
  const ConfigKeys: set<string> := {"RobotName", "SaveMesh", "SubMesh", "MeshResolution", "InertiaPrecision",
                                    "TargetUnits", "TargetPlatform", "NameMap", "MergeLinks",
                                    "Locations", "Extras", "Root"}

  /** The top-level keys outside the whitelist. */
  function WrongKeys(entries: map<string, Value>): (r: set<string>)
    ensures forall k :: k in r <==> k in entries && k !in ConfigKeys
  {
    entries.Keys - ConfigKeys
  }

  /** The settings taken from a configuration. */
  datatype ConfigFields = ConfigFields(nameMap: Value, mergeLinks: Value, extraLinks: Value, locations: Value, rootName: Value)

  const DefaultConfig := ConfigFields(VMap(map[]), VMap(map[]), VList([]), VMap(map[]), VNull)

  /** `dict.get(key, default)` */
  function Get(entries: map<string, Value>, key: string, default: Value): Value {
    if key in entries then entries[key] else default
  }

  /** What a configuration file sets: the defaults without a file; for a
      file, an error unless its document is a dictionary with whitelisted
      keys only, else the five entries read from it. `loaded` is the file's
      document; reading and parsing the file are not modelled. */
  function ReadConfig(configFile: string, loaded: Value): Result<ConfigFields> {
    if configFile == "" then Ok(DefaultConfig)
    else if !loaded.VMap? then Err("Malformed config '" + configFile + "': top level should be a dictionary")
    else if WrongKeys(loaded.entries) != {} then Err("Malformed config '" + configFile + "': unexpected top-level keys")
    else
      var m := loaded.entries;
      Ok(ConfigFields(Get(m, "NameMap", VMap(map[])), Get(m, "MergeLinks", VMap(map[])), Get(m, "Extras", VList([])),
                      Get(m, "Locations", VMap(map[])), Get(m, "Root", VNull)))
  }

  /** A configuration is accepted exactly when there is no file, or its
      document is a dictionary whose keys are all whitelisted. */
  lemma ConfigAccepted(configFile: string, loaded: Value)
    ensures ReadConfig(configFile, loaded).Ok? <==>
      configFile == "" || (loaded.VMap? && loaded.entries.Keys <= ConfigKeys)
  {
    if configFile != "" && loaded.VMap? && !(loaded.entries.Keys <= ConfigKeys) {
      var k :| k in loaded.entries.Keys && k !in ConfigKeys;
      assert k in WrongKeys(loaded.entries);
    }
  }

  /** An accepted file sets each of the five settings to its entry, and an
      absent entry to the default. */
  lemma ConfigDefaults(configFile: string, loaded: Value)
    requires configFile != "" && ReadConfig(configFile, loaded).Ok?
    ensures var c, m := ReadConfig(configFile, loaded).value, loaded.entries;
      && (c.nameMap == if "NameMap" in m then m["NameMap"] else DefaultConfig.nameMap)
      && (c.mergeLinks == if "MergeLinks" in m then m["MergeLinks"] else DefaultConfig.mergeLinks)
      && (c.extraLinks == if "Extras" in m then m["Extras"] else DefaultConfig.extraLinks)
      && (c.locations == if "Locations" in m then m["Locations"] else DefaultConfig.locations)
      && (c.rootName == if "Root" in m then m["Root"] else DefaultConfig.rootName)
  {
  }

  /** The seven other whitelisted keys are accepted but not read: changing
      or adding any of them changes nothing. */
  lemma ConfigIgnoresEchoedKeys(configFile: string, m: map<string, Value>, k: string, v: Value)
    requires k in {"RobotName", "SaveMesh", "SubMesh", "MeshResolution", "InertiaPrecision", "TargetUnits", "TargetPlatform"}
    ensures ReadConfig(configFile, VMap(m[k := v])) == ReadConfig(configFile, VMap(m))
  {
    assert WrongKeys(m[k := v]) == WrongKeys(m);
  }

  // ---------------------------------------------------------------------
  // Package directory

  /** The package named after the robot. */
  function PackageName(robotName: string): string {
    robotName + "_description"
  }

  /** The unit factors of the document and target units. */
  function Scales(docUnits: string, targetUnits: string): Result<(real, real)> {
    match DocUnit(docUnits)
    case Err(msg) => Err(msg)
    case Ok(docU) => Ok((Scale(docU, TargetUnit(targetUnits)), Cm(TargetUnit(targetUnits))))
  }

  /** `manager.Manager`: the settings of one export. */
  class Manager {
    var saveMesh: bool
    var subMesh: bool
    var scale: real
    var cm: real
    var inertAccuracy: Option<CalculationAccuracy>
    var meshAccuracy: Option<MeshRefinement>
    var targetPlatform: string
    var robotName: string
    var config: ConfigFields
    var saveDir: string

    constructor(saveMesh: bool, subMesh: bool, scale: real, cm: real, inertAccuracy: Option<CalculationAccuracy>,
                meshAccuracy: Option<MeshRefinement>, targetPlatform: string, robotName: string, config: ConfigFields)
      ensures this.saveMesh == saveMesh && this.subMesh == subMesh && this.scale == scale && this.cm == cm
      ensures this.inertAccuracy == inertAccuracy && this.meshAccuracy == meshAccuracy
      ensures this.targetPlatform == targetPlatform && this.robotName == robotName && this.config == config
      ensures saveDir == ""
    {
      this.saveMesh, this.subMesh, this.scale, this.cm := saveMesh, subMesh, scale, cm;
      this.inertAccuracy, this.meshAccuracy := inertAccuracy, meshAccuracy;
      this.targetPlatform, this.robotName, this.config := targetPlatform, robotName, config;
      saveDir := "";
    }

    /** `_set_dir`: the package directory under the chosen folder (creating
        the directory is not modelled). */
    method SetDir(dir: string)
      modifies this`saveDir
      ensures saveDir == PathJoin(dir, PackageName(robotName))
    {
      var packageName := robotName + "_description";
      saveDir := PathJoin(dir, packageName);
    }
  }

  /** `Manager.__init__`: the settings of an export, or the error it raises
      for an unknown document unit or a malformed configuration, checked in
      that order. `docUnits` is the document's default length unit and
      `loaded` the configuration file's document. */
  method NewManager(docUnits: string, saveDir: string, robotName: string, saveMesh: bool, subMesh: bool,
                    meshResolution: string, inertiaPrecision: string, targetUnits: string, targetPlatform: string,
                    configFile: string, loaded: Value) returns (r: Result<Manager>)
    ensures r.Ok? <==> DocUnit(docUnits).Ok? && ReadConfig(configFile, loaded).Ok?
    ensures r.Err? && DocUnit(docUnits).Err? ==> r.msg == DocUnit(docUnits).msg
    ensures r.Err? && DocUnit(docUnits).Ok? ==> r.msg == ReadConfig(configFile, loaded).msg
    ensures r.Ok? ==>
      var m := r.value;
      && fresh(m)
      && m.saveMesh == saveMesh && m.subMesh == subMesh
      && m.scale == Scales(docUnits, targetUnits).value.0 && m.cm == Scales(docUnits, targetUnits).value.1
      && m.inertAccuracy == InertiaAccuracy(inertiaPrecision) && m.meshAccuracy == MeshAccuracy(meshResolution)
      && m.targetPlatform == targetPlatform && m.robotName == robotName
      && m.config == ReadConfig(configFile, loaded).value
      && m.saveDir == PathJoin(saveDir, PackageName(robotName))
  {
    var scales := Scales(docUnits, targetUnits);
    var config := ReadConfig(configFile, loaded);
    if scales.Err? {
      r := Err(scales.msg);
    } else if config.Err? {
      r := Err(config.msg);
    } else {
      var m := new Manager(saveMesh, subMesh, scales.value.0, scales.value.1, InertiaAccuracy(inertiaPrecision),
                           MeshAccuracy(meshResolution), targetPlatform, robotName, config.value);
      m.SetDir(saveDir);
      r := Ok(m);
    }
  }

  /** The package directory ends with the robot's package name. */
  lemma SaveDirNamesPackage(dir: string, robotName: string)
    ensures var p := PathJoin(dir, PackageName(robotName));
      |p| >= |robotName| + 12 && p[|p| - 12..] == "_description"
      && p[|p| - 12 - |robotName|..|p| - 12] == robotName
  {
    var p, q := PathJoin(dir, PackageName(robotName)), PackageName(robotName);
    PathJoinEnds(dir, q);
    assert p[|p| - |q|..] == q;
    assert q[|robotName|..] == "_description";
  }
}
