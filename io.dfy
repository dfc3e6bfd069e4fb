/** The output side of the exporter (`io`): the STL export requests of the
    mesh pass, the write sequence of the URDF and materials files, and the
    line rewrites of the package templates. */
module Io {
  import opened Wrappers
  import opened Host
  import opened Text
  import opened OrderedDict
  import opened Paths
  import Bodies
  import Counting

  // ---------------------------------------------------------------------
  // Mesh export

  /** An STL export request: a whole occurrence with the bodies copied into
      it, or one body. A body file name is made of the occurrence name, the
      formatted body name and a counter, kept apart here. */
  datatype Export =
    | ComponentStl(file: string, bodies: seq<Body>)
    | BodyStl(file: string, bodyName: string, count: nat, body: Body)

  /** The occurrences whose light bulb is on, in order. */
  function VisibleOccs(occs: seq<Occ>): (r: seq<Occ>)
    ensures forall o :: o in r ==> o in occs && o.visible
    ensures forall o :: o in occs && o.visible ==> o in r
    decreases |occs|
  {
    if |occs| == 0 then []
    else VisibleOccs(occs[..|occs| - 1]) + (if occs[|occs| - 1].visible then [occs[|occs| - 1]] else [])
  }

  /** The visible occurrences of `a + b` are those of `a` then those of `b`. */
  lemma {:induction false} VisibleOccsConcat(a: seq<Occ>, b: seq<Occ>)
    ensures VisibleOccs(a + b) == VisibleOccs(a) + VisibleOccs(b)
    decreases |b|
  {
    if |b| == 0 {
      assert a + b == a;
    } else {
      var b' := b[..|b| - 1];
      assert (a + b)[..|a + b| - 1] == a + b';
      VisibleOccsConcat(a, b');
    }
  }

  /** What the export loop does for one occurrence or body, before the
      counter is applied: export an occurrence's visible bodies as one
      mesh, or export one visible body on its own. */
  datatype Step = Whole(occName: string, bodies: seq<Body>) | Part(occName: string, body: Body)

  function PartSteps(occName: string, bs: seq<Body>): (r: seq<Step>)
    ensures |r| == |bs|
    decreases |bs|
  {
    if |bs| == 0 then [] else PartSteps(occName, bs[..|bs| - 1]) + [Part(occName, bs[|bs| - 1])]
  }

  /** The steps of one occurrence with bodies: its whole mesh, then with
      per-body meshes one step per visible body. */
  function OccSteps(occName: string, bodies: seq<Body>, subMesh: bool): seq<Step> {
    [Whole(occName, Bodies.Visible(bodies))] + (if subMesh then PartSteps(occName, Bodies.Visible(bodies)) else [])
  }

  /** Every occurrence of `vis` has a link name. */
  predicate Known(vis: seq<Occ>, names: map<Token, string>) {
    forall i :: 0 <= i < |vis| ==> vis[i].token in names
  }

  /** The steps of the export loop over the visible occurrences; an
      occurrence without bodies is skipped. */
  function Steps(vis: seq<Occ>, subMesh: bool, mapper: map<Token, seq<Body>>, names: map<Token, string>,
                 fmt: string -> string): seq<Step>
    requires Known(vis, names)
    decreases |vis|
  {
    if |vis| == 0 then []
    else
      var o := vis[|vis| - 1];
      Steps(vis[..|vis| - 1], subMesh, mapper, names, fmt) + OccMore(o, subMesh, mapper, names, fmt)
  }

  /** The steps of one visible occurrence: none for an empty body list. */
  function OccMore(o: Occ, subMesh: bool, mapper: map<Token, seq<Body>>, names: map<Token, string>,
                   fmt: string -> string): seq<Step>
    requires o.token in names
  {
    if Bodies.BodiesOf(mapper, o.token) == [] then [] else OccSteps(fmt(names[o.token]), Bodies.BodiesOf(mapper, o.token), subMesh)
  }

  /** The formatted names of the bodies exported on their own, in order. */
  function StepNames(steps: seq<Step>, fmt: string -> string): seq<string>
    decreases |steps|
  {
    if |steps| == 0 then []
    else
      var s := steps[|steps| - 1];
      StepNames(steps[..|steps| - 1], fmt) + (if s.Part? then [fmt(s.body.name)] else [])
  }

  /** The export request of a step, `seen` being the body names numbered
      before it: a whole mesh goes to `<dir>/<occ>.stl`, a body to
      `<dir>/<occ>_<body>_<k>` where k counts the earlier bodies of that
      name. */
  function ExportOf(s: Step, seen: seq<string>, fmt: string -> string, meshDir: string): Export {
    match s
    case Whole(occName, bodies) => ComponentStl(PathJoin(meshDir, occName) + ".stl", bodies)
    case Part(occName, body) =>
      var n := fmt(body.name);
      BodyStl(PathJoin(meshDir, occName + "_" + n + "_" + Digits(multiset(seen)[n])), n, multiset(seen)[n], body)
  }

  /** The export requests of the steps, numbered by the body counter. */
  function Numbered(steps: seq<Step>, fmt: string -> string, meshDir: string): (r: seq<Export>)
    ensures |r| == |steps|
    decreases |steps|
  {
    if |steps| == 0 then []
    else
      var p := steps[..|steps| - 1];
      Numbered(p, fmt, meshDir) + [ExportOf(steps[|steps| - 1], StepNames(p, fmt), fmt, meshDir)]
  }

  /** The (body name, counter) pairs of the body exports, in order. */
  function BodyTags(es: seq<Export>): seq<(string, nat)>
    decreases |es|
  {
    if |es| == 0 then []
    else
      var e := es[|es| - 1];
      BodyTags(es[..|es| - 1]) + (if e.BodyStl? then [(e.bodyName, e.count)] else [])
  }

  /** The counters of the body exports are those a `Counter` hands out over
      the exported body names. */
  lemma {:induction false} NumberedTags(steps: seq<Step>, fmt: string -> string, meshDir: string)
    ensures BodyTags(Numbered(steps, fmt, meshDir)) == Counting.Tags(StepNames(steps, fmt))
    decreases |steps|
  {
    if |steps| > 0 {
      var p, s := steps[..|steps| - 1], steps[|steps| - 1];
      assert steps == p + [s];
      NumberedTags(p, fmt, meshDir);
      NumberedSnoc(p, s, fmt, meshDir);
      var e := ExportOf(s, StepNames(p, fmt), fmt, meshDir);
      BodyTagsSnoc(Numbered(p, fmt, meshDir), e);
      if s.Part? {
        var n := fmt(s.body.name);
        Counting.TagsPrefix(StepNames(p, fmt), n);
        assert e == BodyStl(e.file, n, multiset(StepNames(p, fmt))[n], s.body);
        assert StepNames(steps, fmt) == StepNames(p, fmt) + [n];
      } else {
        assert e.ComponentStl?;
        assert StepNames(steps, fmt) == StepNames(p, fmt);
      }
    }
  }

  lemma BodyTagsSnoc(es: seq<Export>, e: Export)
    ensures BodyTags(es + [e]) == BodyTags(es) + (if e.BodyStl? then [(e.bodyName, e.count)] else [])
  {
    assert (es + [e])[..|es|] == es;
  }

  /** For each body name the counters handed out are 0, 1, 2, ... in
      order, so no (body name, counter) pair is exported twice. */
  lemma CountersSequential(steps: seq<Step>, fmt: string -> string, meshDir: string, i: nat, j: nat)
    requires i < j < |BodyTags(Numbered(steps, fmt, meshDir))|
    ensures var tags := BodyTags(Numbered(steps, fmt, meshDir));
      && tags[i] != tags[j]
      && tags[j].1 == |Counting.Earlier(tags, j)|
  {
    NumberedTags(steps, fmt, meshDir);
    Counting.TagsNumbering(StepNames(steps, fmt), i, j);
  }

  /** Where the steps come from: every step belongs to a visible occurrence
      with a non-empty body list, named by its formatted name; a whole mesh
      copies exactly its visible bodies and a body step exports one of its
      visible bodies. Hidden occurrences, empty body lists and hidden
      bodies are never exported. */
  lemma {:induction false} StepsFromVisible(occs: seq<Occ>, vis: seq<Occ>, subMesh: bool, mapper: map<Token, seq<Body>>,
                                            names: map<Token, string>, fmt: string -> string, k: nat)
    requires Known(vis, names) && (forall o :: o in vis ==> o in occs && o.visible)
    requires k < |Steps(vis, subMesh, mapper, names, fmt)|
    ensures exists o :: o in occs && o.visible && StepOf(Steps(vis, subMesh, mapper, names, fmt)[k], o, subMesh, mapper, names, fmt)
    decreases |vis|
  {
    var p, o := vis[..|vis| - 1], vis[|vis| - 1];
    assert vis == p + [o];
    StepsSnoc(p, o, subMesh, mapper, names, fmt);
    var before := Steps(p, subMesh, mapper, names, fmt);
    if k < |before| {
      assert forall x :: x in p ==> x in vis;
      StepsFromVisible(occs, p, subMesh, mapper, names, fmt, k);
      var w :| w in occs && w.visible && StepOf(before[k], w, subMesh, mapper, names, fmt);
      assert Steps(vis, subMesh, mapper, names, fmt)[k] == before[k];
    } else {
      OccMoreFrom(o, subMesh, mapper, names, fmt, k - |before|);
      assert Steps(vis, subMesh, mapper, names, fmt)[k] == OccMore(o, subMesh, mapper, names, fmt)[k - |before|];
      assert o in vis;
    }
  }

  /** Step `s` belongs to occurrence `o`: `o` has a link name and a
      non-empty body list, the step carries its formatted name, a whole mesh
      copies exactly its visible bodies and a body step exports one of its
      visible bodies. */
  predicate StepOf(s: Step, o: Occ, subMesh: bool, mapper: map<Token, seq<Body>>, names: map<Token, string>,
                   fmt: string -> string) {
    var bs := Bodies.BodiesOf(mapper, o.token);
    && bs != [] && o.token in names && s.occName == fmt(names[o.token])
    && (s.Whole? ==> s.bodies == Bodies.Visible(bs))
    && (s.Part? ==> subMesh && s.body in bs && s.body.visible)
  }

  /** The steps of one occurrence come from its own bodies. */
  lemma OccMoreFrom(o: Occ, subMesh: bool, mapper: map<Token, seq<Body>>, names: map<Token, string>,
                    fmt: string -> string, k: nat)
    requires o.token in names
    requires k < |OccMore(o, subMesh, mapper, names, fmt)|
    ensures StepOf(OccMore(o, subMesh, mapper, names, fmt)[k], o, subMesh, mapper, names, fmt)
  {
    var v := Bodies.Visible(Bodies.BodiesOf(mapper, o.token));
    if k > 0 {
      PartStepAt(fmt(names[o.token]), v, k - 1);
      assert v[k - 1] in v;
    }
  }

  lemma {:induction false} PartStepAt(occName: string, bs: seq<Body>, i: nat)
    requires i < |bs|
    ensures PartSteps(occName, bs)[i] == Part(occName, bs[i])
    decreases |bs|
  {
    if i < |bs| - 1 {
      PartStepAt(occName, bs[..|bs| - 1], i);
    }
  }

  lemma StepsSnoc(vis: seq<Occ>, o: Occ, subMesh: bool, mapper: map<Token, seq<Body>>, names: map<Token, string>,
                  fmt: string -> string)
    requires Known(vis, names) && o.token in names
    ensures Known(vis + [o], names)
    ensures Steps(vis + [o], subMesh, mapper, names, fmt) == Steps(vis, subMesh, mapper, names, fmt) + OccMore(o, subMesh, mapper, names, fmt)
  {
    assert (vis + [o])[..|vis|] == vis;
  }

  lemma NumberedSnoc(steps: seq<Step>, s: Step, fmt: string -> string, meshDir: string)
    ensures Numbered(steps + [s], fmt, meshDir) == Numbered(steps, fmt, meshDir) + [ExportOf(s, StepNames(steps, fmt), fmt, meshDir)]
    ensures StepNames(steps + [s], fmt) == StepNames(steps, fmt) + (if s.Part? then [fmt(s.body.name)] else [])
  {
    assert (steps + [s])[..|steps|] == steps;
  }

  lemma VisibleSnoc(bs: seq<Body>, j: nat)
    requires j < |bs|
    ensures Bodies.Visible(bs[..j + 1]) == Bodies.Visible(bs[..j]) + (if bs[j].visible then [bs[j]] else [])
  {
    assert bs[..j + 1][..j] == bs[..j];
  }

  lemma PartsUpTo(done: seq<Step>, occName: string, bodies: seq<Body>, j: nat)
    requires j < |bodies|
    ensures done + PartSteps(occName, Bodies.Visible(bodies[..j + 1]))
         == done + PartSteps(occName, Bodies.Visible(bodies[..j])) + (if bodies[j].visible then [Part(occName, bodies[j])] else [])
  {
    var v := Bodies.Visible(bodies[..j]);
    VisibleSnoc(bodies, j);
    if bodies[j].visible {
      PartSnoc(occName, v, bodies[j]);
      assert done + (PartSteps(occName, v) + [Part(occName, bodies[j])])
          == done + PartSteps(occName, v) + [Part(occName, bodies[j])];
    } else {
      assert v + [] == v;
      assert done + PartSteps(occName, v) + [] == done + PartSteps(occName, v);
    }
  }

  lemma PartSnoc(occName: string, bs: seq<Body>, b: Body)
    ensures PartSteps(occName, bs + [b]) == PartSteps(occName, bs) + [Part(occName, b)]
  {
    assert (bs + [b])[..|bs|] == bs;
  }

  /** One body of the body loop: a visible body is exported on its own,
      numbered by the counter, which it keeps in step; a hidden one is
      skipped. */
  method ExportBody(meshDir: string, occName: string, body: Body, fmt: string -> string,
                    exports0: seq<Export>, bodyCount0: map<string, nat>, ghost before: seq<Step>)
    returns (exports: seq<Export>, bodyCount: map<string, nat>)
    requires exports0 == Numbered(before, fmt, meshDir) && Counting.Counts(bodyCount0, StepNames(before, fmt))
    ensures var after := before + (if body.visible then [Part(occName, body)] else []);
      exports == Numbered(after, fmt, meshDir) && Counting.Counts(bodyCount, StepNames(after, fmt))
  {
    exports, bodyCount := exports0, bodyCount0;
    if body.visible {
      NumberedSnoc(before, Part(occName, body), fmt, meshDir);
      var bodyName := fmt(body.name);
      var count := Counting.Get(bodyCount, bodyName);
      Counting.CountsBump(bodyCount, StepNames(before, fmt), bodyName);
      var saveName := PathJoin(meshDir, occName + "_" + bodyName + "_" + Digits(count));
      exports := exports + [BodyStl(saveName, bodyName, count, body)];
      bodyCount := bodyCount[bodyName := count + 1];
    } else {
      assert before + [] == before;
    }
  }

  /** The body loop of one occurrence: its visible bodies exported on
      their own, in order. */
  method ExportBodies(meshDir: string, occName: string, bodies: seq<Body>, fmt: string -> string,
                      exports0: seq<Export>, bodyCount0: map<string, nat>, ghost done: seq<Step>)
    returns (exports: seq<Export>, bodyCount: map<string, nat>)
    requires exports0 == Numbered(done, fmt, meshDir) && Counting.Counts(bodyCount0, StepNames(done, fmt))
    ensures exports == Numbered(done + PartSteps(occName, Bodies.Visible(bodies)), fmt, meshDir)
    ensures Counting.Counts(bodyCount, StepNames(done + PartSteps(occName, Bodies.Visible(bodies)), fmt))
  {
    exports, bodyCount := exports0, bodyCount0;
    ghost var steps := done;
    assert bodies[..0] == [];
    assert done + PartSteps(occName, Bodies.Visible(bodies[..0])) == done;
    for j := 0 to |bodies|
      invariant steps == done + PartSteps(occName, Bodies.Visible(bodies[..j]))
      invariant exports == Numbered(steps, fmt, meshDir) && Counting.Counts(bodyCount, StepNames(steps, fmt))
    {
      ghost var next := steps + (if bodies[j].visible then [Part(occName, bodies[j])] else []);
      PartsUpTo(done, occName, bodies, j);
      exports, bodyCount := ExportBody(meshDir, occName, bodies[j], fmt, exports, bodyCount, steps);
      steps := next;
    }
    assert bodies[..|bodies|] == bodies;
  }

  /** One occurrence of the export loop: nothing for an empty body list,
      else its whole mesh and, with per-body meshes, its bodies. */
  method ExportOcc(meshDir: string, o: Occ, subMesh: bool, mapper: map<Token, seq<Body>>, names: map<Token, string>,
                   fmt: string -> string, exports0: seq<Export>, bodyCount0: map<string, nat>, ghost done: seq<Step>)
    returns (exports: seq<Export>, bodyCount: map<string, nat>)
    requires o.token in names
    requires exports0 == Numbered(done, fmt, meshDir) && Counting.Counts(bodyCount0, StepNames(done, fmt))
    ensures var more := OccMore(o, subMesh, mapper, names, fmt);
      exports == Numbered(done + more, fmt, meshDir) && Counting.Counts(bodyCount, StepNames(done + more, fmt))
  {
    exports, bodyCount := exports0, bodyCount0;
    var occName := fmt(names[o.token]);
    var bodies := Bodies.BodiesOf(mapper, o.token);
    if bodies == [] {
      assert OccMore(o, subMesh, mapper, names, fmt) == [];
      assert done + [] == done;
    } else {
      assert OccMore(o, subMesh, mapper, names, fmt) == OccSteps(occName, bodies, subMesh);
      exports, bodyCount := ExportWhole(meshDir, occName, bodies, subMesh, fmt, exports, bodyCount, done);
    }
  }

  /** An occurrence with bodies: its whole mesh, then with per-body meshes
      its bodies one by one. */
  method ExportWhole(meshDir: string, occName: string, bodies: seq<Body>, subMesh: bool, fmt: string -> string,
                     exports0: seq<Export>, bodyCount0: map<string, nat>, ghost done: seq<Step>)
    returns (exports: seq<Export>, bodyCount: map<string, nat>)
    requires exports0 == Numbered(done, fmt, meshDir) && Counting.Counts(bodyCount0, StepNames(done, fmt))
    ensures var more := OccSteps(occName, bodies, subMesh);
      exports == Numbered(done + more, fmt, meshDir) && Counting.Counts(bodyCount, StepNames(done + more, fmt))
  {
    bodyCount := bodyCount0;
    var whole := Whole(occName, Bodies.Visible(bodies));
    NumberedSnoc(done, whole, fmt, meshDir);
    assert StepNames(done + [whole], fmt) == StepNames(done, fmt);
    exports := exports0 + [ComponentStl(PathJoin(meshDir, occName) + ".stl", Bodies.Visible(bodies))];
    OccStepsSplit(done, occName, bodies, subMesh);
    if subMesh {
      exports, bodyCount := ExportBodies(meshDir, occName, bodies, fmt, exports, bodyCount, done + [whole]);
    }
  }

  lemma OccStepsSplit(done: seq<Step>, occName: string, bodies: seq<Body>, subMesh: bool)
    ensures var whole := Whole(occName, Bodies.Visible(bodies));
      && (subMesh ==> done + OccSteps(occName, bodies, subMesh) == done + [whole] + PartSteps(occName, Bodies.Visible(bodies)))
      && (!subMesh ==> done + OccSteps(occName, bodies, subMesh) == done + [whole])
  {
  }

  /** The first loop of `visible_to_stl`: the occurrences whose light bulb
      is on, in order. */
  method VisibleComponents(occs: seq<Occ>) returns (visibleComponents: seq<Occ>)
    ensures visibleComponents == VisibleOccs(occs)
  {
    visibleComponents := [];
    for i := 0 to |occs|
      invariant visibleComponents == VisibleOccs(occs[..i])
    {
      assert occs[..i + 1][..i] == occs[..i];
      if occs[i].visible {
        visibleComponents := visibleComponents + [occs[i]];
      }
    }
    assert occs[..|occs|] == occs;
  }

  lemma KnownVisible(occs: seq<Occ>, names: map<Token, string>)
    requires forall i :: 0 <= i < |occs| ==> occs[i].token in names
    ensures Known(VisibleOccs(occs), names)
  {
    var vis := VisibleOccs(occs);
    forall i | 0 <= i < |vis|
      ensures vis[i].token in names
    {
      assert vis[i] in occs;
    }
  }

  /** `visible_to_stl`: the export requests, in order, made for the
      occurrences; the meshes go under `<saveDir>/meshes`. Creating the
      export document and writing the files are not modelled. */
  method VisibleToStl(saveDir: string, occs: seq<Occ>, subMesh: bool, mapper: map<Token, seq<Body>>,
                      names: map<Token, string>, fmt: string -> string) returns (exports: seq<Export>)
    requires forall i :: 0 <= i < |occs| ==> occs[i].token in names
    ensures Known(VisibleOccs(occs), names)
    ensures exports == Numbered(Steps(VisibleOccs(occs), subMesh, mapper, names, fmt), fmt, PathJoin(saveDir, "meshes"))
  {
    var meshDir := PathJoin(saveDir, "meshes");
    var visibleComponents := VisibleComponents(occs);
    KnownVisible(occs, names);
    var bodyCount: map<string, nat> := map[];
    exports := [];
    ghost var steps: seq<Step> := [];
    for i := 0 to |visibleComponents|
      invariant Known(visibleComponents[..i], names)
      invariant steps == Steps(visibleComponents[..i], subMesh, mapper, names, fmt)
      invariant exports == Numbered(steps, fmt, meshDir) && Counting.Counts(bodyCount, StepNames(steps, fmt))
    {
      exports, bodyCount := ExportNext(meshDir, visibleComponents, i, subMesh, mapper, names, fmt, exports, bodyCount, steps);
      steps := Steps(visibleComponents[..i + 1], subMesh, mapper, names, fmt);
    }
    assert visibleComponents[..|visibleComponents|] == visibleComponents;
  }

  /** One pass of the second loop of `visible_to_stl`: the exports of the
      next visible occurrence. */
  method ExportNext(meshDir: string, vis: seq<Occ>, i: nat, subMesh: bool, mapper: map<Token, seq<Body>>,
                    names: map<Token, string>, fmt: string -> string,
                    exports0: seq<Export>, bodyCount0: map<string, nat>, ghost done: seq<Step>)
    returns (exports: seq<Export>, bodyCount: map<string, nat>)
    requires i < |vis| && vis[i].token in names
    requires Known(vis[..i], names) && done == Steps(vis[..i], subMesh, mapper, names, fmt)
    requires exports0 == Numbered(done, fmt, meshDir) && Counting.Counts(bodyCount0, StepNames(done, fmt))
    ensures Known(vis[..i + 1], names)
    ensures var steps := Steps(vis[..i + 1], subMesh, mapper, names, fmt);
      exports == Numbered(steps, fmt, meshDir) && Counting.Counts(bodyCount, StepNames(steps, fmt))
  {
    StepsNext(vis, i, subMesh, mapper, names, fmt);
    exports, bodyCount := ExportOcc(meshDir, vis[i], subMesh, mapper, names, fmt, exports0, bodyCount0, done);
  }

  lemma StepsNext(vis: seq<Occ>, i: nat, subMesh: bool, mapper: map<Token, seq<Body>>, names: map<Token, string>,
                  fmt: string -> string)
    requires i < |vis| && vis[i].token in names && Known(vis[..i], names)
    ensures Known(vis[..i + 1], names)
    ensures Steps(vis[..i + 1], subMesh, mapper, names, fmt) == Steps(vis[..i], subMesh, mapper, names, fmt) + OccMore(vis[i], subMesh, mapper, names, fmt)
  {
    assert vis[..i + 1] == vis[..i] + [vis[i]];
    StepsSnoc(vis[..i], vis[i], subMesh, mapper, names, fmt);
  }

  // ---------------------------------------------------------------------
  // URDF and materials files

  const XmlHeader := "<?xml version=\"1.0\" ?>\n"

  /** The writes before the link fragments: header, robot element, the
      materials include and the dummy root link with its fixed joint to the
      base link. */
  function UrdfHead(name: string, baseName: string): seq<string> {
    [ XmlHeader,
      "<robot name=\"" + name + "\" xmlns:xacro=\"http://www.ros.org/wiki/xacro\">\n",
      "\n",
      "<xacro:include filename=\"$(find " + name + ")/urdf/materials.xacro\" />",
      "\n",
      "<link name=\"dummy_link\" />\n",
      "<joint name=\"dummy_link_joint\" type=\"fixed\">\n",
      "  <parent link=\"dummy_link\" />\n",
      "  <child link=\"" + baseName + "\" />\n",
      "</joint>\n" ]
  }

  /** Each fragment followed by a newline. */
  function Lines(xs: seq<string>): (r: seq<string>)
    decreases |xs|
  {
    if |xs| == 0 then [] else Lines(xs[..|xs| - 1]) + [xs[|xs| - 1] + "\n"]
  }

  lemma {:induction false} LinesAt(xs: seq<string>, i: nat)
    requires i < |xs|
    ensures |Lines(xs)| == |xs| && Lines(xs)[i] == xs[i] + "\n"
    decreases |xs|
  {
    LinesLength(xs);
    if i < |xs| - 1 {
      LinesAt(xs[..|xs| - 1], i);
    }
  }

  lemma {:induction false} LinesLength(xs: seq<string>)
    ensures |Lines(xs)| == |xs|
    decreases |xs|
  {
    if |xs| > 0 {
      LinesLength(xs[..|xs| - 1]);
    }
  }

  /** The writes of the URDF file: head, link fragments, joint fragments,
      closing tag. */
  function UrdfDocument(name: string, baseName: string, linkXml: seq<string>, jointXml: seq<string>): seq<string> {
    UrdfHead(name, baseName) + Lines(linkXml) + Lines(jointXml) + ["</robot>\n"]
  }

  /** The URDF file is written in a fixed order, each part once: header,
      robot element, include, the dummy link, its fixed joint whose child is
      the base link, every link fragment in dictionary order, every joint
      fragment in dictionary order, and the closing tag last. */
  lemma UrdfLayout(name: string, baseName: string, linkXml: seq<string>, jointXml: seq<string>)
    ensures var d := UrdfDocument(name, baseName, linkXml, jointXml);
      && |d| == 11 + |linkXml| + |jointXml|
      && d[0] == XmlHeader
      && d[1] == "<robot name=\"" + name + "\" xmlns:xacro=\"http://www.ros.org/wiki/xacro\">\n"
      && d[5] == "<link name=\"dummy_link\" />\n"
      && d[6] == "<joint name=\"dummy_link_joint\" type=\"fixed\">\n"
      && d[7] == "  <parent link=\"dummy_link\" />\n"
      && d[8] == "  <child link=\"" + baseName + "\" />\n"
      && (forall i :: 0 <= i < |linkXml| ==> d[10 + i] == linkXml[i] + "\n")
      && (forall j :: 0 <= j < |jointXml| ==> d[10 + |linkXml| + j] == jointXml[j] + "\n")
      && d[|d| - 1] == "</robot>\n"
  {
    var ls, js := Lines(linkXml), Lines(jointXml);
    LinesLength(linkXml);
    LinesLength(jointXml);
    forall i | 0 <= i < |linkXml|
      ensures ls[i] == linkXml[i] + "\n"
    {
      LinesAt(linkXml, i);
    }
    forall j | 0 <= j < |jointXml|
      ensures js[j] == jointXml[j] + "\n"
    {
      LinesAt(jointXml, j);
    }
  }

  /** The three writes of one material: its name and its `rgba` colour. */
  function MaterialLines(keys: seq<string>, colors: map<string, string>): (r: seq<string>)
    requires forall k :: k in keys ==> k in colors
    ensures |r| == 3 * |keys|
    decreases |keys|
  {
    if |keys| == 0 then []
    else
      var c := keys[|keys| - 1];
      MaterialLines(keys[..|keys| - 1], colors)
      + ["<material name=\"" + c + "\">\n", "  <color rgba=\"" + colors[c] + "\"/>\n", "</material>\n"]
  }

  function MaterialsHead(name: string): seq<string> {
    [XmlHeader, "<robot name=\"" + name + "\" xmlns:xacro=\"http://www.ros.org/wiki/xacro\" >\n", "\n"]
  }

  /** The writes of the materials file. */
  function MaterialsDocument(name: string, colorDict: ODict<string, string>): seq<string>
    requires Valid(colorDict)
  {
    MaterialsHead(name)
    + MaterialLines(colorDict.keys, colorDict.m)
    + ["\n", "</robot>\n"]
  }

  lemma {:induction false} MaterialLinesAt(keys: seq<string>, colors: map<string, string>, i: nat)
    requires (forall k :: k in keys ==> k in colors) && i < |keys|
    ensures var r := MaterialLines(keys, colors);
      && r[3 * i] == "<material name=\"" + keys[i] + "\">\n"
      && r[3 * i + 1] == "  <color rgba=\"" + colors[keys[i]] + "\"/>\n"
      && r[3 * i + 2] == "</material>\n"
    decreases |keys|
  {
    if i < |keys| - 1 {
      MaterialLinesAt(keys[..|keys| - 1], colors, i);
    }
  }

  /** The materials file has one material per colour of the dictionary, in
      its order, whose `rgba` is that colour's value. */
  lemma MaterialsLayout(name: string, colorDict: ODict<string, string>)
    requires Valid(colorDict)
    ensures var d, keys := MaterialsDocument(name, colorDict), colorDict.keys;
      && |d| == 5 + 3 * |keys|
      && d[0] == XmlHeader && d[|d| - 1] == "</robot>\n"
      && (forall i :: 0 <= i < |keys| ==>
            && d[3 + 3 * i] == "<material name=\"" + keys[i] + "\">\n"
            && d[4 + 3 * i] == "  <color rgba=\"" + colorDict.m[keys[i]] + "\"/>\n"
            && d[5 + 3 * i] == "</material>\n")
  {
    var keys := colorDict.keys;
    forall i | 0 <= i < |keys|
      ensures var r := MaterialLines(keys, colorDict.m);
        r[3 * i] == "<material name=\"" + keys[i] + "\">\n"
        && r[3 * i + 1] == "  <color rgba=\"" + colorDict.m[keys[i]] + "\"/>\n"
        && r[3 * i + 2] == "</material>\n"
    {
      MaterialLinesAt(keys, colorDict.m, i);
    }
  }

  /** `io.Writer`: writes the URDF and materials files of a resolved
      design. The files are the sequences of strings written to them; the
      fragments are the rendered links and joints in dictionary order, and
      their pretty-printing is not modelled. */
  class Writer {
    var saveDir: string
    const name: string
    const baseName: string
    const linkXml: seq<string>
    const jointXml: seq<string>
    const colorDict: ODict<string, string>
    var urdfFile: string
    var urdf: seq<string>
    var materialsFile: string
    var materials: seq<string>

    constructor(saveDir: string, name: string, baseName: string, linkXml: seq<string>, jointXml: seq<string>,
                colorDict: ODict<string, string>)
      ensures this.saveDir == saveDir && this.name == name && this.baseName == baseName
      ensures this.linkXml == linkXml && this.jointXml == jointXml && this.colorDict == colorDict
      ensures urdfFile == "" && urdf == [] && materialsFile == "" && materials == []
    {
      this.saveDir, this.name, this.baseName := saveDir, name, baseName;
      this.linkXml, this.jointXml, this.colorDict := linkXml, jointXml, colorDict;
      urdfFile, urdf, materialsFile, materials := "", [], "", [];
    }

    /** `write_link`: every link fragment, each on its own line. */
    method WriteLink()
      modifies this`urdf
      ensures urdf == old(urdf) + Lines(linkXml)
    {
      for i := 0 to |linkXml|
        invariant urdf == old(urdf) + Lines(linkXml[..i])
      {
        assert linkXml[..i + 1][..i] == linkXml[..i];
        urdf := urdf + [linkXml[i] + "\n"];
      }
      assert linkXml[..|linkXml|] == linkXml;
    }

    /** `write_joint`: every joint fragment, each on its own line. */
    method WriteJoint()
      modifies this`urdf
      ensures urdf == old(urdf) + Lines(jointXml)
    {
      for i := 0 to |jointXml|
        invariant urdf == old(urdf) + Lines(jointXml[..i])
      {
        assert jointXml[..i + 1][..i] == jointXml[..i];
        urdf := urdf + [jointXml[i] + "\n"];
      }
      assert jointXml[..|jointXml|] == jointXml;
    }

    /** `write_urdf`: the `urdf` folder under the save directory, the
        `<name>.xacro` file written from scratch, then the materials file. */
    method WriteUrdf()
      requires Valid(colorDict)
      modifies this`saveDir, this`urdfFile, this`urdf, this`materialsFile, this`materials
      ensures saveDir == PathJoin(old(saveDir), "urdf")
      ensures urdfFile == PathJoin(saveDir, name + ".xacro") && materialsFile == PathJoin(saveDir, "materials.xacro")
      ensures urdf == UrdfDocument(name, baseName, linkXml, jointXml)
      ensures materials == MaterialsDocument(name, colorDict)
    {
      saveDir := PathJoin(saveDir, "urdf");
      urdfFile := PathJoin(saveDir, name + ".xacro");
      var materialFileName := PathJoin(saveDir, "materials.xacro");
      urdf := UrdfHead(name, baseName);
      WriteLink();
      WriteJoint();
      urdf := urdf + ["</robot>\n"];
      WriteMaterialsXacro(materialFileName);
    }

    /** `write_materials_xacro`: one material per colour, in dictionary order. */
    method WriteMaterialsXacro(materialFileName: string)
      requires Valid(colorDict)
      modifies this`materialsFile, this`materials
      ensures materialsFile == materialFileName
      ensures materials == MaterialsDocument(name, colorDict)
    {
      materials := MaterialsHead(name);
      var keys := colorDict.keys;
      for i := 0 to |keys|
        invariant materials == MaterialsHead(name) + MaterialLines(keys[..i], colorDict.m)
      {
        MaterialLinesSnoc(keys, colorDict.m, i);
        var color := keys[i];
        materials := materials + ["<material name=\"" + color + "\">\n"];
        materials := materials + ["  <color rgba=\"" + colorDict.m[color] + "\"/>\n"];
        materials := materials + ["</material>\n"];
      }
      assert keys[..|keys|] == keys;
      materials := materials + ["\n"];
      materials := materials + ["</robot>\n"];
      materialsFile := materialFileName;
    }
  }

  lemma MaterialLinesSnoc(keys: seq<string>, colors: map<string, string>, i: nat)
    requires (forall k :: k in keys ==> k in colors) && i < |keys|
    ensures MaterialLines(keys[..i + 1], colors) == MaterialLines(keys[..i], colors)
      + ["<material name=\"" + keys[i] + "\">\n", "  <color rgba=\"" + colors[keys[i]] + "\"/>\n", "</material>\n"]
  {
    assert keys[..i + 1][..i] == keys[..i];
  }

  // ---------------------------------------------------------------------
  // Package templates

  const Placeholder := "fusion2urdf"

  /** The project line a build file gets for the package. */
  function ProjectLine(pkg: string): string {
    "project(" + pkg + ")\n"
  }

  function CMakeLine(line: string, pkg: string): string {
    if Contains(line, "project(fusion2urdf)") then ProjectLine(pkg) else line
  }

  /** `update_cmakelists`: the lines of `CMakeLists.txt` after the rewrite. */
  function UpdateCMakeLists(lines: seq<string>, pkg: string): (r: seq<string>)
    ensures |r| == |lines|
    ensures forall i :: 0 <= i < |lines| ==>
      r[i] == (if Contains(lines[i], "project(fusion2urdf)") then ProjectLine(pkg) else lines[i])
  {
    seq(|lines|, i requires 0 <= i < |lines| => CMakeLine(lines[i], pkg))
  }

  /** Rewriting a build file twice is rewriting it once; and unless the
      package's own project line names the template project, no line names
      it afterwards. */
  lemma CMakeListsRewrite(lines: seq<string>, pkg: string)
    ensures UpdateCMakeLists(UpdateCMakeLists(lines, pkg), pkg) == UpdateCMakeLists(lines, pkg)
    ensures !Contains(ProjectLine(pkg), "project(fusion2urdf)") ==>
      forall i :: 0 <= i < |lines| ==> !Contains(UpdateCMakeLists(lines, pkg)[i], "project(fusion2urdf)")
  {
  }

  function PackageNameLine(line: string, pkg: string): string {
    if Contains(line, Placeholder) then Replace(line, Placeholder, pkg) else line
  }

  /** The containment test only saves work: a line without the template
      name is what replacing every occurrence would give anyway. */
  lemma PackageNameLineIsReplace(line: string, pkg: string)
    ensures PackageNameLine(line, pkg) == Replace(line, Placeholder, pkg)
  {
    if !Contains(line, Placeholder) {
      ReplaceAbsent(line, Placeholder, pkg);
    }
  }

  /** `update_package_name`: the lines of a launch file, each with every
      occurrence of the template package name replaced. */
  function UpdatePackageName(lines: seq<string>, pkg: string): (r: seq<string>)
    ensures |r| == |lines|
    ensures forall i :: 0 <= i < |lines| ==> r[i] == Replace(lines[i], Placeholder, pkg)
    ensures forall i :: 0 <= i < |lines| ==> !Contains(lines[i], Placeholder) ==> r[i] == lines[i]
  {
    assert forall i :: 0 <= i < |lines| ==> PackageNameLine(lines[i], pkg) == Replace(lines[i], Placeholder, pkg) by {
      forall i | 0 <= i < |lines| {
        PackageNameLineIsReplace(lines[i], pkg);
      }
    }
    seq(|lines|, i requires 0 <= i < |lines| => PackageNameLine(lines[i], pkg))
  }

  /** Renaming to the template name itself changes nothing. */
  lemma PackageNameToTemplate(lines: seq<string>)
    ensures UpdatePackageName(lines, Placeholder) == lines
  {
    forall i | 0 <= i < |lines|
      ensures UpdatePackageName(lines, Placeholder)[i] == lines[i]
    {
      ReplaceSelf(lines[i], Placeholder);
    }
  }

  function NameLine(pkg: string): string {
    "  <name>" + pkg + "</name>\n"
  }

  function DescriptionLine(pkg: string): string {
    "<description>The " + pkg + " package</description>\n"
  }

  function PackageXmlLine(line: string, pkg: string): string {
    if Contains(line, "<name>") then NameLine(pkg)
    else if Contains(line, "<description>") then DescriptionLine(pkg)
    else line
  }

  /** `update_package_xml`: the lines of `package.xml` after the rewrite. A
      `<name>` line becomes the package's name line, even when it also holds
      a `<description>`; a `<description>` line without `<name>` becomes the
      package's description; every other line stays. */
  function UpdatePackageXml(lines: seq<string>, pkg: string): (r: seq<string>)
    ensures |r| == |lines|
    ensures forall i :: 0 <= i < |lines| ==>
      && (Contains(lines[i], "<name>") ==> r[i] == NameLine(pkg))
      && (!Contains(lines[i], "<name>") && Contains(lines[i], "<description>") ==> r[i] == DescriptionLine(pkg))
      && (!Contains(lines[i], "<name>") && !Contains(lines[i], "<description>") ==> r[i] == lines[i])
  {
    seq(|lines|, i requires 0 <= i < |lines| => PackageXmlLine(lines[i], pkg))
  }

  /** A second rewrite changes nothing unless the description names a
      `<name>`. */
  lemma PackageXmlRewrite(lines: seq<string>, pkg: string)
    ensures !Contains(DescriptionLine(pkg), "<name>") ==>
      UpdatePackageXml(UpdatePackageXml(lines, pkg), pkg) == UpdatePackageXml(lines, pkg)
  {
    var r := UpdatePackageXml(lines, pkg);
    if !Contains(DescriptionLine(pkg), "<name>") {
      NameLineTagged(pkg);
      DescriptionLineTagged(pkg);
      forall i | 0 <= i < |lines|
        ensures UpdatePackageXml(r, pkg)[i] == r[i]
      {
      }
    }
  }

  lemma NameLineTagged(pkg: string)
    ensures Contains(NameLine(pkg), "<name>")
  {
    ContainsIff(NameLine(pkg), "<name>");
    assert OccursAt(NameLine(pkg), "<name>", 2);
  }

  lemma DescriptionLineTagged(pkg: string)
    ensures Contains(DescriptionLine(pkg), "<description>")
  {
    ContainsIff(DescriptionLine(pkg), "<description>");
    assert OccursAt(DescriptionLine(pkg), "<description>", 0);
  }
}
