# fusion360descriptor: a verified model of the URDF exporter's core

This project models the core of the Fusion 360 URDF exporter in Dafny 4.11.
The exporter reads a CAD assembly with occurrences, bodies, joints and rigid
groups, and writes a robot description in URDF. The model covers four parts.

- **The resolver (`Configurator`).**
  - It keeps a naming registry for links (`get_name`) and picks the grounded base link (`_base`).
  - It turns host joints and rigid groups into joint records (`_joints`): the health filter, the parent/child order flag, the origin coincidence check, the limit defaults, and n-1 fixed joints per rigid group of n.
  - It collects materials (`_materials` and `__get_appearance`).
  - `_build` names the bodies with a per-name counter, then runs a breadth-first search from `base_link` over the joint records to place every link and emit the URDF joints and links, then runs the final sanity check.
- **The serializers (`parts.Joint.joint_xml`, `parts.Link.link_xml`).** The URDF fragments are modelled as element trees: which sub-elements a fragment has, and what their attributes hold.
- **The settings (`manager.Manager.__init__`, `_set_dir`).** These cover unit factors, accuracy levels, the top-level keys of the YAML configuration and its defaults, and the package directory.
- **The output side (`io`).**
  - The STL export requests of `visible_to_stl`, with the per-body-name mesh counter.
  - The order in which `Writer` writes the URDF and materials files.
  - The three line rewrites of the package templates.

### Modules

The modules follow the source.
- `Scene` models the `Hierarchy` class as a `SceneTree` class with child and parent maps.
- `Geometry` models `get_origin` and `close_enough`.
- `JointRecords` holds the per-joint decisions of `_joints`.
- `Bodies` models the body-naming pass.
- `Kinematics` models the breadth-first search.
- `Parser` holds the `Configurator` class, whose tables are fields the methods update in place.
- `Parts`, `Manager` and `Io` model the other three files.
- Supporting modules:
  - `OrderedDict`: Python's insertion-ordered dictionary.
  - `Counting`: `collections.Counter`.
  - `Text`: `in`, `str.replace`, `str.split`, decimal `str(int)`.
  - `Paths`: POSIX `os.path.join`.
  - `Utils`: `rename_if_duplicate`.
  - `Host`: the values read from the CAD host.
  - `Wrappers`: `Option` and `Result`.

### Abstractions

- **Host objects.** They become values: an occurrence is a token with a name, flags, a pose, an appearance and its bodies.
- **Poses.** They are opaque.
- **Emitted frames.** They are kept symbolic: a joint origin is "the parent's link origin seen from the child's", and a link's visual origin is "the inverse of its link origin".
- **Coordinates and unit factors.** They are exact reals.
- **Helpers whose code is not part of this model.** These are `utils.format_name`, `utils.convert_german` and the printing of a float. They are function parameters `fmt`, `german` and `show`.

## Model

| member | source | states |
|---|---|---|
| Scene.SceneTree.AddChild | Descriptor/core/parser.py:43-45 | the child is appended to the parent's child list and linked to the parent; the forest invariant (parents and child lists agree, depth grows by one) is kept |
| Scene.SceneTree.AllChildren | Descriptor/core/parser.py:50-66 | the work-list loop returns exactly the set of nodes strictly below n, never n itself |
| Scene.SceneTree.NotOwnDescendant | Descriptor/core/parser.py:50-66 | no node is among its own descendants |
| Scene.SceneTree.AllParents | Descriptor/core/parser.py:117-130 | the loop returns the ancestor chain of n, from its parent up to the root |
| Scene.SceneTree.AncestorsChain | Descriptor/core/parser.py:117-130 | the ancestor chain starts at the parent, links each entry to the next, ends at a node without a parent, and is as long as the node's depth |
| Scene.SceneTree.Traverse | Descriptor/core/parser.py:143-176 | a node is created for every occurrence and sub-occurrence, each linked below the node it was traversed under; the last top-level occurrence is returned; an empty list fails the assertion |
| Scene.WithLinksTop | Descriptor/core/parser.py:169-175 | with distinct tokens, every top-level occurrence ends up linked to the parent it was traversed under |
| Geometry.GetOriginLeaf | Descriptor/core/parser.py:178-190 | get_origin depends only on the innermost reference: it yields a point exactly for a vector or point, a ValueError exactly for an unexpected object, and a host failure exactly when the host fails |
| Geometry.CloseEnoughSymmetric | Descriptor/core/parser.py:230-244 | close_enough(a, b) equals close_enough(b, a), in its value and in its failures |
| Geometry.CloseEnoughReflexive | Descriptor/core/parser.py:230-244 | with a positive tolerance every numeric value is close to itself |
| Geometry.PointsAsLists | Descriptor/core/parser.py:239-242 | vectors and points are compared as the lists of their coordinates, which never fails |
| Geometry.MixedKindsFail | Descriptor/core/parser.py:231-244 | comparing a float with anything that is not a float is an error |
| JointRecords.KindAt | Descriptor/core/parser.py:194-195 | indexing the kind table succeeds exactly for ordinals -7..6, as Python list indexing does, and yields the table entry for 0..6 |
| JointRecords.SideOrigin | Descriptor/core/parser.py:419-426 | a runtime error of the host while reading a side's origin means no origin; only the ValueError of get_origin escapes |
| JointRecords.ScreenFilters | Descriptor/core/parser.py:395-414 | suppressed and rolled-back joints are skipped; any other unhealthy state is fatal; a healthy joint whose token or motion cannot be read is skipped before the kind table is consulted; a kind ordinal outside the table is then fatal, even when the occurrences are unreadable; a joint whose occurrences cannot be read is skipped after that; a passing joint has its kind from the table and the origins get_origin reports |
| JointRecords.RecordAccepts | Descriptor/core/parser.py:431-456 | a screened joint is rejected exactly when the order flag is invalid, or when a non-fixed joint lacks origin one, has a non-coinciding origin two, or has disabled limits; the record bears its name, and the order flag ('p','c') keeps the sides while ('c','p') swaps them |
| JointRecords.RecordLimits | Descriptor/core/parser.py:447-487 | a fixed joint keeps the record defaults; a non-fixed joint sits at origin one; revolute with equal limits gets ±3.14159, revolute otherwise its own limits, slider limits are scaled by cm, any other motion has a zero axis and zero limits |
| JointRecords.KeptMembers | Descriptor/core/parser.py:395-414 | a host joint is kept exactly when it is in the list and passes the screen |
| JointRecords.GroupPairs | Descriptor/core/parser.py:495-507 | a rigid group of n > 0 occurrences yields n-1 pairs, pair k being (first occurrence, occurrence k+1); an empty group yields none |
| JointRecords.AllGroupPairsCount | Descriptor/core/parser.py:492-507 | all groups together yield n-1 fixed joints per group of n |
| Utils.RenameIfDuplicate | Descriptor/core/parser.py:334 | the name returned is not already taken, and a free name is returned unchanged |
| OrderedDict.Put | Descriptor/core/parser.py:489 | dictionary assignment: the new mapping is the old one updated at k, and k keeps its position if present or is appended if new |
| Counting.TagsDistinct | Descriptor/core/parser.py:604-606 | no (name, counter) tag is handed out twice |
| Counting.TagsSequential | Descriptor/core/parser.py:604-606 | the counter a name receives is the number of its earlier occurrences: 0, 1, 2, ... |
| Text.ContainsIff | Descriptor/core/io.py:301 | `p in s` holds exactly when p occurs at some position of s |
| Text.FirstWord | Descriptor/core/parser.py:311-313 | `split()[0]` succeeds exactly when the string has a non-blank character, and then is a non-empty run of non-blank characters standing after nothing but whitespace and followed by whitespace or the end, that is, the first word; blank is Python's `str.isspace` set |
| Bodies.Visible | Descriptor/core/parser.py:597-599 | the visible bodies are exactly the bodies with the light bulb on |
| Bodies.VisibleConcat | Descriptor/core/parser.py:597-599 | filtering keeps order and multiplicity: the visible bodies of a + b are those of a followed by those of b |
| Bodies.FileBodies | Descriptor/core/parser.py:596-609 | the inner loop files each visible body under the link name and keeps the counter and both body tables equal to their specification over the bodies filed |
| Bodies.FileBody | Descriptor/core/parser.py:597-609 | one pass: a visible body is filed with its mesh name; a hidden one changes nothing |
| Bodies.MeshTagsDistinct | Descriptor/core/parser.py:604-608 | no two filed bodies get the same (body name, number) pair |
| Bodies.GroupBodiesUnder | Descriptor/core/parser.py:602 | body_dict lists under each link name exactly the bodies filed under it, in order, and has an entry only for links with bodies |
| Bodies.BodyItemsHas | Descriptor/core/parser.py:588-602 | every visible body of every occurrence is filed under the formatted link name of the occurrence |
| Kinematics.Incidence | Descriptor/core/parser.py:611-614 | the adjacency lists of the joint records: under each link name the keys of exactly the records touching it, parent side first, in record order |
| Kinematics.AddIncident | Descriptor/core/parser.py:613-614 | one record's key is appended under its parent, then under its child |
| Kinematics.IncidentMembers | Descriptor/core/parser.py:612-614 | a key is listed under a link exactly when its record has that link as parent or child |
| Kinematics.AddLink | Descriptor/core/parser.py:509-528 | the link named after the occurrence, placed by the inverse of that name's link origin, is stored under its name |
| Kinematics.Visit | Descriptor/core/parser.py:624-673 | after one listed joint of a boundary link is looked at, its far end is grounded or newly placed, nothing placed is lost, and the search invariant holds |
| Kinematics.Place | Descriptor/core/parser.py:638-673 | placing a link: it joins the new boundary one level below, gets its link origin from the joint, and the joint (from the current boundary node) and the link are emitted |
| Kinematics.VisitKeeps | Descriptor/core/parser.py:626-673 | placing across one joint keeps the tree invariant and the level structure |
| Kinematics.ExpandNode | Descriptor/core/parser.py:624-673 | after all the joints of one boundary link are visited, every joint touching it leads into the placed links |
| Kinematics.ExpandLevel | Descriptor/core/parser.py:623-674 | after one level, every joint touching a grounded link leads to a grounded or newly placed link |
| Kinematics.NextLevel | Descriptor/core/parser.py:621-676 | one pass of the level loop: the new links are grounded and become the boundary, and fewer links are left to place unless the level placed nothing |
| Kinematics.Grow | Descriptor/core/parser.py:620-676 | the level loop terminates with the tree invariant and with the grounded set closed under the joint records |
| Kinematics.Search | Descriptor/core/parser.py:615-676 | the search from the base link returns a grown tree whose grounded set is closed under the joints |
| Kinematics.SearchStart | Descriptor/core/parser.py:615-620 | the search starts from the base link alone, at level 0, at its own placement |
| Kinematics.LevelDone | Descriptor/core/parser.py:675-676 | a finished level becomes the next boundary; the set of links left to place shrinks unless the level was empty |
| Kinematics.SearchDone | Descriptor/core/parser.py:621 | when a level places nothing, the grounded set is closed under the joint records |
| Kinematics.GrownHangs | Descriptor/core/parser.py:626-673 | each grounded link other than the base is the child of the joint that placed it, which hangs from a grounded link one level up |
| Kinematics.PathTo | Descriptor/core/parser.py:615-676 | each grounded link hangs from the base by a chain of emitted joints, one per level |
| Kinematics.ClosedReaches | Descriptor/core/parser.py:621-676 | a set of links closed under the joints contains every link a walk from it reaches |
| Kinematics.SearchReach | Descriptor/core/parser.py:615-676 | the search places exactly the links reachable from the base link: every link reachable over the joint records is grounded, and every grounded link hangs from the base by emitted joints |
| Parser.Configurator.constructor | Descriptor/core/parser.py:197-226 | a new resolver keeps its scale and cm, has the coincidence tolerance eps with eps * scale = 1e-7, the parent-first order flag and empty tables, and sets the link scale text to the printed scale |
| Parser.Configurator.GetName | Descriptor/core/parser.py:331-337 | a known token returns its cached name and changes nothing; a new token gets a fresh deduplicated name recorded in both maps; names and tokens stay one to one |
| Parser.Configurator.Base | Descriptor/core/parser.py:315-329 | passes exactly when some occurrence is grounded and registers the first grounded one as "base_link"; otherwise aborts with nothing registered |
| Parser.Configurator.AddHostJoint | Descriptor/core/parser.py:395-489 | one host joint is fatal exactly when the screen aborts or it is not accepted; a skipped joint changes nothing; an accepted one appends its record under a fresh key |
| Parser.Configurator.HostJointAt | Descriptor/core/parser.py:395-489 | joint i is fatal, or its record follows the records of the kept joints before it |
| Parser.Configurator.AddHostJoints | Descriptor/core/parser.py:395-489 | passes exactly when no host joint is fatal, and then holds one record per kept joint, in order, after the existing ones |
| Parser.Configurator.AddPair | Descriptor/core/parser.py:495-507 | one pass of a group's loop: the fixed record from the group's first occurrence to occurrence i, under a fresh group name |
| Parser.Configurator.AddGroup | Descriptor/core/parser.py:493-507 | a rigid group appends one fixed record per pair (first occurrence, later occurrence), in order |
| Parser.Configurator.AddGroups | Descriptor/core/parser.py:492-507 | all rigid groups append their fixed records, group after group |
| Parser.Configurator.Joints | Descriptor/core/parser.py:390-507 | passes exactly when no host joint is fatal; then the records are those of the kept host joints, then n-1 fixed records per group of n, and every record is stored under its own name between named links |
| Parser.Configurator.GetAppearance | Descriptor/core/parser.py:530-549 | the result is the chosen appearance's name and its first colour property, present exactly when that appearance has a colour property |
| Parser.BodiesShadowMaterial | Descriptor/core/parser.py:533-541 | an occurrence with bodies, none with an appearance, gets no colour, whatever its component's material says |
| Parser.MaterialWithoutBodies | Descriptor/core/parser.py:540-541 | an occurrence without bodies and without its own appearance takes its material's appearance |
| Parser.Configurator.MaterialOf | Descriptor/core/parser.py:555-566 | one occurrence adds its colour, if any, and writes its material under its formatted link name |
| Parser.Configurator.Materials | Descriptor/core/parser.py:551-566 | the colour table is the default silver then each occurrence's colour, and the material table maps each formatted link name to its material; every material named is a colour of the table |
| Parser.WithMaterialsLast | Descriptor/core/parser.py:565-566 | every visited occurrence has a material entry, and the last occurrence formatted to a name decides it |
| Parser.ColorsCoverMaterials | Descriptor/core/parser.py:553-566 | every material handed out is a key of the colour table, and the silver default always is |
| Parser.Configurator.NameBodies | Descriptor/core/parser.py:584-609 | body_dict and body_dict_urdf are the visible bodies of every occurrence, and their numbered mesh names, grouped by formatted link name |
| Parser.Configurator.NameOccBodies | Descriptor/core/parser.py:588-609 | one occurrence of the naming loop: its link name, then its visible bodies filed |
| Parser.Configurator.Tables | Descriptor/core/parser.py:573-609 | fails exactly when the root name has no first word and then changes nothing; otherwise sets the mesh folder `<word>/meshes/` and the body tables |
| Parser.Configurator.Tree | Descriptor/core/parser.py:611-676 | the search's links, joints and origins are stored, satisfying the tree invariant |
| Parser.Configurator.Sanity | Descriptor/core/parser.py:678-693 | the two sets are the selected occurrences without a link name and those whose link was not placed; the check passes exactly when both are empty |
| Parser.SanityAsWrittenMeaning | Descriptor/core/parser.py:679-693 | with the guard as written, the check passes exactly when the root's first word names no link with bodies, or every visible occurrence has a link name that the search placed |
| Parser.SanityCatches | Descriptor/core/parser.py:679-693 | with the intended guard, a passing check means every visible occurrence with a visible body had its link placed |
| Parser.SanityCatchesAll | Descriptor/core/parser.py:679-693 | the same for all occurrences and bodies at once |
| Parser.SanityAsWrittenMisses | Descriptor/core/parser.py:682 | as written, a visible occurrence with bodies whose link was never placed passes the check |
| Parser.SanityAsWrittenVacuous | Descriptor/core/parser.py:682 | as written, whenever the root's first word names no link with bodies, the check passes whatever the search placed |
| Parser.Configurator.TreeAndSanity | Descriptor/core/parser.py:611-693 | the search, then the sanity check with the guard as written: it passes exactly when the root's first word names no link with bodies, or every visible occurrence had its link placed |
| Parser.Configurator.Build | Descriptor/core/parser.py:569-693 | without a first word in the root name nothing changes and the build fails; otherwise the tables, the tree, and the sanity verdict with the guard as written: success exactly when that word names no link with bodies, or every visible occurrence had its link placed |
| Parts.Shows | Descriptor/core/parts.py:65 | each number is printed, in order |
| Parts.JointElements | Descriptor/core/parts.py:61-81 | a joint fragment has name/type, then origin with the spaced xyz/rpy, parent, child; then an axis exactly for revolute, continuous and prismatic, and last a limit with effort and velocity 100.0 exactly for revolute and prismatic |
| Parts.JointRerender | Descriptor/core/parts.py:68-73 | with an idempotent formatter, rendering again after the parent and child are overwritten yields the same fragment |
| Parts.Joint.JointXml | Descriptor/core/parts.py:55-87 | the fragment of the joint's fields; parent and child are overwritten with their formatted names, and the fragment is cached |
| Parts.SubVisuals | Descriptor/core/parts.py:198-208 | one silver visual per body mesh, at `package://<folder><mesh>.stl` with the link scale text three times as its scale, in order |
| Parts.SubCollisions | Descriptor/core/parts.py:221-228 | one collision per body mesh, in order |
| Parts.LinkOutcome | Descriptor/core/parts.py:175-217 | a link renders to nothing exactly when no bodies are filed under its formatted name; rendering fails exactly for an inertia tensor shorter than six or a visible whole-link mesh without a material |
| Parts.LinkElements | Descriptor/core/parts.py:181-235 | a rendered link is named by its formatted name and opens with the inertial block (centre of mass, mass, ixx..ixz from entries 0..5); with per-body meshes, the silver visuals then the collisions, one per mesh; otherwise one visual with its material and one collision when visible, none when hidden; every mesh carries the link scale text three times |
| Parts.LinkRerender | Descriptor/core/parts.py:175 | with an idempotent formatter, rendering again after the name is overwritten yields the same fragment |
| Parts.Link.LinkXml | Descriptor/core/parts.py:170-240 | the fragment of the link's fields; the name becomes its formatted version; the cache is set only when a fragment is produced |
| Parts.MeshVisuals | Descriptor/core/parts.py:199-208 | the visuals loop builds exactly the per-body visuals |
| Parts.MeshCollisions | Descriptor/core/parts.py:222-228 | the collisions loop builds exactly the per-body collisions |
| Manager.UnitTables | Descriptor/core/manager.py:51-61 | a document unit is accepted exactly when it is mm, cm or m, with the same factor as the target table; an unknown target unit means 1.0 |
| Manager.Scale | Descriptor/core/manager.py:63 | scale times the target factor is the document factor |
| Manager.Cm | Descriptor/core/manager.py:64 | cm times the target factor is 0.01 |
| Manager.CmIsCentimetreScale | Descriptor/core/manager.py:63-64 | cm is the scale of a centimetre document, whatever the target |
| Manager.ScaleComposes | Descriptor/core/manager.py:63 | converting a to b then b to c is converting a to c |
| Manager.AccuracyLevels | Descriptor/core/manager.py:66-78 | exactly Low, Medium and High are understood, giving three different accuracies; High asks for the very high inertia accuracy |
| Manager.ConfigAccepted | Descriptor/core/manager.py:90-101 | a configuration is accepted exactly when there is no file, or its document is a dictionary with whitelisted keys only |
| Manager.ConfigDefaults | Descriptor/core/manager.py:102-106 | each of the five read settings is its entry, or its default (NameMap {}, MergeLinks {}, Extras [], Locations {}, Root None) when absent |
| Manager.ConfigIgnoresEchoedKeys | Descriptor/core/manager.py:95-106 | the seven other whitelisted keys are accepted but never read |
| Manager.Manager.SetDir | Descriptor/core/manager.py:111-122 | the save directory becomes `<dir>/<robot>_description` |
| Manager.NewManager | Descriptor/core/manager.py:24-109 | fails exactly for an unknown document unit or a refused configuration, in that order and with that error; otherwise all settings hold the unit factors, accuracy levels, configuration and package directory |
| Manager.SaveDirNamesPackage | Descriptor/core/manager.py:120-122 | the package directory ends with the robot's name followed by `_description` |
| Io.VisibleOccs | Descriptor/core/io.py:53-58 | the visible occurrences are exactly those with the light bulb on |
| Io.VisibleOccsConcat | Descriptor/core/io.py:53-58 | filtering keeps order and multiplicity: the visible occurrences of a + b are those of a followed by those of b |
| Io.VisibleComponents | Descriptor/core/io.py:53-58 | the first loop collects the visible occurrences, in order |
| Io.NumberedTags | Descriptor/core/io.py:78-88 | the counters of the body exports are those a Counter hands out over the exported body names |
| Io.CountersSequential | Descriptor/core/io.py:61-88 | for each body name the counters are 0, 1, 2, ... in order, so no (body name, counter) pair is exported twice |
| Io.StepsFromVisible | Descriptor/core/io.py:54-88 | every export belongs to a visible occurrence with a non-empty body list; a whole mesh copies exactly its visible bodies (io.py:114-115) and a body export is one of its visible bodies |
| Io.OccMoreFrom | Descriptor/core/io.py:67-88 | the exports of one occurrence come from its own bodies |
| Io.ExportBody | Descriptor/core/io.py:78-88 | a visible body is exported on its own under `<occ>_<body>_<k>`, with the counter kept in step; a hidden body is skipped |
| Io.ExportBodies | Descriptor/core/io.py:76-88 | the body loop exports the visible bodies of one occurrence, in order |
| Io.ExportWhole | Descriptor/core/io.py:72-88 | an occurrence with bodies: its whole mesh, then, with per-body meshes, its bodies |
| Io.ExportOcc | Descriptor/core/io.py:63-88 | one occurrence: nothing for an empty body list, else its whole mesh and its bodies |
| Io.ExportNext | Descriptor/core/io.py:63-88 | one pass of the export loop keeps the exports and the counter equal to their specification over the occurrences seen |
| Io.VisibleToStl | Descriptor/core/io.py:10-89 | the export requests are the numbered steps of the visible occurrences, under `<saveDir>/meshes` |
| Io.UrdfLayout | Descriptor/core/io.py:181-200 | the URDF is header, robot element, include, dummy link, its fixed joint to the base link, the link fragments in order, the joint fragments in order, and the closing tag last |
| Io.MaterialsLayout | Descriptor/core/io.py:204-214 | the materials file has one material per colour key, in order, whose rgba is that key's value |
| Io.Writer.WriteLink | Descriptor/core/io.py:151-155 | every link fragment is appended, each followed by a newline |
| Io.Writer.WriteJoint | Descriptor/core/io.py:157-161 | every joint fragment is appended, each followed by a newline |
| Io.Writer.WriteUrdf | Descriptor/core/io.py:164-202 | the save directory moves to `urdf`; the `<name>.xacro` file holds the URDF document and `materials.xacro` the materials document |
| Io.Writer.WriteMaterialsXacro | Descriptor/core/io.py:204-214 | the materials file is written from scratch with one material per colour |
| Io.UpdateCMakeLists | Descriptor/core/io.py:297-304 | a line containing `project(fusion2urdf)` becomes `project(<pkg>)`; every other line stays |
| Io.CMakeListsRewrite | Descriptor/core/io.py:297-304 | rewriting twice is rewriting once, and no line names the template project afterwards unless the package's own line does |
| Io.UpdatePackageName | Descriptor/core/io.py:306-312 | the rewrite keeps the number of lines, and each line is the original with every occurrence of `fusion2urdf` replaced by the package name; a line without the template name stays |
| Io.PackageNameToTemplate | Descriptor/core/io.py:306-312 | renaming to `fusion2urdf` itself changes nothing |
| Io.UpdatePackageXml | Descriptor/core/io.py:314-324 | the rewrite keeps the number of lines; a `<name>` line becomes the name line even if it holds a `<description>`; else a `<description>` line becomes the description; every other line stays |
| Io.PackageXmlRewrite | Descriptor/core/io.py:314-324 | a second rewrite changes nothing unless the description line itself holds `<name>` |

## Left out

- Host I/O and plumbing are not modelled: creating directories, `copytree`, `fileinput`, reading and writing YAML, opening files, and the STL export calls of `component_exporter` and `body_exporter`. Each file is the sequence of strings written to it.
- The export manager, the new document and the temporary B-rep copies in `visible_to_stl` are left out. The model produces the export requests instead.
- Pretty-printing through `minidom` is left out. Fragments are element trees.
- `Joint.transmission_xml` is left out, because no writer uses it.
- `write_hello_pybullet`, `copy_ros2`, `copy_gazebo`, `copy_moveit`, `copy_package`, `Manager.preview` and `Manager.run` are left out. They are file copies and orchestration over host calls.
- `parse()`, `get_scene_configuration` and `get_joint_preview` only sequence modelled operations, so they are left out.
- The manager's orchestration does not match the signatures of the files modelled here, and it is left out with them. `Manager.preview` and `Manager.run` pass nine arguments to `Configurator` (manager.py:136, 154), whose `__init__` takes three besides itself (parser.py:197). `run` reads `config.locs` and `config.tree_str` (manager.py:169, 176), which the resolver never defines. It calls `visible_to_stl` with seven arguments where io.py:10-16 declares nine. Each component is modelled by its own signature.
- `get_sub_bodies` (parser.py:261-289) is left out. The body mapper it builds is an input of the naming loop and of the STL pass. A missing entry reads as an empty list, as with the source's `defaultdict`.
- `_get_inertia`, the physical properties, and the matrix operations `invert`, `transformBy`, `setWithCoordinateSystem`, `so3_to_euler` and `origin2center_of_mass` are floating-point host computations, so they are left out. Link and joint frames are symbolic, and mass and inertia are inputs of the link fields.
- `Hierarchy.get_flat_body` is left out. Its traversal recomputes descendant sets and has no clear intended result.
- The `breakLink` side effect in `traverse`, console printing, `utils.log` and the timing of `utils.fatal` are left out. A fatal error is a failing outcome.
- `ui.py` is not part of this model.
- `utils.format_name`, `utils.convert_german` and float printing are parameters. `utils.rename_if_duplicate` is not part of this model. `Utils.RenameIfDuplicate` is a stand-in that promises only that the name is free, and that a free name is kept; its `_k` suffix scheme is this model's choice.
- Text.IsWhitespace: the characters are those of Python 3's `str.isspace`, listed by code point; the Unicode database is not modelled.
- `os.path.join` is modelled for POSIX paths only.
- Kinematics.AddLink: the source builds `parts.Link(...)` without the `visible` argument that `Link.__init__` requires (parser.py:518-527 against parts.py:130), so as written it raises TypeError on the first link, the base link. The model takes the construction as succeeding and stores the link entry.
- Parser.Configurator.Build: stores the links, joints and origins of the search in place of the previous tables. The source adds them to the dictionaries it created empty in `__init__`, which is the same for a single export.
- Parser.Configurator.constructor: requires a non-zero scale. The source divides by the scale and would raise ZeroDivisionError, which the manager never lets happen, since every unit factor is positive.
- Parser.Configurator.Sanity: the error message holds only the two headers. The offending component names are joined in set order, which Python does not fix.
- Parser.Configurator.Materials: the rgba string is printed by the `show` parameter, not by Python's float formatting.
- Manager.NewManager: the error messages do not list the offending keys. The document is given as a value, so malformed YAML is not modelled.
- Io.VisibleToStl: requires a link name for every occurrence. The source raises KeyError for an occurrence that has none.
- Io.Writer.WriteUrdf: takes the rendered link and joint fragments and the name of the base link as inputs. It does not call the renderers or `get_name` itself.

## Findings

| source | as written | input that shows it | evidently intended | confidence | as-written member | corrected member |
|---|---|---|---|---|---|---|
| Descriptor/core/parser.py:682 | the sanity check guards every component with `self.body_dict.get(self.name)`, the body list of the root component's first word, which is the same for every component and normally no link name | a visible component "arm" with a visible body whose link the search never placed, in a design whose root is named "robot": the check passes | guard each component by its own link's bodies, `body_dict.get(format_name(links_by_token[token]))`, so a component with visible bodies that is left out of the tree is reported | not executed | Parser.SanityAsWrittenMisses | Parser.SanityCatchesAll |

`Parser.Configurator.Build` and `Parser.Configurator.TreeAndSanity` keep the guard as written, so their contracts describe what the exporter does today. `Parser.SanityCatches` and `Parser.SanityCatchesAll` are stated for the corrected guard `Intended`; `Parser.SanityPasses` takes the guard as a parameter.
