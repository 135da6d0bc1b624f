/** The Xcode backend itself: the object that owns the id registry, the
    reference tables and the open project file, and writes the project
    section by section. */
module Backend {
  import opened Wrappers
  import opened Strings
  import opened Dicts
  import opened Paths
  import opened Build
  import opened NativeTargets
  import opened Flags
  import opened Registry
  import opened Ids
  import opened FileMaps
  import opened Writer
  import opened Settings
  import opened Sections

  /** `s.replace('-', '')` */
  function WithoutDashes(s: string): (r: string)
    ensures '-' !in r && |r| <= |s|
  {
    if s == [] then [] else (if s[0] == '-' then [] else [s[0]]) + WithoutDashes(s[1..])
  }

  /** The project object's id: the configuration's GUID without its dashes,
      cut to 24 characters. */
  function ProjectUid(guid: string): (r: string)
    ensures '-' !in r && |r| <= 24
    ensures StartsWith(WithoutDashes(guid), r)
    ensures |WithoutDashes(guid)| >= 24 ==> |r| == 24
  {
    var d := WithoutDashes(guid);
    if |d| <= 24 then d else d[..24]
  }

  lemma {:induction false} WithoutDashesAppend(a: string, b: string)
    ensures WithoutDashes(a + b) == WithoutDashes(a) + WithoutDashes(b)
  {
    if a != [] {
      WithoutDashesAppend(a[1..], b);
      assert (a + b)[1..] == a[1..] + b;
    } else {
      assert a + b == b;
    }
  }

  lemma {:induction false} WithoutDashesPlain(a: string)
    requires '-' !in a
    ensures WithoutDashes(a) == a
  {
    if a != [] {
      WithoutDashesPlain(a[1..]);
      assert a == [a[0]] + a[1..];
    }
  }

  lemma DashJoin(x: string, y: string)
    requires '-' !in y
    ensures WithoutDashes(x + "-" + y) == WithoutDashes(x) + y
  {
    var xd := x + "-";
    assert WithoutDashes("-") == [] by {
      assert "-"[1..] == [];
    }
    WithoutDashesAppend(x, "-");
    assert WithoutDashes(xd) == WithoutDashes(x);
    WithoutDashesAppend(xd, y);
    WithoutDashesPlain(y);
  }

  /** For a GUID in the usual 8-4-4-4-12 layout the project id is its first
      24 digits: the first four groups and the first four digits of the last. */
  lemma ProjectUidOfCanonicalGuid(a: string, b: string, c: string, d: string, e: string)
    requires |a| == 8 && |b| == 4 && |c| == 4 && |d| == 4 && |e| == 12
    requires '-' !in a && '-' !in b && '-' !in c && '-' !in d && '-' !in e
    ensures ProjectUid(a + "-" + b + "-" + c + "-" + d + "-" + e) == a + b + c + d + e[..4]
  {
    var g1 := a + "-" + b;
    var g2 := g1 + "-" + c;
    var g3 := g2 + "-" + d;
    var g4 := g3 + "-" + e;
    WithoutDashesPlain(a);
    DashJoin(a, b);
    DashJoin(g1, c);
    DashJoin(g2, d);
    DashJoin(g3, e);
    var w := a + b + c + d + e;
    assert WithoutDashes(g4) == w;
    assert w[..24] == a + b + c + d + e[..4];
  }

  /** Where each table's serials start, in the order the builders run;
      `next` is the first serial after them all. */
  datatype Windows = Windows(files: nat, builds: nat, style: nat, phases: nat, confs: nat, conflists: nat,
                             project: nat, buildall: nat, test: nat, natives: nat, sourcePhases: nat,
                             deps: nat, pbxDeps: nat, proxies: nat, next: nat)

  class XcodeBackend {
    const build: BuildGraph
    const env: Environment
    const reg: IdRegistry
    const out: OutputWriter
    const projectUid: string
    const projectConflist: Uid
    const maingroupId: Uid
    const allId: Uid
    const allBuildconfId: Uid
    const testId: Uid
    const testCommandId: Uid
    const testBuildconfId: Uid

    var filemap: Dict<string, Uid>
    var targetFilemap: Dict<string, Uid>
    var buildmap: Dict<string, Uid>
    var buildstylemap: Dict<string, Uid>
    var buildphasemap: Dict<string, Uid>
    var buildconfmap: Dict<string, Dict<string, Uid>>
    var buildconflistmap: Dict<string, Uid>
    var projectConfigurations: Dict<string, Uid>
    var buildallConfigurations: Dict<string, Uid>
    var testConfigurations: Dict<string, Uid>
    var nativeTargets: Dict<string, Uid>
    var sourcePhase: Dict<string, Uid>
    var targetDependencyMap: Dict<(string, string), Uid>
    var pbxDepMap: Dict<string, Uid>
    var containerproxyMap: Dict<string, Uid>

    /** The inputs are well formed: proper dictionaries throughout. */
    ghost predicate Valid()
    {
      ValidGraph(build) && env.compilers.Valid()
    }

    /** The target names, in the build's order. */
    function Names(): seq<string>
    {
      build.targets.keys
    }

    /** The constructor draws the project's seven fixed ids, in this order,
        from a fresh registry; the project id comes from the GUID instead. */
    constructor (g: BuildGraph, e: Environment)
      ensures build == g && env == e && fresh(reg) && fresh(out)
      ensures projectUid == ProjectUid(e.guid)
      ensures [projectConflist, maingroupId, allId, allBuildconfId, testId, testCommandId, testBuildconfId]
           == [Uid(0), Uid(1), Uid(2), Uid(3), Uid(4), Uid(5), Uid(6)]
      ensures reg.nextSerial == 7 && forall u :: u in FixedIds() ==> u.serial < reg.nextSerial
      ensures out.ofile == [] && out.indentLevel == 0
    {
      var r := new IdRegistry();
      var conflist := r.GenId();
      var maingroup := r.GenId();
      var all := r.GenId();
      var allBuildconf := r.GenId();
      var test := r.GenId();
      var testCommand := r.GenId();
      var testBuildconf := r.GenId();
      build, env, reg := g, e, r;
      projectUid := ProjectUid(e.guid);
      projectConflist, maingroupId, allId, allBuildconfId := conflist, maingroup, all, allBuildconf;
      testId, testCommandId, testBuildconfId := test, testCommand, testBuildconf;
      out := new OutputWriter();
    }

    // ----- the reference tables -----

    /** A table with one entry per target, in target order. */
    ghost predicate PerTarget<V>(m: Dict<string, V>)
    {
      m.Valid() && m.keys == build.targets.keys
    }

    /** The `i`-th target's id in `m` is the `i`-th serial from `lo`. */
    ghost predicate NamedFrom(m: Dict<string, Uid>, lo: nat)
    {
      Distinct(Names()) && m == Tabulate(Names(), Serials(lo, |Names()|))
    }

    /** Such a table has one entry per target. */
    lemma NamedFromShape(m: Dict<string, Uid>, lo: nat)
      requires Valid() && NamedFrom(m, lo)
      ensures PerTarget(m)
      ensures forall i :: 0 <= i < |Names()| ==> m.items[Names()[i]] == Uid(lo + i)
    {
      TabulateShape(Names(), Serials(lo, |Names()|));
    }

    /** A table holding one id, under `'debug'`. */
    ghost predicate DebugKeyed(m: Dict<string, Uid>)
    {
      m.Valid() && m.keys == [Debug] && Debug in m.items
    }

    /** The path tables are keyed by every source and object path of the build. */
    ghost predicate FileMapsBuilt()
      reads this`filemap, this`targetFilemap, this`buildmap
    {
      FileTables(filemap, targetFilemap, buildmap)
    }

    /** A source-and-object path table listing the paths in the order the
        build graph first names them, a table of the targets that have
        sources, and a second path table, all proper dictionaries. */
    ghost predicate FileTables(files: Dict<string, Uid>, targetFiles: Dict<string, Uid>, builds: Dict<string, Uid>)
    {
      && Valid()
      && files.Valid() && targetFiles.Valid() && builds.Valid()
      && (forall p :: p in files.items <==> p in GraphPaths(build, Names()))
      && files.keys == AppendUnique([], GraphPaths(build, Names()))
      && targetFiles.keys == WithSources(build, Names())
      && GraphJoins(build, Names())
      && (forall p :: p in builds.items <==> p in GraphPaths(build, Names()))
    }

    /** The build style, phase and configuration tables. */
    ghost predicate ConfigMapsBuilt()
      reads this`buildstylemap, this`buildphasemap, this`buildconfmap, this`buildconflistmap
    {
      ConfigTables(buildstylemap, buildphasemap, buildconfmap, buildconflistmap)
    }

    /** A build style table under `'debug'`, per-target phase and configuration
        list tables, and a per-target table of `'debug'` configurations. */
    ghost predicate ConfigTables(style: Dict<string, Uid>, phase: Dict<string, Uid>,
                                 conf: Dict<string, Dict<string, Uid>>, conflist: Dict<string, Uid>)
    {
      && DebugKeyed(style)
      && PerTarget(phase) && PerTarget(conflist) && PerTarget(conf)
      && (forall i :: 0 <= i < |Names()| ==> DebugKeyed(conf.items[Names()[i]]))
    }

    /** The configuration tables of the project and the aggregate targets. */
    ghost predicate AggregateMapsBuilt()
      reads this`projectConfigurations, this`buildallConfigurations, this`testConfigurations
    {
      AggregateTables(projectConfigurations, buildallConfigurations, testConfigurations)
    }

    /** Three tables, each keyed by `'debug'` alone. */
    ghost predicate AggregateTables(project: Dict<string, Uid>, buildall: Dict<string, Uid>, test: Dict<string, Uid>)
    {
      DebugKeyed(project) && DebugKeyed(buildall) && DebugKeyed(test)
    }

    /** The per-target object tables. */
    ghost predicate TargetMapsBuilt()
      reads this`nativeTargets, this`sourcePhase, this`targetDependencyMap, this`pbxDepMap, this`containerproxyMap
    {
      TargetTables(nativeTargets, sourcePhase, targetDependencyMap, pbxDepMap, containerproxyMap)
    }

    /** Per-target native target, sources phase, dependency and proxy tables,
        and a dependency table keyed by every (target, dependency) pair. */
    ghost predicate TargetTables(native: Dict<string, Uid>, phase: Dict<string, Uid>,
                                 deps: Dict<(string, string), Uid>, pbxDep: Dict<string, Uid>, proxy: Dict<string, Uid>)
    {
      && Valid()
      && PerTarget(native) && PerTarget(phase) && PerTarget(pbxDep) && PerTarget(proxy)
      && (forall k :: k in deps.items <==> k in GraphDependencyKeys(build, Names()))
    }

    /** A table of consecutive serials has one entry per target. */
    lemma NamedPerTarget(m: Dict<string, Uid>, lo: nat)
      requires Valid() && NamedFrom(m, lo)
      ensures PerTarget(m)
    {
      TabulateShape(Names(), Serials(lo, |Names()|));
    }

    /** So has a table of `'debug'` tables, each keyed by `'debug'` alone. */
    lemma DebugPerTarget(conf: Dict<string, Dict<string, Uid>>, lo: nat)
      requires Valid() && Distinct(Names()) && conf == Tabulate(Names(), DebugSerials(lo, |Names()|))
      ensures PerTarget(conf)
      ensures forall i :: 0 <= i < |Names()| ==> DebugKeyed(conf.items[Names()[i]])
    {
      TabulateShape(Names(), DebugSerials(lo, |Names()|));
      forall i | 0 <= i < |Names()|
        ensures DebugKeyed(conf.items[Names()[i]])
      {
        assert conf.items[Names()[i]] == DebugOnly(Uid(lo + i));
        DebugOnlyShape(Uid(lo + i));
      }
    }

    /** What the map builders leave behind: every table keyed as the source keys it. */
    ghost predicate MapsBuilt()
      reads this
    {
      Valid() && FileMapsBuilt() && ConfigMapsBuilt() && AggregateMapsBuilt() && TargetMapsBuilt()
    }

    /** `generate_filemap`: an id per source and object path, and one per
        target that has sources. */
    method GenerateFilemap()
      requires Valid()
      modifies this`filemap, this`targetFilemap, reg
      ensures old(reg.nextSerial) <= reg.nextSerial
      ensures filemap.Valid() && targetFilemap.Valid()
      ensures IssuedTogether(filemap.items, targetFilemap.items, old(reg.nextSerial), reg.nextSerial)
      ensures forall p :: p in filemap.items <==> p in GraphPaths(build, Names())
      ensures filemap.keys == AppendUnique([], GraphPaths(build, Names()))
      ensures targetFilemap.keys == WithSources(build, Names())
    {
      filemap, targetFilemap := FileMaps.GenerateFilemap(reg, build);
    }

    /** `generate_buildmap`: an id per source and object path, unless a
        target with a source has an object entry that is not a path. */
    method GenerateBuildmap() returns (r: Outcome)
      requires Valid()
      modifies this`buildmap, reg
      ensures old(reg.nextSerial) <= reg.nextSerial
      ensures buildmap.Valid() && IssuedTogether(buildmap.items, NoIds, old(reg.nextSerial), reg.nextSerial)
      ensures r.Pass? <==> GraphJoins(build, Names())
      ensures r.Fail? ==> r.error.TypeError?
      ensures r.Pass? ==> forall p :: p in buildmap.items <==> p in GraphPaths(build, Names())
    {
      r, buildmap := FileMaps.GenerateBuildmap(reg, build);
    }

    /** `generate_buildstylemap` */
    method GenerateBuildstylemap()
      modifies this`buildstylemap, reg
      ensures reg.nextSerial == old(reg.nextSerial) + 1
      ensures buildstylemap == DebugOnly(Uid(old(reg.nextSerial)))
    {
      buildstylemap := DebugIds(reg);
    }

    /** `generate_build_phase_map` */
    method GenerateBuildPhaseMap()
      requires Valid()
      modifies this`buildphasemap, reg
      ensures reg.nextSerial == old(reg.nextSerial) + |Names()|
      ensures NamedFrom(buildphasemap, old(reg.nextSerial))
    {
      buildphasemap := PerNameIds(reg, build.targets.keys);
    }

    /** `generate_build_configuration_map` */
    method GenerateBuildConfigurationMap()
      requires Valid()
      modifies this`buildconfmap, reg
      ensures reg.nextSerial == old(reg.nextSerial) + |Names()|
      ensures buildconfmap == Tabulate(Names(), DebugSerials(old(reg.nextSerial), |Names()|))
    {
      buildconfmap := PerNameDebugIds(reg, build.targets.keys);
    }

    /** `generate_build_configurationlist_map` */
    method GenerateBuildConfigurationlistMap()
      requires Valid()
      modifies this`buildconflistmap, reg
      ensures reg.nextSerial == old(reg.nextSerial) + |Names()|
      ensures NamedFrom(buildconflistmap, old(reg.nextSerial))
    {
      buildconflistmap := PerNameIds(reg, build.targets.keys);
    }

    /** `generate_project_configurations_map` */
    method GenerateProjectConfigurationsMap()
      modifies this`projectConfigurations, reg
      ensures reg.nextSerial == old(reg.nextSerial) + 1
      ensures projectConfigurations == DebugOnly(Uid(old(reg.nextSerial)))
    {
      projectConfigurations := DebugIds(reg);
    }

    /** `generate_buildall_configurations_map` */
    method GenerateBuildallConfigurationsMap()
      modifies this`buildallConfigurations, reg
      ensures reg.nextSerial == old(reg.nextSerial) + 1
      ensures buildallConfigurations == DebugOnly(Uid(old(reg.nextSerial)))
    {
      buildallConfigurations := DebugIds(reg);
    }

    /** `generate_test_configurations_map` */
    method GenerateTestConfigurationsMap()
      modifies this`testConfigurations, reg
      ensures reg.nextSerial == old(reg.nextSerial) + 1
      ensures testConfigurations == DebugOnly(Uid(old(reg.nextSerial)))
    {
      testConfigurations := DebugIds(reg);
    }

    /** `generate_native_target_map` */
    method GenerateNativeTargetMap()
      requires Valid()
      modifies this`nativeTargets, reg
      ensures reg.nextSerial == old(reg.nextSerial) + |Names()|
      ensures NamedFrom(nativeTargets, old(reg.nextSerial))
    {
      nativeTargets := PerNameIds(reg, build.targets.keys);
    }

    /** `generate_source_phase_map` */
    method GenerateSourcePhaseMap()
      requires Valid()
      modifies this`sourcePhase, reg
      ensures reg.nextSerial == old(reg.nextSerial) + |Names()|
      ensures NamedFrom(sourcePhase, old(reg.nextSerial))
    {
      sourcePhase := PerNameIds(reg, build.targets.keys);
    }

    /** `generate_target_dependency_map`: an id per (target, dependency) pair. */
    method GenerateTargetDependencyMap()
      requires Valid()
      modifies this`targetDependencyMap, reg
      ensures old(reg.nextSerial) <= reg.nextSerial
      ensures targetDependencyMap.Valid()
      ensures IssuedTogether(targetDependencyMap.items, NoIds, old(reg.nextSerial), reg.nextSerial)
      ensures forall k :: k in targetDependencyMap.items <==> k in GraphDependencyKeys(build, Names())
    {
      targetDependencyMap := FileMaps.GenerateTargetDependencyMap(reg, build);
    }

    /** `generate_pbxdep_map` */
    method GeneratePbxdepMap()
      requires Valid()
      modifies this`pbxDepMap, reg
      ensures reg.nextSerial == old(reg.nextSerial) + |Names()|
      ensures NamedFrom(pbxDepMap, old(reg.nextSerial))
    {
      pbxDepMap := PerNameIds(reg, build.targets.keys);
    }

    /** `generate_containerproxy_map` */
    method GenerateContainerproxyMap()
      requires Valid()
      modifies this`containerproxyMap, reg
      ensures reg.nextSerial == old(reg.nextSerial) + |Names()|
      ensures NamedFrom(containerproxyMap, old(reg.nextSerial))
    {
      containerproxyMap := PerNameIds(reg, build.targets.keys);
    }

    /** The two path tables; building the second raises `TypeError` when a
        target with a source has an object entry that is not a path. */
    method GenerateFileMaps() returns (r: Outcome, ghost mid: nat)
      requires Valid()
      modifies this`filemap, this`targetFilemap, this`buildmap, reg
      ensures old(reg.nextSerial) <= mid <= reg.nextSerial
      ensures filemap.Valid() && targetFilemap.Valid() && buildmap.Valid()
      ensures IssuedTogether(filemap.items, targetFilemap.items, old(reg.nextSerial), mid)
      ensures IssuedTogether(buildmap.items, NoIds, mid, reg.nextSerial)
      ensures forall p :: p in filemap.items <==> p in GraphPaths(build, Names())
      ensures filemap.keys == AppendUnique([], GraphPaths(build, Names()))
      ensures targetFilemap.keys == WithSources(build, Names())
      ensures r.Pass? <==> GraphJoins(build, Names())
      ensures r.Fail? ==> r.error.TypeError?
      ensures r.Pass? ==> forall p :: p in buildmap.items <==> p in GraphPaths(build, Names())
      ensures r.Pass? ==> FileTables(filemap, targetFilemap, buildmap)
      ensures FilesIssued(filemap, targetFilemap, buildmap, old(reg.nextSerial), mid, reg.nextSerial)
    {
      GenerateFilemap();
      mid := reg.nextSerial;
      r := GenerateBuildmap();
    }

    /** The build style, phase, configuration and configuration list tables;
        `a`, `b` and `c` are where the last three tables' serials start. */
    method GenerateConfigurationMaps() returns (ghost a: nat, ghost b: nat, ghost c: nat)
      requires Valid()
      modifies this`buildstylemap, this`buildphasemap, this`buildconfmap, this`buildconflistmap, reg
      ensures ConfigsIssued(buildstylemap, buildphasemap, buildconfmap, buildconflistmap,
                            old(reg.nextSerial), a, b, c, reg.nextSerial)
      ensures ConfigTables(buildstylemap, buildphasemap, buildconfmap, buildconflistmap)
    {
      ghost var lo := reg.nextSerial;
      GenerateBuildstylemap();
      a := reg.nextSerial;
      GenerateBuildPhaseMap();
      b := reg.nextSerial;
      GenerateBuildConfigurationMap();
      c := reg.nextSerial;
      GenerateBuildConfigurationlistMap();
      assert ConfigTables(buildstylemap, buildphasemap, buildconfmap, buildconflistmap) by {
        DebugOnlyShape(Uid(lo));
        NamedPerTarget(buildphasemap, a);
        NamedPerTarget(buildconflistmap, c);
        DebugPerTarget(buildconfmap, b);
      }
    }

    /** The tables of the project's and the aggregate targets' configurations. */
    method GenerateAggregateMaps()
      modifies this`projectConfigurations, this`buildallConfigurations, this`testConfigurations, reg
      ensures AggregateTables(projectConfigurations, buildallConfigurations, testConfigurations)
      ensures AggregatesIssued(projectConfigurations, buildallConfigurations, testConfigurations,
                               old(reg.nextSerial), old(reg.nextSerial) + 1, old(reg.nextSerial) + 2, reg.nextSerial)
    {
      ghost var lo := reg.nextSerial;
      GenerateProjectConfigurationsMap();
      GenerateBuildallConfigurationsMap();
      GenerateTestConfigurationsMap();
      DebugOnlyShape(Uid(lo));
      DebugOnlyShape(Uid(lo + 1));
      DebugOnlyShape(Uid(lo + 2));
    }

    /** The per-target object tables; `a`, `mid`, `b` and `c` are where the
        tables after the first start drawing serials. */
    method GenerateTargetMaps() returns (ghost a: nat, ghost mid: nat, ghost b: nat, ghost c: nat)
      requires Valid()
      modifies this`nativeTargets, this`sourcePhase, this`targetDependencyMap, this`pbxDepMap, this`containerproxyMap, reg
      ensures TargetsIssued(nativeTargets, sourcePhase, targetDependencyMap, pbxDepMap, containerproxyMap,
                            old(reg.nextSerial), a, mid, b, c, reg.nextSerial)
      ensures TargetTables(nativeTargets, sourcePhase, targetDependencyMap, pbxDepMap, containerproxyMap)
    {
      ghost var lo := reg.nextSerial;
      GenerateNativeTargetMap();
      a := reg.nextSerial;
      GenerateSourcePhaseMap();
      mid := reg.nextSerial;
      GenerateTargetDependencyMap();
      b := reg.nextSerial;
      GeneratePbxdepMap();
      c := reg.nextSerial;
      GenerateContainerproxyMap();
      assert TargetTables(nativeTargets, sourcePhase, targetDependencyMap, pbxDepMap, containerproxyMap) by {
        NamedPerTarget(nativeTargets, lo);
        NamedPerTarget(sourcePhase, a);
        NamedPerTarget(pbxDepMap, b);
        NamedPerTarget(containerproxyMap, c);
      }
    }

    /** The two path tables drew their ids from `files` to `builds`, the
        second path table from `builds` to `style`. */
    ghost predicate FilesIssued(filemap: Dict<string, Uid>, targetFilemap: Dict<string, Uid>, buildmap: Dict<string, Uid>,
                                files: nat, builds: nat, style: nat)
    {
      && filemap.Valid() && targetFilemap.Valid() && buildmap.Valid()
      && IssuedTogether(filemap.items, targetFilemap.items, files, builds)
      && IssuedTogether(buildmap.items, NoIds, builds, style)
    }

    /** The build style table holds serial `style`; the phase, configuration
        and configuration list tables follow it, one serial per target each. */
    ghost predicate ConfigsIssued(buildstylemap: Dict<string, Uid>, buildphasemap: Dict<string, Uid>,
                                  buildconfmap: Dict<string, Dict<string, Uid>>, buildconflistmap: Dict<string, Uid>,
                                  style: nat, phases: nat, confs: nat, conflists: nat, project: nat)
    {
      && Distinct(Names())
      && phases == style + 1 && buildstylemap == DebugOnly(Uid(style))
      && confs == phases + |Names()| && NamedFrom(buildphasemap, phases)
      && conflists == confs + |Names()| && buildconfmap == Tabulate(Names(), DebugSerials(confs, |Names()|))
      && project == conflists + |Names()| && NamedFrom(buildconflistmap, conflists)
    }

    /** The three aggregate configuration tables hold one serial each, in turn. */
    ghost predicate AggregatesIssued(projectConfigurations: Dict<string, Uid>, buildallConfigurations: Dict<string, Uid>,
                                     testConfigurations: Dict<string, Uid>, project: nat, buildall: nat, test: nat, natives: nat)
    {
      && buildall == project + 1 && projectConfigurations == DebugOnly(Uid(project))
      && test == buildall + 1 && buildallConfigurations == DebugOnly(Uid(buildall))
      && natives == test + 1 && testConfigurations == DebugOnly(Uid(test))
    }

    /** The per-target object tables: one serial per target each, except the
        dependency table, which drew from `deps` to `pbxDeps`. */
    ghost predicate TargetsIssued(nativeTargets: Dict<string, Uid>, sourcePhase: Dict<string, Uid>,
                                  targetDependencyMap: Dict<(string, string), Uid>, pbxDepMap: Dict<string, Uid>,
                                  containerproxyMap: Dict<string, Uid>,
                                  natives: nat, sourcePhases: nat, deps: nat, pbxDeps: nat, proxies: nat, next: nat)
    {
      && sourcePhases == natives + |Names()| && NamedFrom(nativeTargets, natives)
      && deps == sourcePhases + |Names()| && NamedFrom(sourcePhase, sourcePhases)
      && targetDependencyMap.Valid() && IssuedTogether(targetDependencyMap.items, NoIds, deps, pbxDeps)
      && proxies == pbxDeps + |Names()| && NamedFrom(pbxDepMap, pbxDeps)
      && next == proxies + |Names()| && NamedFrom(containerproxyMap, proxies)
    }

    /** What the map builders leave behind, table by table, with the window
        of serials each one drew from: the windows start where `w` says, in
        the order the builders run, and each table keys its ids as its
        builder's contract states. */
    ghost predicate MapsIssued(w: Windows)
      reads this
    {
      && Valid() && Distinct(Names())
      && FilesIssued(filemap, targetFilemap, buildmap, w.files, w.builds, w.style)
      && ConfigsIssued(buildstylemap, buildphasemap, buildconfmap, buildconflistmap,
                       w.style, w.phases, w.confs, w.conflists, w.project)
      && AggregatesIssued(projectConfigurations, buildallConfigurations, testConfigurations,
                          w.project, w.buildall, w.test, w.natives)
      && TargetsIssued(nativeTargets, sourcePhase, targetDependencyMap, pbxDepMap, containerproxyMap,
                       w.natives, w.sourcePhases, w.deps, w.pbxDeps, w.proxies, w.next)
    }

    /** The first half of `generate`: the fourteen map builders, in order.
        Building `buildmap` raises `TypeError` when a target with a source
        has an object entry that is not a path, and then no later table is
        built. Otherwise every table is keyed as its builder promises and
        drew its ids from its own window, from `w.files` to `w.next`. */
    method GenerateMaps() returns (r: Outcome, ghost w: Windows)
      requires Valid()
      modifies this, reg
      ensures r.Pass? <==> GraphJoins(build, Names())
      ensures r.Fail? ==> r.error.TypeError?
      ensures r.Pass? ==> w.files == old(reg.nextSerial) && w.next == reg.nextSerial
      ensures r.Pass? ==> Valid() && Distinct(Names())
      ensures r.Pass? ==> FilesIssued(filemap, targetFilemap, buildmap, w.files, w.builds, w.style)
      ensures r.Pass? ==> ConfigsIssued(buildstylemap, buildphasemap, buildconfmap, buildconflistmap,
                                        w.style, w.phases, w.confs, w.conflists, w.project)
      ensures r.Pass? ==> AggregatesIssued(projectConfigurations, buildallConfigurations, testConfigurations,
                                           w.project, w.buildall, w.test, w.natives)
      ensures r.Pass? ==> TargetsIssued(nativeTargets, sourcePhase, targetDependencyMap, pbxDepMap, containerproxyMap,
                                        w.natives, w.sourcePhases, w.deps, w.pbxDeps, w.proxies, w.next)
      ensures r.Pass? ==> MapsIssued(w) && MapsBuilt()
      ensures r.Pass? ==> filemap.Valid() && targetFilemap.Valid() && buildstylemap.Valid() && nativeTargets.Valid()
      ensures r.Pass? && FixedBefore(FixedIds(), old(reg.nextSerial)) ==> ApartFromAll(FixedIds(), TableIds())
    {
      ghost var files := reg.nextSerial;
      ghost var builds;
      r, builds := GenerateFileMaps();
      w := Windows(files, builds, reg.nextSerial, reg.nextSerial, reg.nextSerial, reg.nextSerial, reg.nextSerial,
                   reg.nextSerial, reg.nextSerial, reg.nextSerial, reg.nextSerial, reg.nextSerial, reg.nextSerial,
                   reg.nextSerial, reg.nextSerial);
      if r.Fail? {
        return;
      }
      ghost var rest := GenerateObjectMaps();
      w := rest.(files := files, builds := builds);
      assert FileTables(filemap, targetFilemap, buildmap);
      if FixedBefore(FixedIds(), files) {
        AllFixedIdsApart(w);
      }
    }

    /** The tables after the path tables, in the order `generate` builds
        them: build styles, phases, configurations and configuration lists,
        then the aggregate targets' configurations, then the per-target
        object tables; their windows start at `w.style`. */
    method GenerateObjectMaps() returns (ghost w: Windows)
      requires Valid()
      modifies this`buildstylemap, this`buildphasemap, this`buildconfmap, this`buildconflistmap
      modifies this`projectConfigurations, this`buildallConfigurations, this`testConfigurations
      modifies this`nativeTargets, this`sourcePhase, this`targetDependencyMap, this`pbxDepMap, this`containerproxyMap, reg
      ensures w.style == old(reg.nextSerial) && w.next == reg.nextSerial
      ensures ConfigsIssued(buildstylemap, buildphasemap, buildconfmap, buildconflistmap,
                            w.style, w.phases, w.confs, w.conflists, w.project)
      ensures AggregatesIssued(projectConfigurations, buildallConfigurations, testConfigurations,
                               w.project, w.buildall, w.test, w.natives)
      ensures TargetsIssued(nativeTargets, sourcePhase, targetDependencyMap, pbxDepMap, containerproxyMap,
                            w.natives, w.sourcePhases, w.deps, w.pbxDeps, w.proxies, w.next)
      ensures ConfigTables(buildstylemap, buildphasemap, buildconfmap, buildconflistmap)
      ensures AggregateTables(projectConfigurations, buildallConfigurations, testConfigurations)
      ensures TargetTables(nativeTargets, sourcePhase, targetDependencyMap, pbxDepMap, containerproxyMap)
    {
      ghost var style := reg.nextSerial;
      ghost var phases, confs, conflists := GenerateConfigurationMaps();
      w := GenerateLaterMaps();
      w := w.(style := style, phases := phases, confs := confs, conflists := conflists);
    }

    /** The tables after the configuration lists: the aggregate targets'
        configurations, then the per-target object tables; their windows
        start at `w.project`. */
    method GenerateLaterMaps() returns (ghost w: Windows)
      requires Valid()
      modifies this`projectConfigurations, this`buildallConfigurations, this`testConfigurations
      modifies this`nativeTargets, this`sourcePhase, this`targetDependencyMap, this`pbxDepMap, this`containerproxyMap, reg
      ensures w.project == old(reg.nextSerial) && w.next == reg.nextSerial
      ensures AggregatesIssued(projectConfigurations, buildallConfigurations, testConfigurations,
                               w.project, w.buildall, w.test, w.natives)
      ensures TargetsIssued(nativeTargets, sourcePhase, targetDependencyMap, pbxDepMap, containerproxyMap,
                            w.natives, w.sourcePhases, w.deps, w.pbxDeps, w.proxies, w.next)
      ensures AggregateTables(projectConfigurations, buildallConfigurations, testConfigurations)
      ensures TargetTables(nativeTargets, sourcePhase, targetDependencyMap, pbxDepMap, containerproxyMap)
    {
      ghost var project := reg.nextSerial;
      GenerateAggregateMaps();
      ghost var natives := reg.nextSerial;
      ghost var sourcePhases, deps, pbxDeps, proxies := GenerateTargetMaps();
      w := Windows(0, 0, 0, 0, 0, 0, project, project + 1, project + 2,
                   natives, sourcePhases, deps, pbxDeps, proxies, reg.nextSerial);
    }

    /** The ids of every table, in the order the tables are built; the
        path table and the product table share the first window. */
    ghost function TableIds(): (ts: seq<set<Uid>>)
      reads this
      ensures |ts| == 14
    {
      [ filemap.items.Values + targetFilemap.items.Values, buildmap.items.Values, buildstylemap.items.Values,
        buildphasemap.items.Values, ConfIds(buildconfmap), buildconflistmap.items.Values,
        projectConfigurations.items.Values, buildallConfigurations.items.Values, testConfigurations.items.Values,
        nativeTargets.items.Values, sourcePhase.items.Values, targetDependencyMap.items.Values,
        pbxDepMap.items.Values, containerproxyMap.items.Values ]
    }

    /** Where the windows of `TableIds()` start, then where the last one ends. */
    ghost function Bounds(w: Windows): (bs: seq<nat>)
      ensures |bs| == 15 && bs[0] == w.files && bs[14] == w.next
    {
      [ w.files, w.builds, w.style, w.phases, w.confs, w.conflists, w.project, w.buildall, w.test,
        w.natives, w.sourcePhases, w.deps, w.pbxDeps, w.proxies, w.next ]
    }

    /** A per-target table of consecutive serials keeps to its window and
        gives different targets different ids. */
    lemma NamedWindow(m: Dict<string, Uid>, lo: nat)
      requires Valid() && NamedFrom(m, lo)
      ensures InWindow(m.items.Values, lo, lo + |Names()|) && Injective(m.items)
    {
      NamedFromShape(m, lo);
      ConsecutiveIds(m, m.items, lo);
    }

    /** A table of a single fresh id keeps to its one-serial window. */
    lemma DebugWindow(m: Dict<string, Uid>, serial: nat)
      requires m == DebugOnly(Uid(serial))
      ensures InWindow(m.items.Values, serial, serial + 1)
    {
      DebugOnlyShape(Uid(serial));
      forall u | u in m.items.Values
        ensures u == Uid(serial)
      {
        var k :| k in m.items && m.items[k] == u;
      }
    }

    /** A table filled from a window keeps to it. */
    lemma WithinWindow<K>(m: map<K, Uid>, lo: nat, hi: nat)
      requires Within(m, lo, hi)
      ensures InWindow(m.Values, lo, hi)
    {
      forall u | u in m.Values
        ensures lo <= u.serial < hi
      {
        var k :| k in m && m[k] == u;
      }
    }

    /** Each table keeps to its window, and the windows follow one another. */
    ghost predicate KeepWindows(w: Windows)
      reads this
    {
      && w.files <= w.builds <= w.style <= w.phases <= w.confs <= w.conflists <= w.project <= w.buildall
      && w.buildall <= w.test <= w.natives <= w.sourcePhases <= w.deps <= w.pbxDeps <= w.proxies <= w.next
      && InWindow(filemap.items.Values + targetFilemap.items.Values, w.files, w.builds)
      && InWindow(buildmap.items.Values, w.builds, w.style)
      && InWindow(buildstylemap.items.Values, w.style, w.phases)
      && InWindow(buildphasemap.items.Values, w.phases, w.confs)
      && InWindow(ConfIds(buildconfmap), w.confs, w.conflists)
      && InWindow(buildconflistmap.items.Values, w.conflists, w.project)
      && InWindow(projectConfigurations.items.Values, w.project, w.buildall)
      && InWindow(buildallConfigurations.items.Values, w.buildall, w.test)
      && InWindow(testConfigurations.items.Values, w.test, w.natives)
      && InWindow(nativeTargets.items.Values, w.natives, w.sourcePhases)
      && InWindow(sourcePhase.items.Values, w.sourcePhases, w.deps)
      && InWindow(targetDependencyMap.items.Values, w.deps, w.pbxDeps)
      && InWindow(pbxDepMap.items.Values, w.pbxDeps, w.proxies)
      && InWindow(containerproxyMap.items.Values, w.proxies, w.next)
    }

    /** After the map builders, every table keeps to its window. */
    lemma TablesKeepWindows(w: Windows)
      requires MapsIssued(w)
      ensures KeepWindows(w)
    {
      FilesKeepWindows(filemap, targetFilemap, buildmap, w.files, w.builds, w.style);
      ConfigsKeepWindows(buildstylemap, buildphasemap, buildconfmap, buildconflistmap,
                         w.style, w.phases, w.confs, w.conflists, w.project);
      AggregatesKeepWindows(projectConfigurations, buildallConfigurations, testConfigurations,
                            w.project, w.buildall, w.test, w.natives);
      TargetsKeepWindows(nativeTargets, sourcePhase, targetDependencyMap, pbxDepMap, containerproxyMap,
                         w.natives, w.sourcePhases, w.deps, w.pbxDeps, w.proxies, w.next);
    }

    /** The path tables keep to their windows. */
    lemma FilesKeepWindows(filemap: Dict<string, Uid>, targetFilemap: Dict<string, Uid>, buildmap: Dict<string, Uid>,
                           files: nat, builds: nat, style: nat)
      requires FilesIssued(filemap, targetFilemap, buildmap, files, builds, style)
      ensures files <= builds <= style
      ensures InWindow(filemap.items.Values + targetFilemap.items.Values, files, builds)
      ensures InWindow(buildmap.items.Values, builds, style)
    {
      WithinWindow(filemap.items, files, builds);
      WithinWindow(targetFilemap.items, files, builds);
      WithinWindow(buildmap.items, builds, style);
    }

    /** The build style, phase, configuration and configuration list tables
        keep to their windows. */
    lemma ConfigsKeepWindows(buildstylemap: Dict<string, Uid>, buildphasemap: Dict<string, Uid>,
                             buildconfmap: Dict<string, Dict<string, Uid>>, buildconflistmap: Dict<string, Uid>,
                             style: nat, phases: nat, confs: nat, conflists: nat, project: nat)
      requires Valid()
      requires ConfigsIssued(buildstylemap, buildphasemap, buildconfmap, buildconflistmap, style, phases, confs, conflists, project)
      ensures style <= phases <= confs <= conflists <= project
      ensures InWindow(buildstylemap.items.Values, style, phases)
      ensures InWindow(buildphasemap.items.Values, phases, confs)
      ensures InWindow(ConfIds(buildconfmap), confs, conflists)
      ensures InWindow(buildconflistmap.items.Values, conflists, project)
    {
      DebugWindow(buildstylemap, style);
      NamedWindow(buildphasemap, phases);
      ConfWindow(Names(), confs);
      NamedWindow(buildconflistmap, conflists);
    }

    /** The three aggregate configuration tables keep to their windows. */
    lemma AggregatesKeepWindows(projectConfigurations: Dict<string, Uid>, buildallConfigurations: Dict<string, Uid>,
                                testConfigurations: Dict<string, Uid>, project: nat, buildall: nat, test: nat, natives: nat)
      requires AggregatesIssued(projectConfigurations, buildallConfigurations, testConfigurations,
                                project, buildall, test, natives)
      ensures project <= buildall <= test <= natives
      ensures InWindow(projectConfigurations.items.Values, project, buildall)
      ensures InWindow(buildallConfigurations.items.Values, buildall, test)
      ensures InWindow(testConfigurations.items.Values, test, natives)
    {
      DebugWindow(projectConfigurations, project);
      DebugWindow(buildallConfigurations, buildall);
      DebugWindow(testConfigurations, test);
    }

    /** The per-target object tables keep to their windows. */
    lemma TargetsKeepWindows(nativeTargets: Dict<string, Uid>, sourcePhase: Dict<string, Uid>,
                             targetDependencyMap: Dict<(string, string), Uid>, pbxDepMap: Dict<string, Uid>,
                             containerproxyMap: Dict<string, Uid>,
                             natives: nat, sourcePhases: nat, deps: nat, pbxDeps: nat, proxies: nat, next: nat)
      requires Valid()
      requires TargetsIssued(nativeTargets, sourcePhase, targetDependencyMap, pbxDepMap, containerproxyMap,
                             natives, sourcePhases, deps, pbxDeps, proxies, next)
      ensures natives <= sourcePhases <= deps <= pbxDeps <= proxies <= next
      ensures InWindow(nativeTargets.items.Values, natives, sourcePhases)
      ensures InWindow(sourcePhase.items.Values, sourcePhases, deps)
      ensures InWindow(targetDependencyMap.items.Values, deps, pbxDeps)
      ensures InWindow(pbxDepMap.items.Values, pbxDeps, proxies)
      ensures InWindow(containerproxyMap.items.Values, proxies, next)
    {
      NamedWindow(nativeTargets, natives);
      NamedWindow(sourcePhase, sourcePhases);
      WithinWindow(targetDependencyMap.items, deps, pbxDeps);
      NamedWindow(pbxDepMap, pbxDeps);
      NamedWindow(containerproxyMap, proxies);
    }

    /** After the map builders, the tables' ids lie in windows that follow
        one another. */
    lemma TablesInWindows(w: Windows)
      requires KeepWindows(w)
      ensures Windowed(TableIds(), Bounds(w))
    {
      WindowedFourteen(filemap.items.Values + targetFilemap.items.Values, buildmap.items.Values,
                       buildstylemap.items.Values, buildphasemap.items.Values, ConfIds(buildconfmap),
                       buildconflistmap.items.Values, projectConfigurations.items.Values,
                       buildallConfigurations.items.Values, testConfigurations.items.Values,
                       nativeTargets.items.Values, sourcePhase.items.Values, targetDependencyMap.items.Values,
                       pbxDepMap.items.Values, containerproxyMap.items.Values, Bounds(w));
    }

    /** Every id the map builders issue in one pass is issued once: two
        different tables share no id, and no id is written like another. */
    lemma TablesApart(w: Windows, i: nat, j: nat)
      requires MapsIssued(w) && i < j < 14 && w.next <= IdSpace
      ensures TableIds()[i] !! TableIds()[j]
      ensures forall u, v :: u in TableIds()[i] && v in TableIds()[j] ==> u.Text() != v.Text()
    {
      TablesKeepWindows(w);
      TablesInWindows(w);
      WindowsApart(TableIds(), Bounds(w), i, j);
    }

    /** Within one table, different keys have different ids; the path table
        and the product table, which share a window, share no id. */
    lemma {:induction false} TablesInjective(w: Windows)
      requires MapsIssued(w)
      ensures Injective(filemap.items) && Injective(targetFilemap.items) && Apart(filemap.items, targetFilemap.items)
      ensures Injective(buildmap.items) && Injective(targetDependencyMap.items)
      ensures Injective(buildphasemap.items) && Injective(buildconflistmap.items) && Injective(nativeTargets.items)
      ensures Injective(sourcePhase.items) && Injective(pbxDepMap.items) && Injective(containerproxyMap.items)
      ensures forall a :: a in buildconfmap.items ==> Debug in buildconfmap.items[a].items
      ensures forall a, b :: a in buildconfmap.items && b in buildconfmap.items && a != b ==>
        buildconfmap.items[a].items[Debug] != buildconfmap.items[b].items[Debug]
    {
      ConfigTablesInjective(buildstylemap, buildphasemap, buildconfmap, buildconflistmap,
                            w.style, w.phases, w.confs, w.conflists, w.project);
      TargetTablesInjective(nativeTargets, sourcePhase, targetDependencyMap, pbxDepMap, containerproxyMap,
                            w.natives, w.sourcePhases, w.deps, w.pbxDeps, w.proxies, w.next);
    }

    /** The phase, configuration and configuration list tables give
        different targets different ids. */
    lemma ConfigTablesInjective(buildstylemap: Dict<string, Uid>, buildphasemap: Dict<string, Uid>,
                                buildconfmap: Dict<string, Dict<string, Uid>>, buildconflistmap: Dict<string, Uid>,
                                style: nat, phases: nat, confs: nat, conflists: nat, project: nat)
      requires Valid()
      requires ConfigsIssued(buildstylemap, buildphasemap, buildconfmap, buildconflistmap, style, phases, confs, conflists, project)
      ensures Injective(buildphasemap.items) && Injective(buildconflistmap.items)
      ensures forall a :: a in buildconfmap.items ==> Debug in buildconfmap.items[a].items
      ensures forall a, b :: a in buildconfmap.items && b in buildconfmap.items && a != b ==>
        buildconfmap.items[a].items[Debug] != buildconfmap.items[b].items[Debug]
    {
      NamedWindow(buildphasemap, phases);
      ConfWindow(Names(), confs);
      NamedWindow(buildconflistmap, conflists);
    }

    /** The native target, phase, dependency and proxy tables give different
        targets (and different dependency pairs) different ids. */
    lemma TargetTablesInjective(nativeTargets: Dict<string, Uid>, sourcePhase: Dict<string, Uid>,
                                targetDependencyMap: Dict<(string, string), Uid>, pbxDepMap: Dict<string, Uid>,
                                containerproxyMap: Dict<string, Uid>,
                                natives: nat, sourcePhases: nat, deps: nat, pbxDeps: nat, proxies: nat, next: nat)
      requires Valid()
      requires TargetsIssued(nativeTargets, sourcePhase, targetDependencyMap, pbxDepMap, containerproxyMap,
                             natives, sourcePhases, deps, pbxDeps, proxies, next)
      ensures Injective(nativeTargets.items) && Injective(sourcePhase.items) && Injective(targetDependencyMap.items)
      ensures Injective(pbxDepMap.items) && Injective(containerproxyMap.items)
    {
      NamedWindow(nativeTargets, natives);
      NamedWindow(sourcePhase, sourcePhases);
      NamedWindow(pbxDepMap, pbxDeps);
      NamedWindow(containerproxyMap, proxies);
    }

    /** The seven ids the constructor draws. */
    function FixedIds(): (ids: set<Uid>)
      ensures |ids| <= 7
    {
      {projectConflist, maingroupId, allId, allBuildconfId, testId, testCommandId, testBuildconfId}
    }

    /** `FixedIdsApart` for every table at once. */
    lemma AllFixedIdsApart(w: Windows)
      requires MapsIssued(w) && FixedBefore(FixedIds(), w.files)
      ensures ApartFromAll(FixedIds(), TableIds())
    {
      forall k | 0 <= k < 14
        ensures FixedIds() !! TableIds()[k]
      {
        FixedIdsApart(w, k);
      }
    }

    /** The map builders start after the constructor has drawn its seven
        ids, so none of their ids is one of those. */
    lemma FixedIdsApart(w: Windows, k: nat)
      requires MapsIssued(w) && k < 14
      requires forall u :: u in FixedIds() ==> u.serial < w.files
      ensures FixedIds() !! TableIds()[k]
    {
      TablesKeepWindows(w);
      TablesInWindows(w);
      AscendingFar(Bounds(w), 0, k);
      assert InWindow(TableIds()[k], Bounds(w)[k], Bounds(w)[k + 1]);
    }

    // ----- prefix and suffix -----

    /** `generate_prefix`: opens the file and the objects dictionary, two levels deep. */
    method GeneratePrefix()
      modifies out
      ensures out.indentLevel == old(out.indentLevel) + 2
      ensures out.ofile == old(out.ofile) + Render(old(out.indentLevel), PrefixLines())
    {
      WriteLines(PrefixLines());
      out.indentLevel := out.indentLevel + 2;
    }

    /** `generate_suffix`: closes both, naming the project object as the root. */
    method GenerateSuffix()
      modifies out
      ensures out.indentLevel == old(out.indentLevel) - 2
      ensures out.ofile == old(out.ofile) + Render(old(out.indentLevel), SuffixLines(projectUid))
    {
      WriteLines(SuffixLines(projectUid));
      out.indentLevel := out.indentLevel - 2;
    }

    // ----- writing records -----

    /** Writes a record line by line: a raw line with `ofile.write`, any other
        with `write_line` at the level the record starts at plus the line's
        depth, which is where the source's `indent_level` updates put it. The
        level is back where it started. */
    method WriteLines(lines: seq<Line>)
      modifies out
      ensures out.indentLevel == old(out.indentLevel)
      ensures out.ofile == old(out.ofile) + Render(old(out.indentLevel), lines)
    {
      ghost var o := out.ofile;
      var level := out.indentLevel;
      for i := 0 to |lines|
        invariant out.ofile == o + Render(level, lines[..i])
      {
        match lines[i] {
          case Raw(t) =>
            out.Write(t);
          case At(d, t) =>
            out.indentLevel := level + d;
            out.WriteLine(t);
        }
        RenderSnoc(level, lines[..i], lines[i]);
        assert lines[..i + 1] == lines[..i] + [lines[i]];
      }
      out.indentLevel := level;
      assert lines[..|lines|] == lines;
    }

    /** The ids of the names, looked up one by one; a missing name raises `KeyError`. */
    method LookupAll(names: seq<string>, m: map<string, Uid>) returns (r: Result<seq<Uid>>)
      ensures r.Ok? <==> Keyed(names, m)
      ensures r.Ok? ==> r.value == Lookup(names, m)
      ensures r.Err? ==> r.error.KeyError? && r.error.key in names && r.error.key !in m
    {
      var ids: seq<Uid> := [];
      for i := 0 to |names|
        invariant Keyed(names[..i], m) && ids == Lookup(names[..i], m)
      {
        if names[i] !in m {
          return Err(KeyError(names[i]));
        }
        ids := ids + [m[names[i]]];
      }
      assert names[..|names|] == names;
      return Ok(ids);
    }

    /** Looks the names up one by one; a missing name raises `KeyError`. */
    method CheckKeys<V>(names: seq<string>, m: map<string, V>) returns (r: Outcome)
      ensures r.Pass? <==> Keyed(names, m)
      ensures r.Fail? ==> r.error.KeyError? && r.error.key in names && r.error.key !in m
    {
      for i := 0 to |names|
        invariant Keyed(names[..i], m)
      {
        if names[i] !in m {
          return Fail(KeyError(names[i]));
        }
        KeyedSnoc(names, m, i);
      }
      assert names[..|names|] == names;
      return Pass;
    }

    // ----- PBXAggregateTarget -----

    /** `generate_pbx_aggregate_target`: `ALL_BUILD` lists every target's
        dependency object, then `RUN_TESTS` runs the test command. The
        indentation is back where it started. */
    method GeneratePbxAggregateTarget() returns (r: Outcome)
      modifies out
      ensures r.Pass? <==> Keyed(Names(), pbxDepMap.items)
      ensures r.Fail? ==> r.error.KeyError? && r.error.key in Names() && r.error.key !in pbxDepMap.items
      ensures r.Pass? ==> out.indentLevel == old(out.indentLevel)
      ensures r.Pass? ==> out.ofile == old(out.ofile) + Render(old(out.indentLevel),
        AggregateSection(allId, allBuildconfId, Lookup(Names(), pbxDepMap.items), testId, testBuildconfId, testCommandId))
    {
      ghost var L, o0 := out.indentLevel, out.ofile;
      var begin := Begin("PBXAggregateTarget");
      out.Write(begin.text);
      WriteLines(AllBuildHead(allId, allBuildconfId));
      ghost var o1 := out.ofile;
      var deps := LookupAll(Names(), pbxDepMap.items);
      if deps.Err? {
        return Fail(deps.error);
      }
      WriteLines(TaggedEntries(2, deps.value, "PBXTargetDependency"));
      ghost var o2 := out.ofile;
      WriteLines(AllBuildTail());
      ghost var o3 := out.ofile;
      WriteLines(RunTestsRecord(testId, testBuildconfId, testCommandId));
      ghost var o4 := out.ofile;
      var end := End("PBXAggregateTarget");
      out.Write(end.text);
      AggregateRender(L, allId, allBuildconfId, deps.value, testId, testBuildconfId, testCommandId);
      AppendSix(o0, [begin.text], Render(L, AllBuildHead(allId, allBuildconfId)),
        Render(L, TaggedEntries(2, deps.value, "PBXTargetDependency")), Render(L, AllBuildTail()),
        Render(L, RunTestsRecord(testId, testBuildconfId, testCommandId)), [end.text]);
      return Pass;
    }

    // ----- PBXBuildStyle -----

    /** The records of the first `i + 1` styles, from those of the first `i`. */
    method NextBuildStyle(names: seq<string>, m: map<string, Uid>, i: nat, ghost L: int, ghost o: seq<string>)
      requires Keyed(names, m) && i < |names|
      requires out.indentLevel == L && out.ofile == o + Render(L, BuildStyleRecords(names[..i], m))
      modifies out
      ensures out.indentLevel == L && out.ofile == o + Render(L, BuildStyleRecords(names[..i + 1], m))
    {
      WriteLines(BuildStyleRecord(m[names[i]], names[i]));
      BuildStyleStep(L, names, m, i);
      AppendAssoc(o, Render(L, BuildStyleRecords(names[..i], m)), Render(L, BuildStyleRecord(m[names[i]], names[i])));
    }

    /** `generate_pbx_build_style`: one record per build style, in table order. */
    method GeneratePbxBuildStyle()
      requires buildstylemap.Valid()
      modifies out
      ensures out.indentLevel == old(out.indentLevel)
      ensures out.ofile == old(out.ofile) + Render(old(out.indentLevel),
        Framed("PBXBuildStyle", BuildStyleRecords(buildstylemap.keys, buildstylemap.items)))
    {
      ghost var L := out.indentLevel;
      var names, m := buildstylemap.keys, buildstylemap.items;
      assert Keyed(names, m);
      var begin := Begin("PBXBuildStyle");
      out.Write(begin.text);
      ghost var o := out.ofile;
      for i := 0 to |names|
        invariant out.indentLevel == L
        invariant out.ofile == o + Render(L, BuildStyleRecords(names[..i], m))
      {
        NextBuildStyle(names, m, i, L, o);
      }
      var end := End("PBXBuildStyle");
      out.Write(end.text);
      assert names[..|names|] == names;
      FramedRender(L, "PBXBuildStyle", BuildStyleRecords(names, m));
      AppendThree(old(out.ofile), [begin.text], Render(L, BuildStyleRecords(names, m)), [end.text]);
    }

    // ----- PBXContainerItemProxy -----

    /** The proxies of the first `i + 1` targets, from those of the first `i`. */
    method NextProxy(names: seq<string>, proxies: map<string, Uid>, natives: map<string, Uid>, i: nat,
                     ghost L: int, ghost o: seq<string>)
      requires i < |names| && Keyed(names[..i], proxies) && Keyed(names[..i], natives)
      requires names[i] in proxies && names[i] in natives
      requires out.indentLevel == L
      requires out.ofile == o + Render(L, ProxyRecords(names[..i], proxies, natives, projectUid))
      modifies out
      ensures Keyed(names[..i + 1], proxies) && Keyed(names[..i + 1], natives)
      ensures out.indentLevel == L
      ensures out.ofile == o + Render(L, ProxyRecords(names[..i + 1], proxies, natives, projectUid))
    {
      var record := ProxyRecord(proxies[names[i]], natives[names[i]], projectUid, names[i]);
      WriteLines(record);
      ProxyStep(L, names, proxies, natives, projectUid, i);
      AppendAssoc(o, Render(L, ProxyRecords(names[..i], proxies, natives, projectUid)), Render(L, record));
    }

    /** `generate_pbx_container_item_proxy`: one proxy per target, pointing at
        the target's native target; a target missing from either table raises
        `KeyError`. */
    method GeneratePbxContainerItemProxy() returns (r: Outcome)
      modifies out
      ensures r.Pass? <==> Keyed(Names(), containerproxyMap.items) && Keyed(Names(), nativeTargets.items)
      ensures r.Fail? ==> && r.error.KeyError? && r.error.key in Names()
                          && (r.error.key !in containerproxyMap.items || r.error.key !in nativeTargets.items)
      ensures r.Pass? ==> out.indentLevel == old(out.indentLevel)
      ensures r.Pass? ==> out.ofile == old(out.ofile) + Render(old(out.indentLevel),
        Framed("PBXContainerItemProxy", ProxyRecords(Names(), containerproxyMap.items, nativeTargets.items, projectUid)))
    {
      ghost var L := out.indentLevel;
      var names, proxies, natives := Names(), containerproxyMap.items, nativeTargets.items;
      var begin := Begin("PBXContainerItemProxy");
      out.Write(begin.text);
      ghost var o := out.ofile;
      for i := 0 to |names|
        invariant out.indentLevel == L
        invariant Keyed(names[..i], proxies) && Keyed(names[..i], natives)
        invariant out.ofile == o + Render(L, ProxyRecords(names[..i], proxies, natives, projectUid))
      {
        if names[i] !in proxies || names[i] !in natives {
          return Fail(KeyError(names[i]));
        }
        NextProxy(names, proxies, natives, i, L, o);
      }
      var end := End("PBXContainerItemProxy");
      out.Write(end.text);
      assert names[..|names|] == names;
      FramedRender(L, "PBXContainerItemProxy", ProxyRecords(names, proxies, natives, projectUid));
      AppendThree(old(out.ofile), [begin.text], Render(L, ProxyRecords(names, proxies, natives, projectUid)), [end.text]);
      return Pass;
    }

    // ----- PBXTargetDependency -----

    /** The dependency records of the first `i + 1` targets, from those of the first `i`. */
    method NextDependency(names: seq<string>, deps: map<string, Uid>, natives: map<string, Uid>,
                          proxies: map<string, Uid>, i: nat, ghost L: int, ghost o: seq<string>)
      requires i < |names| && Keyed(names[..i], deps) && Keyed(names[..i], natives) && Keyed(names[..i], proxies)
      requires names[i] in deps && names[i] in natives && names[i] in proxies
      requires out.indentLevel == L
      requires out.ofile == o + Render(L, DependencyRecords(names[..i], deps, natives, proxies))
      modifies out
      ensures Keyed(names[..i + 1], deps) && Keyed(names[..i + 1], natives) && Keyed(names[..i + 1], proxies)
      ensures out.indentLevel == L
      ensures out.ofile == o + Render(L, DependencyRecords(names[..i + 1], deps, natives, proxies))
    {
      var record := DependencyRecord(deps[names[i]], natives[names[i]], proxies[names[i]], names[i]);
      WriteLines(record);
      DependencyStep(L, names, deps, natives, proxies, i);
      AppendAssoc(o, Render(L, DependencyRecords(names[..i], deps, natives, proxies)), Render(L, record));
    }

    /** `generate_pbx_target_dependency`: one dependency object per target,
        naming its native target and its proxy; a target missing from any of
        the three tables raises `KeyError`. */
    method GeneratePbxTargetDependency() returns (r: Outcome)
      modifies out
      ensures r.Pass? <==> && Keyed(Names(), pbxDepMap.items) && Keyed(Names(), nativeTargets.items)
                           && Keyed(Names(), containerproxyMap.items)
      ensures r.Fail? ==> && r.error.KeyError? && r.error.key in Names()
                          && (|| r.error.key !in pbxDepMap.items || r.error.key !in nativeTargets.items
                              || r.error.key !in containerproxyMap.items)
      ensures r.Pass? ==> out.indentLevel == old(out.indentLevel)
      ensures r.Pass? ==> out.ofile == old(out.ofile) + Render(old(out.indentLevel),
        Framed("PBXTargetDependency",
               DependencyRecords(Names(), pbxDepMap.items, nativeTargets.items, containerproxyMap.items)))
    {
      ghost var L := out.indentLevel;
      var names, deps, natives, proxies := Names(), pbxDepMap.items, nativeTargets.items, containerproxyMap.items;
      var begin := Begin("PBXTargetDependency");
      out.Write(begin.text);
      ghost var o := out.ofile;
      for i := 0 to |names|
        invariant out.indentLevel == L
        invariant Keyed(names[..i], deps) && Keyed(names[..i], natives) && Keyed(names[..i], proxies)
        invariant out.ofile == o + Render(L, DependencyRecords(names[..i], deps, natives, proxies))
      {
        if names[i] !in deps || names[i] !in natives || names[i] !in proxies {
          return Fail(KeyError(names[i]));
        }
        NextDependency(names, deps, natives, proxies, i, L, o);
      }
      var end := End("PBXTargetDependency");
      out.Write(end.text);
      assert names[..|names|] == names;
      FramedRender(L, "PBXTargetDependency", DependencyRecords(names, deps, natives, proxies));
      AppendThree(old(out.ofile), [begin.text], Render(L, DependencyRecords(names, deps, natives, proxies)), [end.text]);
      return Pass;
    }

    // ----- PBXProject -----

    /** `generate_pbx_project`: the project object lists the build styles and
        then `ALL_BUILD`, `RUN_TESTS` and every target's native target; a
        target missing from the native-target table raises `KeyError`. */
    method GeneratePbxProject() returns (r: Outcome)
      requires buildstylemap.Valid()
      modifies out
      ensures r.Pass? <==> Keyed(Names(), nativeTargets.items)
      ensures r.Fail? ==> && r.error.KeyError? && r.error.key in Names() && r.error.key !in nativeTargets.items
      ensures r.Pass? ==> out.indentLevel == old(out.indentLevel)
      ensures r.Pass? ==> out.ofile == old(out.ofile) + Render(old(out.indentLevel),
        ProjectSection(projectUid, projectConflist, build.projectName, buildstylemap.keys, buildstylemap.items,
                       maingroupId, env.buildToSrc, allId, testId, Names(), nativeTargets.items))
    {
      assert Keyed(buildstylemap.keys, buildstylemap.items);
      var natives := LookupAll(Names(), nativeTargets.items);
      if natives.Err? {
        return Fail(natives.error);
      }
      var section := ProjectSection(projectUid, projectConflist, build.projectName, buildstylemap.keys,
                                    buildstylemap.items, maingroupId, env.buildToSrc, allId, testId, Names(),
                                    nativeTargets.items);
      WriteLines(section);
      return Pass;
    }

    // ----- PBXShellScriptBuildPhase -----

    /** `generate_pbx_shell_build_phase`: the test command's phase runs the test
        script on the serialised tests from the build directory. */
    method GeneratePbxShellBuildPhase(testData: string)
      modifies out
      ensures out.indentLevel == old(out.indentLevel)
      ensures out.ofile == old(out.ofile) + Render(old(out.indentLevel), ShellSection(testCommandId,
        Join(TestCommand(env.pythonExecutable, env.scriptDir, testData, env.buildDir), ' ')))
    {
      var cmd := TestCommand(env.pythonExecutable, env.scriptDir, testData, env.buildDir);
      WriteLines(ShellSection(testCommandId, Join(cmd, ' ')));
    }

    // ----- PBXSourcesBuildPhase -----

    /** The paths the sources phase of a target lists: each source with a
        path, skipping the other entries and the headers. */
    method CompiledPaths(subdir: string, sources: seq<SourceEntry>) returns (paths: seq<string>)
      ensures paths == CompiledSources(subdir, sources, env.headers)
    {
      paths := [];
      for i := 0 to |sources|
        invariant paths == CompiledSources(subdir, sources[..i], env.headers)
      {
        var k := SourceKey(subdir, sources[i]);
        assert sources[..i + 1][..i] == sources[..i];
        if k.Some? && k.value !in env.headers {
          paths := paths + [k.value];
        }
      }
      assert sources[..|sources|] == sources;
    }

    /** The phase records of the first `i + 1` targets, from those of the first `i`. */
    method NextPhase(names: seq<string>, phases: map<string, Uid>, targets: map<string, Target>,
                     bm: map<string, Uid>, i: nat, ghost L: int, ghost o: seq<string>)
      requires i < |names| && PhasesKnown(names[..i], phases, targets, env.headers, bm)
      requires PhaseKnown(names[i], phases, targets, env.headers, bm)
      requires out.indentLevel == L
      requires out.ofile == o + Render(L, PhaseRecords(env.sourceDir, names[..i], phases, targets, env.headers, bm))
      modifies out
      ensures PhasesKnown(names[..i + 1], phases, targets, env.headers, bm)
      ensures out.indentLevel == L
      ensures out.ofile == o + Render(L, PhaseRecords(env.sourceDir, names[..i + 1], phases, targets, env.headers, bm))
    {
      var record := PhaseRecordOf(env.sourceDir, names[i], phases, targets, env.headers, bm);
      WriteLines(record);
      PhaseStep(L, env.sourceDir, names, phases, targets, env.headers, bm, i);
      AppendAssoc(o, Render(L, PhaseRecords(env.sourceDir, names[..i], phases, targets, env.headers, bm)),
        Render(L, record));
    }

    /** `generate_pbx_sources_build_phase`: for each target of the sources-phase
        table, a phase (under the target's build phase id) listing the build
        ids of its compiled sources. A target missing from the build phase
        table or the build, or a compiled source without a build id, raises
        `KeyError`. */
    method GeneratePbxSourcesBuildPhase() returns (r: Outcome)
      modifies out
      ensures r.Pass? <==> PhasesKnown(sourcePhase.keys, buildphasemap.items, build.targets.items, env.headers,
                                        buildmap.items)
      ensures r.Fail? ==> r.error.KeyError?
      ensures r.Pass? ==> out.indentLevel == old(out.indentLevel)
      ensures r.Pass? ==> out.ofile == old(out.ofile) + Render(old(out.indentLevel),
        Framed("PBXSourcesBuildPhase", PhaseRecords(env.sourceDir, sourcePhase.keys, buildphasemap.items,
                                                    build.targets.items, env.headers, buildmap.items)))
    {
      ghost var L := out.indentLevel;
      var names, phases, targets, bm := sourcePhase.keys, buildphasemap.items, build.targets.items, buildmap.items;
      var begin := Begin("PBXSourcesBuildPhase");
      out.Write(begin.text);
      ghost var o := out.ofile;
      for i := 0 to |names|
        invariant out.indentLevel == L
        invariant PhasesKnown(names[..i], phases, targets, env.headers, bm)
        invariant out.ofile == o + Render(L, PhaseRecords(env.sourceDir, names[..i], phases, targets, env.headers, bm))
      {
        if names[i] !in phases || names[i] !in targets {
          assert !PhaseKnown(names[i], phases, targets, env.headers, bm);
          return Fail(KeyError(names[i]));
        }
        var t := targets[names[i]];
        var paths := CompiledPaths(t.subdir, t.sources);
        var ids := LookupAll(paths, bm);
        if ids.Err? {
          assert !PhaseKnown(names[i], phases, targets, env.headers, bm);
          return Fail(ids.error);
        }
        NextPhase(names, phases, targets, bm, i, L, o);
      }
      var end := End("PBXSourcesBuildPhase");
      out.Write(end.text);
      assert names[..|names|] == names;
      FramedRender(L, "PBXSourcesBuildPhase", PhaseRecords(env.sourceDir, names, phases, targets, env.headers, bm));
      AppendThree(old(out.ofile), [begin.text],
        Render(L, PhaseRecords(env.sourceDir, names, phases, targets, env.headers, bm)), [end.text]);
      return Pass;
    }

    // ----- PBXNativeTarget -----

    /** The dependency objects of the targets a target links with, looked up
        by target id; a missing id raises `KeyError`. */
    method LookupLinks(links: seq<LinkRef>, deps: map<string, Uid>) returns (r: Result<seq<Uid>>)
      ensures r.Ok? <==> LinksKnown(links, deps)
      ensures r.Ok? ==> r.value == LinkDeps(links, deps)
      ensures r.Err? ==> r.error.KeyError? && r.error.key !in deps
    {
      var ids: seq<Uid> := [];
      for i := 0 to |links|
        invariant LinksKnown(links[..i], deps) && ids == LinkDeps(links[..i], deps)
      {
        if links[i].id !in deps {
          return Err(KeyError(links[i].id));
        }
        ids := ids + [deps[links[i].id]];
      }
      assert links[..|links|] == links;
      return Ok(ids);
    }

    /** Whether the native-target emitter can write the record of `name`:
        the checks in the order the source makes its lookups, with the error
        of the first that fails. */
    method CheckNative(name: string, targets: map<string, Target>, conflists: map<string, Uid>,
                       phases: map<string, Uid>, deps: map<string, Uid>, products: map<string, Uid>)
      returns (r: Outcome)
      ensures r.Pass? <==> NativeKnown(name, targets, conflists, phases, deps, products)
      ensures r.Fail? ==> || (r.error.KeyError? && (r.error.key == name || r.error.key !in deps))
                          || (r.error.MesonException? && name in targets && targets[name].kind == Other)
    {
      if name !in targets || name !in conflists || name !in phases {
        return Fail(KeyError(name));
      }
      var links := LookupLinks(LinkTargetsOf(targets[name]), deps);
      if links.Err? {
        return Fail(links.error);
      }
      if name !in products {
        return Fail(KeyError(name));
      }
      var productType := ProductType(targets[name].kind, name);
      if productType.Err? {
        return Fail(productType.error);
      }
      return Pass;
    }

    /** The native-target records of the first `i + 1` targets, from those of the first `i`. */
    method NextNative(names: seq<string>, ids: map<string, Uid>, targets: map<string, Target>,
                      conflists: map<string, Uid>, phases: map<string, Uid>, deps: map<string, Uid>,
                      products: map<string, Uid>, i: nat, ghost L: int, ghost o: seq<string>)
      requires i < |names| && Keyed(names[..i], ids) && NativesKnown(names[..i], targets, conflists, phases, deps, products)
      requires names[i] in ids && NativeKnown(names[i], targets, conflists, phases, deps, products)
      requires out.indentLevel == L
      requires out.ofile == o + Render(L, NativeRecords(names[..i], ids, targets, conflists, phases, deps, products))
      modifies out
      ensures Keyed(names[..i + 1], ids) && NativesKnown(names[..i + 1], targets, conflists, phases, deps, products)
      ensures out.indentLevel == L
      ensures out.ofile == o + Render(L, NativeRecords(names[..i + 1], ids, targets, conflists, phases, deps, products))
    {
      var record := NativeRecordOf(names[i], ids[names[i]], targets, conflists, phases, deps, products);
      WriteLines(record);
      NativeStep(L, names, ids, targets, conflists, phases, deps, products, i);
      AppendAssoc(o, Render(L, NativeRecords(names[..i], ids, targets, conflists, phases, deps, products)),
        Render(L, record));
    }

    /** `generate_pbx_native_target`: one record per entry of the native-target
        table, naming the target's configuration list, its sources phase, the
        dependency objects of the targets it links with and its product. A
        missing entry raises `KeyError`; a target of no known kind raises
        `MesonException`. */
    method GeneratePbxNativeTarget() returns (r: Outcome)
      requires nativeTargets.Valid()
      modifies out
      ensures r.Pass? <==> NativesKnown(nativeTargets.keys, build.targets.items, buildconflistmap.items,
                                        buildphasemap.items, pbxDepMap.items, targetFilemap.items)
      ensures r.Fail? ==> r.error.KeyError? || r.error.MesonException?
      ensures r.Pass? ==> out.indentLevel == old(out.indentLevel)
      ensures r.Pass? ==> out.ofile == old(out.ofile) + Render(old(out.indentLevel),
        Framed("PBXNativeTarget", NativeRecords(nativeTargets.keys, nativeTargets.items, build.targets.items,
          buildconflistmap.items, buildphasemap.items, pbxDepMap.items, targetFilemap.items)))
    {
      ghost var L := out.indentLevel;
      var names, ids, targets := nativeTargets.keys, nativeTargets.items, build.targets.items;
      var conflists, phases, deps, products := buildconflistmap.items, buildphasemap.items, pbxDepMap.items,
                                               targetFilemap.items;
      assert Keyed(names, ids);
      var begin := Begin("PBXNativeTarget");
      out.Write(begin.text);
      ghost var o := out.ofile;
      for i := 0 to |names|
        invariant out.indentLevel == L
        invariant Keyed(names[..i], ids) && NativesKnown(names[..i], targets, conflists, phases, deps, products)
        invariant out.ofile == o + Render(L, NativeRecords(names[..i], ids, targets, conflists, phases, deps, products))
      {
        var known := CheckNative(names[i], targets, conflists, phases, deps, products);
        if known.Fail? {
          return known;
        }
        NextNative(names, ids, targets, conflists, phases, deps, products, i, L, o);
      }
      var end := End("PBXNativeTarget");
      out.Write(end.text);
      assert names[..|names|] == names;
      FramedRender(L, "PBXNativeTarget", NativeRecords(names, ids, targets, conflists, phases, deps, products));
      AppendThree(old(out.ofile), [begin.text],
        Render(L, NativeRecords(names, ids, targets, conflists, phases, deps, products)), [end.text]);
      return Pass;
    }

    // ----- PBXFileReference -----

    /** `generate_pbx_file_reference`: a reference per source and object path,
        typed by its extension, then a reference per product of the product
        table, typed by its target's kind. A product whose target is not in
        the build raises `KeyError`. */
    method GeneratePbxFileReference() returns (r: Outcome)
      requires filemap.Valid() && targetFilemap.Valid()
      modifies out
      ensures r.Pass? <==> Keyed(targetFilemap.keys, build.targets.items)
      ensures r.Fail? ==> && r.error.KeyError? && r.error.key in targetFilemap.keys
                          && r.error.key !in build.targets.items
      ensures r.Pass? ==> out.indentLevel == old(out.indentLevel)
      ensures r.Pass? ==> out.ofile == old(out.ofile) + Render(old(out.indentLevel), Framed("PBXFileReference",
        FileRefLines(env.sourceDir, filemap.keys, filemap.items)
        + ProductRefLines(targetFilemap.keys, targetFilemap.items, build.targets.items)))
    {
      assert Keyed(filemap.keys, filemap.items) && Keyed(targetFilemap.keys, targetFilemap.items);
      var known := CheckKeys(targetFilemap.keys, build.targets.items);
      if known.Fail? {
        return known;
      }
      var section := Framed("PBXFileReference", FileRefLines(env.sourceDir, filemap.keys, filemap.items)
        + ProductRefLines(targetFilemap.keys, targetFilemap.items, build.targets.items));
      WriteLines(section);
      return Pass;
    }

    // ----- PBXBuildFile -----

    /** Looks up the build id and the file reference of each entry, in
        order: an object entry that is not a path raises `TypeError` when it
        is joined onto the directory, a path missing from either table
        raises `KeyError`. The error is that of the first entry that fails. */
    method CheckFiles(fs: seq<BuildFile>, bm: map<string, Uid>, fm: map<string, Uid>) returns (r: Outcome)
      ensures r.Pass? <==> FilesKnown(fs, bm, fm)
      ensures r.Fail? ==> exists i :: 0 <= i < |fs| && FilesKnown(fs[..i], bm, fm) && FileError(fs[i], bm, fm) == Some(r.error)
    {
      for i := 0 to |fs|
        invariant FilesKnown(fs[..i], bm, fm)
      {
        var e := FileError(fs[i], bm, fm);
        if e.Some? {
          return Fail(e.value);
        }
        assert fs[..i + 1] == fs[..i] + [fs[i]];
        FilesKnownAppend(fs[..i], [fs[i]], bm, fm);
      }
      assert fs[..|fs|] == fs;
      return Pass;
    }

    /** The build-file lines of the first `i + 1` targets, from those of the first `i`. */
    method NextBuildFiles(names: seq<string>, bm: map<string, Uid>, fm: map<string, Uid>, i: nat,
                          ghost L: int, ghost o: seq<string>)
      requires Keyed(names, build.targets.items) && i < |names|
      requires FilesKnown(GraphBuildFiles(build, names[..i]), bm, fm)
      requires FilesKnown(TargetBuildFiles(build.targets.items[names[i]]), bm, fm)
      requires out.indentLevel == L
      requires out.ofile == o + Render(L, BuildFileLines(env.sourceDir, GraphBuildFiles(build, names[..i]), bm, fm))
      modifies out
      ensures FilesKnown(GraphBuildFiles(build, names[..i + 1]), bm, fm)
      ensures out.indentLevel == L
      ensures out.ofile == o + Render(L, BuildFileLines(env.sourceDir, GraphBuildFiles(build, names[..i + 1]), bm, fm))
    {
      var lines := BuildFileLines(env.sourceDir, TargetBuildFiles(build.targets.items[names[i]]), bm, fm);
      WriteLines(lines);
      BuildFileStep(L, env.sourceDir, build, names, bm, fm, i);
      AppendAssoc(o, Render(L, BuildFileLines(env.sourceDir, GraphBuildFiles(build, names[..i]), bm, fm)),
        Render(L, lines));
    }

    /** `generate_pbx_build_file`: for every target, a build file per source
        with a path (compiled with no extra flags) and then one per object
        file, each naming its build id and its file reference. An object
        entry that is not a path raises `TypeError`, a path missing from
        either table `KeyError`. */
    method GeneratePbxBuildFile() returns (r: Outcome)
      requires build.targets.Valid()
      modifies out
      ensures r.Pass? <==> FilesKnown(GraphBuildFiles(build, Names()), buildmap.items, filemap.items)
      ensures r.Fail? ==> r.error.KeyError? || r.error.TypeError?
      ensures r.Pass? ==> out.indentLevel == old(out.indentLevel)
      ensures r.Pass? ==> out.ofile == old(out.ofile) + Render(old(out.indentLevel), Framed("PBXBuildFile",
        BuildFileLines(env.sourceDir, GraphBuildFiles(build, Names()), buildmap.items, filemap.items)))
    {
      ghost var L := out.indentLevel;
      var names, bm, fm := Names(), buildmap.items, filemap.items;
      assert Keyed(names, build.targets.items);
      var begin := Begin("PBXBuildFile");
      out.Write(begin.text);
      ghost var o := out.ofile;
      for i := 0 to |names|
        invariant out.indentLevel == L
        invariant FilesKnown(GraphBuildFiles(build, names[..i]), bm, fm)
        invariant out.ofile == o + Render(L, BuildFileLines(env.sourceDir, GraphBuildFiles(build, names[..i]), bm, fm))
      {
        var known := CheckFiles(TargetBuildFiles(build.targets.items[names[i]]), bm, fm);
        if known.Fail? {
          BuildFilesPrefix(names, bm, fm, i);
          return known;
        }
        NextBuildFiles(names, bm, fm, i, L, o);
      }
      var end := End("PBXBuildFile");
      out.Write(end.text);
      assert names[..|names|] == names;
      FramedRender(L, "PBXBuildFile", BuildFileLines(env.sourceDir, GraphBuildFiles(build, names), bm, fm));
      AppendThree(old(out.ofile), [begin.text],
        Render(L, BuildFileLines(env.sourceDir, GraphBuildFiles(build, names), bm, fm)), [end.text]);
      return Pass;
    }

    /** A target whose files are not all known spoils the whole section. */
    lemma {:induction false} BuildFilesPrefix(names: seq<string>, bm: map<string, Uid>, fm: map<string, Uid>, i: nat)
      requires Keyed(names, build.targets.items) && i < |names|
      requires !FilesKnown(TargetBuildFiles(build.targets.items[names[i]]), bm, fm)
      ensures !FilesKnown(GraphBuildFiles(build, names), bm, fm)
    {
      var init := names[..|names| - 1];
      var t := build.targets.items[names[|names| - 1]];
      assert GraphBuildFiles(build, names) == GraphBuildFiles(build, init) + TargetBuildFiles(t);
      FilesKnownAppend(GraphBuildFiles(build, init), TargetBuildFiles(t), bm, fm);
      if i < |init| {
        assert init[i] == names[i];
        BuildFilesPrefix(init, bm, fm, i);
      }
    }

    /** Once the file tables are built, the build-file section finds every
        path of targets whose file references lie in their own directories
        and that have a source whenever they have objects. */
    lemma BuildFileSectionPasses()
      requires FileMapsBuilt()
      requires forall i :: 0 <= i < |Names()| ==> BuildFilesLocal(build.targets.items[Names()[i]])
      ensures FilesKnown(GraphBuildFiles(build, Names()), buildmap.items, filemap.items)
    {
      var fs := GraphBuildFiles(build, Names());
      forall k | 0 <= k < |fs|
        ensures fs[k].BuildFile? && fs[k].path in buildmap.items && fs[k].path in filemap.items
      {
        GraphBuildFilesFiled(build, Names(), k);
      }
    }

    // ----- PBXGroup -----

    /** The group ids of `generate_pbx_group`: each target's group and its
        source group, drawn alternately in target order. */
    method GenerateGroupMaps() returns (groups: map<string, Uid>, srcGroups: map<string, Uid>)
      modifies reg
      ensures reg.nextSerial == old(reg.nextSerial) + 2 * |Names()|
      ensures Keyed(Names(), groups) && Keyed(Names(), srcGroups)
      ensures IssuedTogether(groups, srcGroups, old(reg.nextSerial), reg.nextSerial)
    {
      ghost var lo := reg.nextSerial;
      var names := Names();
      groups, srcGroups := map[], map[];
      for i := 0 to |names|
        invariant reg.nextSerial == lo + 2 * i
        invariant Keyed(names[..i], groups) && Keyed(names[..i], srcGroups)
        invariant IssuedTogether(groups, srcGroups, lo, reg.nextSerial)
      {
        PutFirst(groups, names[i], srcGroups, lo, reg.nextSerial);
        var group := reg.GenId();
        groups := groups[names[i] := group];
        PutSecond(groups, srcGroups, names[i], lo, reg.nextSerial);
        var srcGroup := reg.GenId();
        srcGroups := srcGroups[names[i] := srcGroup];
        KeyedSnoc(names, groups, i);
        KeyedSnoc(names, srcGroups, i);
      }
      assert names[..|names|] == names;
    }

    /** The paths the source group of one target lists, checked as the
        source's loop reaches them: a source of neither shape repeats the
        previous `source_path`, and reading it before any assignment raises
        `NameError`; a path without a file reference raises `KeyError`. On
        success `after` is `source_path` after the loop. */
    method CheckSourcePaths(subdir: string, sources: seq<SourceEntry>, last: Option<string>, fm: map<string, Uid>)
      returns (r: Outcome, after: Option<string>)
      ensures r.Pass? <==> PathsKnown(GroupSourcePaths(subdir, sources, last), fm)
      ensures r.Fail? ==> (r.error.NameError? && r.error.name == "source_path") || r.error.KeyError?
      ensures r.Pass? ==> after == PathAfter(subdir, sources, last)
    {
      ghost var ps := GroupSourcePaths(subdir, sources, last);
      after := last;
      for j := 0 to |sources|
        invariant after == PathAfter(subdir, sources[..j], last)
        invariant forall k :: 0 <= k < j ==> ps[k].Some? && ps[k].value in fm
      {
        assert sources[..j + 1][..j] == sources[..j];
        var key := SourceKey(subdir, sources[j]);
        if key.Some? {
          after := key;
        }
        assert after == PathAfter(subdir, sources[..j + 1], last) == ps[j];
        if after.None? {
          return Fail(NameError("source_path")), after;
        }
        if after.value !in fm {
          return Fail(KeyError(after.value)), after;
        }
      }
      assert sources[..|sources|] == sources;
      return Pass, after;
    }

    /** The object loop of one target's source group: each entry is joined
        onto the target's directory, which raises `TypeError` for an entry
        that is not a path, and its path is then looked up, which raises
        `KeyError` when it has no file reference. */
    method CheckObjectPaths(subdir: string, objects: seq<ObjectEntry>, fm: map<string, Uid>) returns (r: Outcome)
      ensures r.Pass? <==> Joinable(objects) && Keyed(ObjectPaths(subdir, objects), fm)
      ensures r.Fail? ==> || (r.error.TypeError? && OtherObject(r.error.operand) in objects)
                          || (r.error.KeyError? && r.error.key !in fm)
    {
      for k := 0 to |objects|
        invariant Joinable(objects[..k]) && Keyed(ObjectPaths(subdir, objects[..k]), fm)
      {
        assert objects[..k + 1][..k] == objects[..k];
        if objects[k].OtherObject? {
          return Fail(TypeError(objects[k].repr));
        }
        var p := JoinPath(subdir, objects[k].path);
        if p !in fm {
          if Joinable(objects) {
            ObjectPathsAt(subdir, objects, k);
          }
          return Fail(KeyError(p));
        }
        assert ObjectPaths(subdir, objects[..k + 1]) == ObjectPaths(subdir, objects[..k]) + [p];
      }
      assert objects[..|objects|] == objects;
      return Pass;
    }

    /** Checks the files of every target's source group, in target order,
        with `source_path` carried from one target to the next. */
    method CheckGroupFiles(names: seq<string>, fm: map<string, Uid>) returns (r: Outcome)
      requires Keyed(names, build.targets.items)
      ensures r.Pass? <==> GroupFilesKnown(build, names, fm)
      ensures r.Fail? ==> (r.error.NameError? && r.error.name == "source_path") || r.error.KeyError? || r.error.TypeError?
    {
      var last: Option<string> := None;
      for i := 0 to |names|
        invariant GroupFilesKnown(build, names[..i], fm) && last == GraphLastPath(build, names[..i])
      {
        var t := build.targets.items[names[i]];
        var paths, after := CheckSourcePaths(t.subdir, t.sources, last, fm);
        if paths.Fail? {
          assert !TargetFilesKnown(t, GraphLastPath(build, names[..i]), fm);
          return paths;
        }
        var objects := CheckObjectPaths(t.subdir, t.objects, fm);
        if objects.Fail? {
          assert !TargetFilesKnown(t, GraphLastPath(build, names[..i]), fm);
          return objects;
        }
        GroupFilesSnoc(build, names, fm, i);
        last := after;
      }
      assert names[..|names|] == names;
      return Pass;
    }

    /** `generate_pbx_group`: draws an id for each target's group and source
        group, then for the sources, resources and products groups, and writes
        the main group, the sources group, the resources group, each target's
        two groups and the products group. A source group file that cannot be
        listed raises `NameError`, `KeyError` or, for an object entry that is
        not a path, `TypeError`; a target without a product raises `KeyError`. */
    method GeneratePbxGroup() returns (r: Outcome, groups: map<string, Uid>, srcGroups: map<string, Uid>)
      requires build.targets.Valid()
      modifies out, reg
      ensures reg.nextSerial == old(reg.nextSerial) + 2 * |Names()| + 3
      ensures Keyed(Names(), groups) && Keyed(Names(), srcGroups)
      ensures IssuedTogether(groups, srcGroups, old(reg.nextSerial), old(reg.nextSerial) + 2 * |Names()|)
      ensures r.Pass? <==> GroupFilesKnown(build, Names(), filemap.items) && Keyed(Names(), targetFilemap.items)
      ensures r.Fail? ==> r.error.NameError? || r.error.KeyError? || r.error.TypeError?
      ensures r.Pass? ==> out.indentLevel == old(out.indentLevel)
      ensures r.Pass? ==> var hi := old(reg.nextSerial) + 2 * |Names()|;
        out.ofile == old(out.ofile) + Render(old(out.indentLevel), GroupSection(build, Names(), maingroupId,
          groups, srcGroups, Uid(hi), Uid(hi + 1), Uid(hi + 2), filemap.items, targetFilemap.items))
    {
      var names := Names();
      assert Keyed(names, build.targets.items);
      var sources, resources, products;
      groups, srcGroups, sources, resources, products := GenerateGroupIds();
      r := CheckAndWriteGroups(groups, srcGroups, sources, resources, products);
    }

    /** The lookups of `generate_pbx_group` and, when they all succeed, the
        writing of its section. */
    method CheckAndWriteGroups(groups: map<string, Uid>, srcGroups: map<string, Uid>, sources: Uid, resources: Uid,
                               products: Uid) returns (r: Outcome)
      requires Keyed(Names(), build.targets.items) && Keyed(Names(), groups) && Keyed(Names(), srcGroups)
      modifies out
      ensures r.Pass? <==> GroupFilesKnown(build, Names(), filemap.items) && Keyed(Names(), targetFilemap.items)
      ensures r.Fail? ==> r.error.NameError? || r.error.KeyError? || r.error.TypeError?
      ensures r.Pass? ==> out.indentLevel == old(out.indentLevel)
      ensures r.Pass? ==> out.ofile == old(out.ofile) + Render(old(out.indentLevel), GroupSection(build, Names(),
          maingroupId, groups, srcGroups, sources, resources, products, filemap.items, targetFilemap.items))
    {
      r := CheckGroupSection();
      if r.Pass? {
        WriteGroupSection(groups, srcGroups, sources, resources, products);
      }
    }

    /** The ids `generate_pbx_group` draws: two per target, then one each for
        the sources, resources and products groups. */
    method GenerateGroupIds() returns (groups: map<string, Uid>, srcGroups: map<string, Uid>, sources: Uid,
                                       resources: Uid, products: Uid)
      modifies reg
      ensures reg.nextSerial == old(reg.nextSerial) + 2 * |Names()| + 3
      ensures Keyed(Names(), groups) && Keyed(Names(), srcGroups)
      ensures IssuedTogether(groups, srcGroups, old(reg.nextSerial), old(reg.nextSerial) + 2 * |Names()|)
      ensures var hi := old(reg.nextSerial) + 2 * |Names()|;
        sources == Uid(hi) && resources == Uid(hi + 1) && products == Uid(hi + 2)
    {
      groups, srcGroups := GenerateGroupMaps();
      sources := reg.GenId();
      resources := reg.GenId();
      products := reg.GenId();
    }

    /** The lookups `generate_pbx_group` makes: the files of every target's
        source group, then every target's product. */
    method CheckGroupSection() returns (r: Outcome)
      requires Keyed(Names(), build.targets.items)
      ensures r.Pass? <==> GroupFilesKnown(build, Names(), filemap.items) && Keyed(Names(), targetFilemap.items)
      ensures r.Fail? ==> r.error.NameError? || r.error.KeyError? || r.error.TypeError?
    {
      r := CheckGroupFiles(Names(), filemap.items);
      if r.Pass? {
        r := CheckKeys(Names(), targetFilemap.items);
      }
    }

    /** The writing of `generate_pbx_group`, once its ids are drawn and its
        lookups are known to succeed. */
    method WriteGroupSection(groups: map<string, Uid>, srcGroups: map<string, Uid>, sources: Uid, resources: Uid,
                             products: Uid)
      requires Keyed(Names(), build.targets.items) && Keyed(Names(), groups) && Keyed(Names(), srcGroups)
      requires Keyed(Names(), targetFilemap.items) && GroupFilesKnown(build, Names(), filemap.items)
      modifies out
      ensures out.indentLevel == old(out.indentLevel)
      ensures out.ofile == old(out.ofile) + Render(old(out.indentLevel), GroupSection(build, Names(), maingroupId,
          groups, srcGroups, sources, resources, products, filemap.items, targetFilemap.items))
    {
      var section := GroupSection(build, Names(), maingroupId, groups, srcGroups, sources, resources, products,
                                  filemap.items, targetFilemap.items);
      WriteLines(section);
    }
  
    // ----- XCBuildConfiguration -----

    /** The `'debug'` configurations of the project, `ALL_BUILD` and `RUN_TESTS` exist. */
    ghost predicate AggregatesKnown()
      reads this`projectConfigurations, this`buildallConfigurations, this`testConfigurations
    {
      Debug in projectConfigurations.items && Debug in buildallConfigurations.items && Debug in testConfigurations.items
    }

    /** The plan of the `i`-th target: the lookups of its `'debug'`
        configuration and the flags and settings worked out for it, with
        the `file_args` in scope after it. */
    method PlanTarget(names: seq<string>, confs: map<string, Dict<string, Uid>>, i: nat,
                      leaked: Option<Dict<string, seq<string>>>)
      returns (r: Result<ConfigPlan>, settings: seq<Setting>, leaked': Option<Dict<string, seq<string>>>)
      requires Valid() && i < |names| && forall k :: 0 <= k < |names| ==> names[k] in build.targets.items
      ensures r.Err? ==> TargetPlans(env, build, names, confs, i, leaked) == Err(r.error)
      ensures r.Ok? ==>
        TargetPlans(env, build, names, confs, i, leaked)
        == Prepend([r.value], TargetPlans(env, build, names, confs, i + 1, leaked'))
      ensures r.Ok? ==> ConfigRecord(r.value.id, settings) == PlanRecord(env, build, r.value)
    {
      var name := names[i];
      var t := build.targets.items[name];
      if name !in confs {
        return Err(KeyError(name)), [], leaked;
      }
      var conf := confs[name];
      if Debug !in conf.items {
        return Err(KeyError(Debug)), [], leaked;
      }
      var c := ConfigureTarget(env, build, t, leaked);
      if c.Err? {
        return Err(c.error), [], leaked;
      }
      leaked' := if t.kind == CustomTarget then leaked else Some(c.value.flags.fileArgs);
      return Ok(ConfigPlan(conf.items[Debug], t, c.value.flags)), c.value.settings, leaked';
    }

    /** Writes the record of one more planned target. */
    method WritePlan(plan: ConfigPlan, settings: seq<Setting>, ghost done: seq<ConfigPlan>, ghost L: int,
                     ghost o: seq<string>)
      requires ConfigRecord(plan.id, settings) == PlanRecord(env, build, plan)
      requires out.indentLevel == L && out.ofile == o + Render(L, PlanRecords(env, build, done))
      modifies out
      ensures out.indentLevel == L && out.ofile == o + Render(L, PlanRecords(env, build, done + [plan]))
    {
      WriteLines(ConfigRecord(plan.id, settings));
      PlanRecordsStep(L, env, build, done, plan);
      AppendAssoc(o, Render(L, PlanRecords(env, build, done)), Render(L, PlanRecord(env, build, plan)));
    }

    /** One step of the per-target loop: plan the `i`-th target and write its
        record, or stop with the error that planning it raises. */
    method PlanAndWrite(names: seq<string>, confs: map<string, Dict<string, Uid>>, i: nat,
                        leaked: Option<Dict<string, seq<string>>>, ghost done: seq<ConfigPlan>, ghost L: int,
                        ghost o: seq<string>)
      returns (err: Option<Error>, ghost done': seq<ConfigPlan>, leaked': Option<Dict<string, seq<string>>>)
      requires Valid() && i < |names| && forall k :: 0 <= k < |names| ==> names[k] in build.targets.items
      requires out.indentLevel == L && out.ofile == o + Render(L, PlanRecords(env, build, done))
      modifies out
      ensures err.Some? ==> Prepend(done, TargetPlans(env, build, names, confs, i, leaked)) == Err(err.value)
      ensures err.None? ==> Prepend(done', TargetPlans(env, build, names, confs, i + 1, leaked'))
                            == Prepend(done, TargetPlans(env, build, names, confs, i, leaked))
      ensures err.None? ==> out.indentLevel == L && out.ofile == o + Render(L, PlanRecords(env, build, done'))
    {
      var plan, settings;
      plan, settings, leaked' := PlanTarget(names, confs, i, leaked);
      if plan.Err? {
        return Some(plan.error), done, leaked';
      }
      WritePlan(plan.value, settings, done, L, o);
      PrependTwice(done, [plan.value], TargetPlans(env, build, names, confs, i + 1, leaked'));
      return None, done + [plan.value], leaked';
    }

    /** The per-target part of `generate_xc_build_configuration`: one record
        per target, in target order, with the `file_args` of the last
        compiled target carried over to the custom targets after it. */
    method WriteTargetConfigs() returns (r: Outcome)
      requires Valid()
      modifies out
      ensures r.Pass? <==> TargetPlans(env, build, Names(), buildconfmap.items, 0, None).Ok?
      ensures r.Fail? ==> TargetPlans(env, build, Names(), buildconfmap.items, 0, None) == Err(r.error)
      ensures r.Pass? ==> out.indentLevel == old(out.indentLevel)
      ensures r.Pass? ==> out.ofile == old(out.ofile) + Render(old(out.indentLevel),
        PlanRecords(env, build, TargetPlans(env, build, Names(), buildconfmap.items, 0, None).value))
    {
      ghost var L, o := out.indentLevel, out.ofile;
      var names, confs := Names(), buildconfmap.items;
      assert forall k :: 0 <= k < |names| ==> names[k] in build.targets.items;
      var leaked: Option<Dict<string, seq<string>>> := None;
      ghost var done: seq<ConfigPlan> := [];
      for i := 0 to |names|
        invariant out.indentLevel == L && out.ofile == o + Render(L, PlanRecords(env, build, done))
        invariant Prepend(done, TargetPlans(env, build, names, confs, i, leaked)) == TargetPlans(env, build, names, confs, 0, None)
      {
        var err;
        err, done, leaked := PlanAndWrite(names, confs, i, leaked, done, L, o);
        if err.Some? {
          return Fail(err.value);
        }
      }
      PlansComplete(env, build, names, confs, leaked, done);
      return Pass;
    }

    /** `generate_xc_build_configuration`: the configurations of the project,
        of `ALL_BUILD` and of `RUN_TESTS`, then one per target. A missing
        `'debug'` configuration raises `KeyError`; the targets fail as
        `TargetPlans` says. */
    method GenerateXcBuildConfiguration() returns (r: Outcome)
      requires Valid()
      modifies out
      ensures r.Pass? <==> AggregatesKnown() && TargetPlans(env, build, Names(), buildconfmap.items, 0, None).Ok?
      ensures r.Fail? ==> r.error == if !AggregatesKnown() then KeyError(Debug)
                                     else TargetPlans(env, build, Names(), buildconfmap.items, 0, None).error
      ensures r.Pass? ==> out.indentLevel == old(out.indentLevel)
      ensures r.Pass? ==> out.ofile == old(out.ofile) + Render(old(out.indentLevel), Framed("XCBuildConfiguration",
        AggregateConfigs(projectConfigurations.items[Debug], buildallConfigurations.items[Debug],
                         testConfigurations.items[Debug], env.buildDir)
        + PlanRecords(env, build, TargetPlans(env, build, Names(), buildconfmap.items, 0, None).value)))
    {
      ghost var L, o := out.indentLevel, out.ofile;
      var begin := Begin("XCBuildConfiguration");
      out.Write(begin.text);
      if Debug !in projectConfigurations.items || Debug !in buildallConfigurations.items
         || Debug !in testConfigurations.items {
        return Fail(KeyError(Debug));
      }
      var aggregates := AggregateConfigs(projectConfigurations.items[Debug], buildallConfigurations.items[Debug],
                                         testConfigurations.items[Debug], env.buildDir);
      WriteLines(aggregates);
      r := WriteTargetConfigs();
      if r.Fail? {
        return;
      }
      var end := End("XCBuildConfiguration");
      out.Write(end.text);
      ghost var plans := PlanRecords(env, build, TargetPlans(env, build, Names(), buildconfmap.items, 0, None).value);
      FramedRender(L, "XCBuildConfiguration", aggregates + plans);
      RenderAppend(L, aggregates, plans);
      AppendFour(o, [begin.text], Render(L, aggregates), Render(L, plans), [end.text]);
    }

    // ----- XCConfigurationList -----

    /** The lists of the first `i + 1` targets, from those of the first `i`. */
    method NextList(names: seq<string>, lists: map<string, Uid>, confs: map<string, Dict<string, Uid>>, i: nat,
                    ghost L: int, ghost o: seq<string>)
      requires i < |names| && ListsKnown(names[..i], lists, confs) && ListKnown(names[i], lists, confs)
      requires out.indentLevel == L && out.ofile == o + Render(L, TargetLists(names[..i], lists, confs))
      modifies out
      ensures ListsKnown(names[..i + 1], lists, confs)
      ensures out.indentLevel == L && out.ofile == o + Render(L, TargetLists(names[..i + 1], lists, confs))
    {
      var record := TargetList(names[i], lists, confs);
      WriteLines(record);
      ListStep(L, names, lists, confs, i);
      AppendAssoc(o, Render(L, TargetLists(names[..i], lists, confs)), Render(L, record));
    }

    /** The per-target part of `generate_xc_configurationList`: a target
        without a list id or without configurations raises `KeyError` under
        its name, one without a `'debug'` configuration under `'debug'`. */
    method WriteTargetLists() returns (r: Outcome)
      modifies out
      ensures r.Pass? <==> ListsKnown(Names(), buildconflistmap.items, buildconfmap.items)
      ensures r.Fail? ==> exists i :: 0 <= i < |Names()| && ListsKnown(Names()[..i], buildconflistmap.items, buildconfmap.items)
                                      && !ListKnown(Names()[i], buildconflistmap.items, buildconfmap.items)
                                      && r.error == ListError(Names()[i], buildconflistmap.items, buildconfmap.items)
      ensures r.Pass? ==> out.indentLevel == old(out.indentLevel)
      ensures r.Pass? ==> out.ofile == old(out.ofile) + Render(old(out.indentLevel),
        TargetLists(Names(), buildconflistmap.items, buildconfmap.items))
    {
      ghost var L, o := out.indentLevel, out.ofile;
      var names, lists, confs := Names(), buildconflistmap.items, buildconfmap.items;
      for i := 0 to |names|
        invariant out.indentLevel == L
        invariant ListsKnown(names[..i], lists, confs)
        invariant out.ofile == o + Render(L, TargetLists(names[..i], lists, confs))
      {
        if !ListKnown(names[i], lists, confs) {
          r := Fail(ListError(names[i], lists, confs));
          assert 0 <= i < |names| && ListsKnown(names[..i], lists, confs) && !ListKnown(names[i], lists, confs);
          return;
        }
        NextList(names, lists, confs, i, L, o);
      }
      assert names[..|names|] == names;
      return Pass;
    }

    /** `generate_xc_configurationList`: the lists of the project, of
        `ALL_BUILD` and of `RUN_TESTS`, then one per target. */
    method GenerateXcConfigurationList() returns (r: Outcome)
      modifies out
      ensures r.Pass? <==> AggregatesKnown() && ListsKnown(Names(), buildconflistmap.items, buildconfmap.items)
      ensures r.Fail? && !AggregatesKnown() ==> r.error == KeyError(Debug)
      ensures r.Fail? && AggregatesKnown() ==>
        exists i :: 0 <= i < |Names()| && ListsKnown(Names()[..i], buildconflistmap.items, buildconfmap.items)
                    && !ListKnown(Names()[i], buildconflistmap.items, buildconfmap.items)
                    && r.error == ListError(Names()[i], buildconflistmap.items, buildconfmap.items)
      ensures r.Pass? ==> out.indentLevel == old(out.indentLevel)
      ensures r.Pass? ==> out.ofile == old(out.ofile) + Render(old(out.indentLevel), Framed("XCConfigurationList",
        AggregateLists(projectConflist, build.projectName, projectConfigurations.items[Debug], allBuildconfId,
                       buildallConfigurations.items[Debug], testBuildconfId, testConfigurations.items[Debug])
        + TargetLists(Names(), buildconflistmap.items, buildconfmap.items)))
    {
      ghost var L, o := out.indentLevel, out.ofile;
      var begin := Begin("XCConfigurationList");
      out.Write(begin.text);
      if Debug !in projectConfigurations.items || Debug !in buildallConfigurations.items
         || Debug !in testConfigurations.items {
        return Fail(KeyError(Debug));
      }
      var aggregates := AggregateLists(projectConflist, build.projectName, projectConfigurations.items[Debug],
                                       allBuildconfId, buildallConfigurations.items[Debug], testBuildconfId,
                                       testConfigurations.items[Debug]);
      WriteLines(aggregates);
      r := WriteTargetLists();
      if r.Fail? {
        return;
      }
      var end := End("XCConfigurationList");
      out.Write(end.text);
      ghost var lists := TargetLists(Names(), buildconflistmap.items, buildconfmap.items);
      FramedRender(L, "XCConfigurationList", aggregates + lists);
      RenderAppend(L, aggregates, lists);
      AppendFour(o, [begin.text], Render(L, aggregates), Render(L, lists), [end.text]);
    }

    // ----- the whole file -----

    /** The aggregate targets and the build files, the first two object
        sections of `generate`; the first that fails ends the run. On success
        the level is unchanged and the file only grew. */
    method WriteAggregatesAndBuildFiles() returns (r: Outcome)
      requires Valid()
      modifies out
      ensures r.Pass? ==> out.indentLevel == old(out.indentLevel) && old(out.ofile) <= out.ofile
    {
      r := GeneratePbxAggregateTarget();
      if r.Fail? { return; }
      r := GeneratePbxBuildFile();
    }

    /** The build styles and the container item proxies. */
    method WriteStylesAndProxies() returns (r: Outcome)
      requires buildstylemap.Valid()
      modifies out
      ensures r.Pass? ==> out.indentLevel == old(out.indentLevel) && old(out.ofile) <= out.ofile
    {
      GeneratePbxBuildStyle();
      r := GeneratePbxContainerItemProxy();
    }

    /** The file references and the groups. */
    method WriteFilesAndGroups() returns (r: Outcome)
      requires Valid() && filemap.Valid() && targetFilemap.Valid()
      modifies out, reg
      ensures r.Pass? ==> out.indentLevel == old(out.indentLevel) && old(out.ofile) <= out.ofile
    {
      r := GeneratePbxFileReference();
      if r.Fail? { return; }
      var groups, srcGroups;
      r, groups, srcGroups := GeneratePbxGroup();
    }

    /** The native targets and the project. */
    method WriteTargetsAndProject() returns (r: Outcome)
      requires nativeTargets.Valid() && buildstylemap.Valid()
      modifies out
      ensures r.Pass? ==> out.indentLevel == old(out.indentLevel) && old(out.ofile) <= out.ofile
    {
      r := GeneratePbxNativeTarget();
      if r.Fail? { return; }
      r := GeneratePbxProject();
    }

    /** The build phases and the target dependencies; `testData` is the
        serialized test list the shell phase passes to the test runner. */
    method WritePhaseObjects(testData: string) returns (r: Outcome)
      modifies out
      ensures r.Pass? ==> out.indentLevel == old(out.indentLevel) && old(out.ofile) <= out.ofile
    {
      GeneratePbxShellBuildPhase(testData);
      r := GeneratePbxSourcesBuildPhase();
      if r.Fail? { return; }
      r := GeneratePbxTargetDependency();
    }

    /** The two configuration sections. */
    method WriteConfigurationObjects() returns (r: Outcome)
      requires Valid()
      modifies out
      ensures r.Pass? ==> out.indentLevel == old(out.indentLevel) && old(out.ofile) <= out.ofile
    {
      r := GenerateXcBuildConfiguration();
      if r.Fail? { return; }
      r := GenerateXcConfigurationList();
    }

    /** What a successful run leaves in the file after the writes `o` made
        before it at level `L`: the prefix, the object sections `body`, and
        the suffix, two levels deeper, naming the project object as the root. */
    ghost function ProjectFile(o: seq<string>, L: int, body: seq<string>): seq<string>
    {
      o + Render(L, PrefixLines()) + body + Render(L + 2, SuffixLines(projectUid))
    }

    /** The second half of `generate`: the prefix, the object sections in a
        fixed order, and the suffix. The first section that fails ends the
        run with its error. On success the level is back where it started
        and the file is the prefix, the sections, and the suffix naming the
        project object as the root. */
    method WriteProject(testData: string, ghost o: seq<string>, ghost L: int) returns (r: Outcome, ghost body: seq<string>)
      requires Valid() && filemap.Valid() && targetFilemap.Valid() && buildstylemap.Valid() && nativeTargets.Valid()
      requires out.ofile == o && out.indentLevel == L
      modifies out, reg
      ensures r.Pass? ==> out.indentLevel == L
      ensures r.Pass? ==> out.ofile == ProjectFile(o, L, body)
    {
      body := [];
      GeneratePrefix();
      ghost var start := out.ofile;
      r := WriteAggregatesAndBuildFiles();
      if r.Fail? { return; }
      r := WriteStylesAndProxies();
      if r.Fail? { return; }
      r := WriteFilesAndGroups();
      if r.Fail? { return; }
      r := WriteTargetsAndProject();
      if r.Fail? { return; }
      r := WritePhaseObjects(testData);
      if r.Fail? { return; }
      r := WriteConfigurationObjects();
      if r.Fail? { return; }
      body := out.ofile[|start|..];
      assert out.ofile == start + body;
      GenerateSuffix();
    }

    /** `generate`: builds every table, then writes the file. A table
        builder that fails ends the run before anything is written;
        otherwise the file is written as `WriteProject` says, and when the
        fixed ids were drawn before the run, no table holds one of them. */
    method Generate(testData: string) returns (r: Outcome, ghost body: seq<string>)
      requires Valid()
      modifies this, reg, out
      ensures r.Pass? ==> out.indentLevel == old(out.indentLevel)
      ensures r.Pass? ==> out.ofile == ProjectFile(old(out.ofile), old(out.indentLevel), body)
      ensures r.Pass? && FixedBefore(FixedIds(), old(reg.nextSerial)) ==> ApartFromAll(FixedIds(), TableIds())
    {
      body := [];
      ghost var w;
      r, w := GenerateMaps();
      if r.Fail? { return; }
      r, body := WriteProject(testData, old(out.ofile), old(out.indentLevel));
    }
}

  /** Every id in `ids` has a serial below `next`. */
  ghost predicate FixedBefore(ids: set<Uid>, next: nat)
  {
    forall u :: u in ids ==> u.serial < next
  }

  /** No set of `tables` shares an id with `ids`. */
  ghost predicate ApartFromAll(ids: set<Uid>, tables: seq<set<Uid>>)
  {
    forall k :: 0 <= k < |tables| ==> ids !! tables[k]
  }

  /** A backend built for `g` in `e` and run: the seven ids the constructor
      draws come before every table's, so no table holds one of them. */
  method ConstructAndGenerate(g: BuildGraph, e: Environment, testData: string)
    returns (b: XcodeBackend, r: Outcome)
    requires ValidGraph(g) && e.compilers.Valid()
    ensures r.Pass? ==> ApartFromAll(b.FixedIds(), b.TableIds())
  {
    b := new XcodeBackend(g, e);
    ghost var body;
    r, body := b.Generate(testData);
  }
}
