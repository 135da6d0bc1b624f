/** The records of the project file, section by section, as lists of lines.
    A line is written either raw (`ofile.write`) or through `write_line` at a
    depth relative to the indentation level the section starts at; `Render`
    turns such a list into the writes the emitters make. */
module Sections {
  import opened Wrappers
  import opened Strings
  import opened Dicts
  import opened Paths
  import opened Build
  import opened FileTypes
  import opened Writer
  import opened Registry
  import opened FileMaps
  import opened Settings
  import opened Flags
  import opened NativeTargets

  datatype Line = Raw(text: string) | At(depth: int, text: string)

  function RenderOne(level: int, l: Line): string
  {
    match l
    case Raw(t) => t
    case At(d, t) => RenderLine(level + d, t)
  }

  /** The writes a list of lines makes when the section starts at `level`. */
  function Render(level: int, lines: seq<Line>): (r: seq<string>)
    ensures |r| == |lines|
  {
    if lines == [] then [] else Render(level, lines[..|lines| - 1]) + [RenderOne(level, lines[|lines| - 1])]
  }

  /** One more line written. */
  lemma RenderSnoc(level: int, lines: seq<Line>, l: Line)
    ensures Render(level, lines + [l]) == Render(level, lines) + [RenderOne(level, l)]
  {
    assert (lines + [l])[..|lines|] == lines;
  }

  /** Two lists of lines written one after the other. */
  lemma {:induction false} RenderAppend(level: int, a: seq<Line>, b: seq<Line>)
    ensures Render(level, a + b) == Render(level, a) + Render(level, b)
  {
    if b == [] {
      assert a + b == a;
    } else {
      var init, last := b[..|b| - 1], b[|b| - 1];
      assert b == init + [last];
      assert a + b == (a + init) + [last];
      RenderAppend(level, a, init);
      RenderSnoc(level, a + init, last);
      RenderSnoc(level, init, last);
      AppendAssoc(Render(level, a), Render(level, init), [RenderOne(level, last)]);
    }
  }

  /** A raw line is written as it is. */
  lemma RenderRaw(level: int, text: string)
    ensures Render(level, [Raw(text)]) == [text]
  {
    assert [Raw(text)][..0] == [];
  }

  /** Six lists of lines written one after the other. */
  lemma RenderSix(level: int, a: seq<Line>, b: seq<Line>, c: seq<Line>, d: seq<Line>, e: seq<Line>, f: seq<Line>)
    ensures Render(level, a + b + c + d + e + f)
         == Render(level, a) + Render(level, b) + Render(level, c) + Render(level, d) + Render(level, e) + Render(level, f)
  {
    RenderAppend(level, a, b);
    RenderAppend(level, a + b, c);
    RenderAppend(level, a + b + c, d);
    RenderAppend(level, a + b + c + d, e);
    RenderAppend(level, a + b + c + d + e, f);
  }

  /** The `i`-th write is the `i`-th line at the section's level. */
  lemma {:induction false} RenderAt(level: int, lines: seq<Line>, i: nat)
    requires i < |lines|
    ensures Render(level, lines)[i] == RenderOne(level, lines[i])
  {
    if i < |lines| - 1 {
      RenderAt(level, lines[..|lines| - 1], i);
    }
  }

  /** One more name found in `m`. */
  lemma KeyedSnoc<V>(names: seq<string>, m: map<string, V>, i: nat)
    requires i < |names| && Keyed(names[..i], m) && names[i] in m
    ensures Keyed(names[..i + 1], m)
  {
    var s := names[..i + 1];
    forall j | 0 <= j < |s|
      ensures s[j] in m
    {
      if j < i {
        assert s[j] == names[..i][j];
      }
    }
  }

  /** A section: its opening banner, its records and its closing banner. */
  function Framed(section: string, body: seq<Line>): seq<Line>
  {
    [Begin(section)] + body + [End(section)]
  }

  /** A section's writes: the opening banner, the body's writes, the closing banner. */
  lemma FramedRender(level: int, section: string, body: seq<Line>)
    ensures Render(level, Framed(section, body)) == [Begin(section).text] + Render(level, body) + [End(section).text]
  {
    RenderAppend(level, [Begin(section)], body);
    RenderAppend(level, [Begin(section)] + body, [End(section)]);
    RenderRaw(level, Begin(section).text);
    RenderRaw(level, End(section).text);
  }

  /** Every name is a key of `m`. */
  predicate Keyed<V>(names: seq<string>, m: map<string, V>)
  {
    forall i :: 0 <= i < |names| ==> names[i] in m
  }

  /** The section banners. */
  function Begin(section: string): Line
  {
    Raw("\n/* Begin " + section + " section */\n")
  }

  function End(section: string): Line
  {
    Raw("/* End " + section + " section */\n")
  }

  /** `%s /* %s */,`: a reference in a list. */
  function Entry(id: string, comment: string): string
  {
    id + " /* " + comment + " */,"
  }

  /** `%s /* %s */ = {`: the opening of a record. */
  function Opening(id: string, comment: string): string
  {
    id + " /* " + comment + " */ = {"
  }

  /** A quoted value: `"s"`. */
  function Q(s: string): string
  {
    "\"" + s + "\""
  }

  /** One reference per id, all with the same comment. */
  function TaggedEntries(depth: int, ids: seq<Uid>, tag: string): (r: seq<Line>)
    ensures |r| == |ids|
    ensures forall i :: 0 <= i < |ids| ==> r[i] == At(depth, Entry(ids[i].Text(), tag))
  {
    seq(|ids|, i requires 0 <= i < |ids| => At(depth, Entry(ids[i].Text(), tag)))
  }

  /** One reference per name, to the name's id in `m`, commented with the name. */
  function NamedEntries(depth: int, names: seq<string>, m: map<string, Uid>): (r: seq<Line>)
    requires Keyed(names, m)
    ensures |r| == |names|
    ensures forall i :: 0 <= i < |names| ==> r[i] == At(depth, Entry(m[names[i]].Text(), names[i]))
  {
    seq(|names|, i requires 0 <= i < |names| => At(depth, Entry(m[names[i]].Text(), names[i])))
  }

  /** The ids of the keys, in key order. */
  function Lookup(keys: seq<string>, m: map<string, Uid>): (r: seq<Uid>)
    requires Keyed(keys, m)
    ensures |r| == |keys| && forall i :: 0 <= i < |keys| ==> r[i] == m[keys[i]]
  {
    seq(|keys|, i requires 0 <= i < |keys| => m[keys[i]])
  }

  // ----- prefix and suffix -----

  function PrefixLines(): seq<Line>
  {
    [ Raw("// !$*UTF8*$!\n{\n"),
      At(1, "archiveVersion = 1;\n"),
      At(1, "classes = {\n"),
      At(1, "};\n"),
      At(1, "objectVersion = 46;\n"),
      At(1, "objects = {\n") ]
  }

  /** Written at the level the prefix left behind, two levels in. */
  function SuffixLines(projectUid: string): seq<Line>
  {
    [ At(-1, "};\n"),
      At(-1, "rootObject = " + projectUid + ";"),
      At(-2, "}\n") ]
  }

  // ----- PBXAggregateTarget -----

  function AllBuildHead(allId: Uid, allBuildconf: Uid): seq<Line>
  {
    [ At(0, Opening(allId.Text(), "ALL_BUILD")),
      At(1, "isa = PBXAggregateTarget;"),
      At(1, "buildConfigurationList = " + allBuildconf.Text() + ";"),
      At(1, "buildPhases = ("),
      At(1, ");"),
      At(1, "dependencies = (") ]
  }

  function AllBuildTail(): seq<Line>
  {
    [ At(1, ");"),
      At(1, "name = ALL_BUILD;"),
      At(1, "productName = ALL_BUILD;"),
      At(0, "};") ]
  }

  function RunTestsRecord(testId: Uid, testBuildconf: Uid, testCommand: Uid): seq<Line>
  {
    [ At(0, Opening(testId.Text(), "RUN_TESTS")),
      At(1, "isa = PBXAggregateTarget;"),
      At(1, "buildConfigurationList = " + testBuildconf.Text() + ";"),
      At(1, "buildPhases = (") ]
    + [ At(2, Entry(testCommand.Text(), "test run command")),
        At(1, ");"),
        At(1, "dependencies = ("),
        At(1, ");") ]
    + [ At(1, "name = RUN_TESTS;"),
        At(1, "productName = RUN_TESTS;"),
        At(0, "};") ]
  }

  /** The `ALL_BUILD` target depends on every target, through the target's
      dependency object, in target order; `RUN_TESTS` runs the test command. */
  function AggregateSection(allId: Uid, allBuildconf: Uid, deps: seq<Uid>,
                            testId: Uid, testBuildconf: Uid, testCommand: Uid): seq<Line>
  {
    [Begin("PBXAggregateTarget")] + AllBuildHead(allId, allBuildconf)
    + TaggedEntries(2, deps, "PBXTargetDependency") + AllBuildTail()
    + RunTestsRecord(testId, testBuildconf, testCommand) + [End("PBXAggregateTarget")]
  }

  /** The aggregate section's writes, block by block. */
  lemma AggregateRender(L: int, allId: Uid, allBuildconf: Uid, deps: seq<Uid>,
                        testId: Uid, testBuildconf: Uid, testCommand: Uid)
    ensures Render(L, AggregateSection(allId, allBuildconf, deps, testId, testBuildconf, testCommand))
         == [Begin("PBXAggregateTarget").text] + Render(L, AllBuildHead(allId, allBuildconf))
          + Render(L, TaggedEntries(2, deps, "PBXTargetDependency")) + Render(L, AllBuildTail())
          + Render(L, RunTestsRecord(testId, testBuildconf, testCommand)) + [End("PBXAggregateTarget").text]
  {
    RenderRaw(L, Begin("PBXAggregateTarget").text);
    RenderRaw(L, End("PBXAggregateTarget").text);
    RenderSix(L, [Begin("PBXAggregateTarget")], AllBuildHead(allId, allBuildconf),
      TaggedEntries(2, deps, "PBXTargetDependency"), AllBuildTail(),
      RunTestsRecord(testId, testBuildconf, testCommand), [End("PBXAggregateTarget")]);
  }

  /** The `i`-th dependency of `ALL_BUILD` is the `i`-th target's dependency object. */
  lemma AggregateListsEveryTarget(allId: Uid, allBuildconf: Uid, deps: seq<Uid>,
                                  testId: Uid, testBuildconf: Uid, testCommand: Uid, i: nat)
    requires i < |deps|
    ensures var s := AggregateSection(allId, allBuildconf, deps, testId, testBuildconf, testCommand);
      |s| == 23 + |deps| && s[7 + i] == At(2, Entry(deps[i].Text(), "PBXTargetDependency"))
  {
    var s := AggregateSection(allId, allBuildconf, deps, testId, testBuildconf, testCommand);
    var pre := [Begin("PBXAggregateTarget")] + AllBuildHead(allId, allBuildconf);
    var es := TaggedEntries(2, deps, "PBXTargetDependency");
    assert |pre| == 7;
    assert s == pre + es + (AllBuildTail() + RunTestsRecord(testId, testBuildconf, testCommand) + [End("PBXAggregateTarget")]);
    assert s[7 + i] == es[i];
  }

  // ----- PBXBuildFile -----

  /** One entry of the build-file section: a path and whether it is an
      object file, or an object entry that is not a path, which the section
      cannot join onto the target's directory. */
  datatype BuildFile = BuildFile(path: string, isObject: bool) | NotAPath(repr: string)

  /** The path the build-file section uses for a source: a file reference's
      bare name, or a plain path, under the target's sub-directory. */
  function BuildFileKey(subdir: string, s: SourceEntry): Option<string>
  {
    match s
    case FileSource(_, f) => Some(JoinPath(subdir, f))
    case PathSource(p) => Some(JoinPath(subdir, p))
    case UnknownSource(_) => None
  }

  /** The source entries of one target, in order. */
  function SourceBuildFiles(subdir: string, sources: seq<SourceEntry>): (r: seq<BuildFile>)
    ensures |r| <= |sources|
    ensures forall i :: 0 <= i < |r| ==> r[i].BuildFile? && !r[i].isObject
  {
    if sources == [] then []
    else
      var k := BuildFileKey(subdir, sources[|sources| - 1]);
      SourceBuildFiles(subdir, sources[..|sources| - 1]) + (if k.Some? then [BuildFile(k.value, false)] else [])
  }

  /** The entry of one object: its path under the target's sub-directory, or
      the entry itself when it is not a path. */
  function ObjectBuildFile(subdir: string, o: ObjectEntry): BuildFile
  {
    match o
    case ObjectPath(p) => BuildFile(JoinPath(subdir, p), true)
    case OtherObject(x) => NotAPath(x)
  }

  /** The object entries of one target, one per object, in order. */
  function ObjectBuildFiles(subdir: string, objects: seq<ObjectEntry>): (r: seq<BuildFile>)
    ensures |r| == |objects|
    ensures forall i :: 0 <= i < |objects| ==> (r[i].BuildFile? <==> objects[i].ObjectPath?)
    ensures forall i :: 0 <= i < |objects| ==> objects[i].ObjectPath? ==> r[i].isObject
  {
    seq(|objects|, i requires 0 <= i < |objects| => ObjectBuildFile(subdir, objects[i]))
  }

  function TargetBuildFiles(t: Target): seq<BuildFile>
  {
    SourceBuildFiles(t.subdir, t.sources) + ObjectBuildFiles(t.subdir, t.objects)
  }

  /** Everything the build-file section lists, target by target. */
  function GraphBuildFiles(g: BuildGraph, names: seq<string>): seq<BuildFile>
    requires Keyed(names, g.targets.items)
  {
    if names == [] then []
    else GraphBuildFiles(g, names[..|names| - 1]) + TargetBuildFiles(g.targets.items[names[|names| - 1]])
  }

  /** Every entry is a path with a build id and a file reference. */
  predicate FilesKnown(fs: seq<BuildFile>, bm: map<string, Uid>, fm: map<string, Uid>)
  {
    forall i :: 0 <= i < |fs| ==> fs[i].BuildFile? && fs[i].path in bm && fs[i].path in fm
  }

  /** What the section raises at one entry: `TypeError` for an entry that is
      not a path, `KeyError` for a path missing from either table. */
  function FileError(f: BuildFile, bm: map<string, Uid>, fm: map<string, Uid>): (r: Option<Error>)
    ensures r.None? <==> f.BuildFile? && f.path in bm && f.path in fm
  {
    match f
    case NotAPath(x) => Some(TypeError(x))
    case BuildFile(p, _) => if p in bm && p in fm then None else Some(KeyError(p))
  }

  function BuildFileLine(sourceDir: string, f: BuildFile, bm: map<string, Uid>, fm: map<string, Uid>): Line
    requires f.BuildFile? && f.path in bm && f.path in fm
  {
    var full := JoinPath(sourceDir, f.path);
    if f.isObject then
      Raw(bm[f.path].Text() + " /* " + full + " */ = { isa = PBXBuildFile; fileRef = " + fm[f.path].Text()
          + " /* " + full + " */;};\n")
    else
      Raw(bm[f.path].Text() + " /* " + full + " */ = { isa = PBXBuildFile; fileRef = " + fm[f.path].Text()
          + " /* " + full + " */; settings = { COMPILER_FLAGS = \"\"; }; };\n")
  }

  function BuildFileLines(sourceDir: string, fs: seq<BuildFile>, bm: map<string, Uid>, fm: map<string, Uid>): (r: seq<Line>)
    requires FilesKnown(fs, bm, fm)
    ensures |r| == |fs|
    ensures forall i :: 0 <= i < |fs| ==> r[i] == BuildFileLine(sourceDir, fs[i], bm, fm)
  {
    seq(|fs|, i requires 0 <= i < |fs| => BuildFileLine(sourceDir, fs[i], bm, fm))
  }

  lemma FilesKnownAppend(a: seq<BuildFile>, b: seq<BuildFile>, bm: map<string, Uid>, fm: map<string, Uid>)
    ensures FilesKnown(a + b, bm, fm) <==> FilesKnown(a, bm, fm) && FilesKnown(b, bm, fm)
  {
    if FilesKnown(a, bm, fm) && FilesKnown(b, bm, fm) {
      forall i | 0 <= i < |a + b|
        ensures (a + b)[i].BuildFile? && (a + b)[i].path in bm && (a + b)[i].path in fm
      {
        if i >= |a| {
          assert (a + b)[i] == b[i - |a|];
        }
      }
    }
    if FilesKnown(a + b, bm, fm) {
      forall i | 0 <= i < |a|
        ensures a[i].BuildFile? && a[i].path in bm && a[i].path in fm
      {
        assert (a + b)[i] == a[i];
      }
      forall i | 0 <= i < |b|
        ensures b[i].BuildFile? && b[i].path in bm && b[i].path in fm
      {
        assert (a + b)[|a| + i] == b[i];
      }
    }
  }

  /** The build-file lines of the first `i + 1` targets, from those of the first `i`. */
  lemma BuildFileStep(level: int, sourceDir: string, g: BuildGraph, names: seq<string>,
                      bm: map<string, Uid>, fm: map<string, Uid>, i: nat)
    requires Keyed(names, g.targets.items) && i < |names|
    requires FilesKnown(GraphBuildFiles(g, names[..i]), bm, fm)
    requires FilesKnown(TargetBuildFiles(g.targets.items[names[i]]), bm, fm)
    ensures FilesKnown(GraphBuildFiles(g, names[..i + 1]), bm, fm)
    ensures Render(level, BuildFileLines(sourceDir, GraphBuildFiles(g, names[..i + 1]), bm, fm))
         == Render(level, BuildFileLines(sourceDir, GraphBuildFiles(g, names[..i]), bm, fm))
          + Render(level, BuildFileLines(sourceDir, TargetBuildFiles(g.targets.items[names[i]]), bm, fm))
  {
    var a := GraphBuildFiles(g, names[..i]);
    var b := TargetBuildFiles(g.targets.items[names[i]]);
    assert names[..i + 1][..i] == names[..i];
    assert GraphBuildFiles(g, names[..i + 1]) == a + b;
    FilesKnownAppend(a, b, bm, fm);
    var la, lb := BuildFileLines(sourceDir, a, bm, fm), BuildFileLines(sourceDir, b, bm, fm);
    assert BuildFileLines(sourceDir, a + b, bm, fm) == la + lb by {
      forall k | 0 <= k < |a + b|
        ensures BuildFileLines(sourceDir, a + b, bm, fm)[k] == (la + lb)[k]
      {
        if k < |a| {
          assert (a + b)[k] == a[k];
        } else {
          assert (a + b)[k] == b[k - |a|];
        }
      }
    }
    RenderAppend(level, la, lb);
  }

  /** A source with a path, listed where the build-file section looks it up. */
  lemma {:induction false} SourceBuildFilesFiled(subdir: string, sources: seq<SourceEntry>, objects: seq<ObjectEntry>,
                                                 k: nat)
    requires forall j :: 0 <= j < |sources| ==> sources[j].FileSource? ==> sources[j].subdir == subdir
    requires k < |SourceBuildFiles(subdir, sources)|
    ensures SourceBuildFiles(subdir, sources)[k].path in TargetPaths(subdir, sources, objects)
  {
    var init, last := sources[..|sources| - 1], sources[|sources| - 1];
    var key := BuildFileKey(subdir, last);
    var head := SourceBuildFiles(subdir, init);
    assert SourceBuildFiles(subdir, sources) == head + (if key.Some? then [BuildFile(key.value, false)] else []);
    assert TargetPaths(subdir, sources, objects) == TargetPaths(subdir, init, objects) + StepPaths(subdir, last, objects);
    if k < |head| {
      forall j | 0 <= j < |init| ensures init[j].FileSource? ==> init[j].subdir == subdir {
        assert init[j] == sources[j];
      }
      SourceBuildFilesFiled(subdir, init, objects, k);
    } else {
      assert key == SourceKey(subdir, last);
      assert StepPaths(subdir, last, objects)[0] == key.value;
    }
  }

  /** Every object path is filed once the target has at least one source. */
  lemma ObjectPathsFiled(subdir: string, sources: seq<SourceEntry>, objects: seq<ObjectEntry>, k: nat)
    requires |sources| > 0 && Joinable(objects) && k < |objects|
    ensures JoinPath(subdir, objects[k].path) in TargetPaths(subdir, sources, objects)
  {
    var init, last := sources[..|sources| - 1], sources[|sources| - 1];
    var step := StepPaths(subdir, last, objects);
    assert TargetPaths(subdir, sources, objects) == TargetPaths(subdir, init, objects) + step;
    ObjectPathsAt(subdir, objects, k);
    var pre := OptionList(SourceKey(subdir, last));
    assert step[|pre| + k] == ObjectPaths(subdir, objects)[k];
  }

  /** A target can have all its build files looked up in tables keyed by
      every path the file tables hold: its file references all lie in its own
      directory, and it has a source whenever it has objects (the tables file
      objects only while walking the sources). */
  predicate BuildFilesLocal(t: Target)
  {
    && (forall j :: 0 <= j < |t.sources| ==> t.sources[j].FileSource? ==> t.sources[j].subdir == t.subdir)
    && (|t.objects| > 0 ==> |t.sources| > 0)
  }

  /** Every path of such a target's build files is among its filed paths. */
  lemma TargetBuildFilesFiled(t: Target, k: nat)
    requires BuildFilesLocal(t) && BuildmapJoins(t) && k < |TargetBuildFiles(t)|
    ensures TargetBuildFiles(t)[k].BuildFile?
    ensures TargetBuildFiles(t)[k].path in TargetPaths(t.subdir, t.sources, t.objects)
  {
    var a := SourceBuildFiles(t.subdir, t.sources);
    if k < |a| {
      SourceBuildFilesFiled(t.subdir, t.sources, t.objects, k);
    } else {
      assert TargetBuildFiles(t)[k] == ObjectBuildFiles(t.subdir, t.objects)[k - |a|];
      ObjectPathsFiled(t.subdir, t.sources, t.objects, k - |a|);
    }
  }

  /** The paths of the build-file section are all filed when every target is local. */
  lemma {:induction false} GraphBuildFilesFiled(g: BuildGraph, names: seq<string>, k: nat)
    requires Keyed(names, g.targets.items)
    requires forall i :: 0 <= i < |names| ==> BuildFilesLocal(g.targets.items[names[i]])
    requires GraphJoins(g, names)
    requires k < |GraphBuildFiles(g, names)|
    ensures GraphBuildFiles(g, names)[k].BuildFile?
    ensures GraphBuildFiles(g, names)[k].path in GraphPaths(g, names)
  {
    var init := names[..|names| - 1];
    var t := g.targets.items[names[|names| - 1]];
    var head := GraphStep(g, names);
    if k < |head| {
      GraphBuildFilesFiled(g, init, k);
      assert GraphBuildFiles(g, names)[k] == head[k];
    } else {
      TargetBuildFilesFiled(t, k - |head|);
      assert GraphBuildFiles(g, names)[k] == TargetBuildFiles(t)[k - |head|];
    }
  }

  /** One step of the walk over the targets: the last target's build files and
      paths follow those of the targets before it, which stay local and joinable. */
  lemma GraphStep(g: BuildGraph, names: seq<string>) returns (head: seq<BuildFile>)
    requires Keyed(names, g.targets.items) && |names| > 0
    requires forall i :: 0 <= i < |names| ==> BuildFilesLocal(g.targets.items[names[i]])
    requires GraphJoins(g, names)
    ensures var init, t := names[..|names| - 1], g.targets.items[names[|names| - 1]];
      && Keyed(init, g.targets.items)
      && (forall i :: 0 <= i < |init| ==> BuildFilesLocal(g.targets.items[init[i]]))
      && GraphJoins(g, init)
      && BuildFilesLocal(t) && BuildmapJoins(t)
      && head == GraphBuildFiles(g, init)
      && GraphBuildFiles(g, names) == head + TargetBuildFiles(t)
      && GraphPaths(g, names) == GraphPaths(g, init) + TargetPaths(t.subdir, t.sources, t.objects)
  {
    var init, n := names[..|names| - 1], names[|names| - 1];
    head := GraphBuildFiles(g, init);
    forall i | 0 <= i < |init|
      ensures init[i] in g.targets.items
      ensures BuildFilesLocal(g.targets.items[init[i]]) && BuildmapJoins(g.targets.items[init[i]])
    {
      assert init[i] == names[i];
    }
  }

  /** A file reference from another directory: the tables file it under its
      own directory, the build-file section looks it up under the target's. */
  lemma ForeignFileNotFiled()
    ensures var s := FileSource("lib", "a.c");
      && TargetPaths("app", [s], []) == ["lib/a.c"]
      && TargetBuildFiles(Target(Executable, "app", "", "app", "app", [s], [], [], [],
           Dict([], map[]), map[], [], [], None, None, "", false, []))
         == [BuildFile("app/a.c", false)]
  {
    var s := FileSource("lib", "a.c");
    assert [s][..0] == [];
    assert JoinPath("lib", "a.c") == "lib/a.c" by {
      assert "a.c"[..1] == "a";
      assert "lib"[2..] == "b";
    }
    assert JoinPath("app", "a.c") == "app/a.c" by {
      assert "a.c"[..1] == "a";
      assert "app"[2..] == "p";
    }
  }

  /** A file reference whose directory differs from its target's is listed
      under the target's directory instead. */
  lemma BuildFileUsesTargetDir(subdir: string, sd: string, f: string)
    ensures SourceBuildFiles(subdir, [FileSource(sd, f)]) == [BuildFile(JoinPath(subdir, f), false)]
    ensures SourceKey(subdir, FileSource(sd, f)) == Some(JoinPath(sd, f))
  {
    assert [FileSource(sd, f)][..0] == [];
  }

  // ----- PBXBuildStyle -----

  function BuildStyleRecord(id: Uid, name: string): seq<Line>
  {
    [ At(0, Opening(id.Text(), name) + "\n"),
      At(1, "isa = PBXBuildStyle;\n"),
      At(1, "buildSettings = {\n"),
      At(2, "COPY_PHASE_STRIP = NO;\n"),
      At(1, "};\n"),
      At(1, "name = " + Q(name) + ";\n"),
      At(0, "};\n") ]
  }

  function BuildStyleRecords(names: seq<string>, m: map<string, Uid>): seq<Line>
    requires Keyed(names, m)
  {
    if names == [] then []
    else BuildStyleRecords(names[..|names| - 1], m) + BuildStyleRecord(m[names[|names| - 1]], names[|names| - 1])
  }

  /** The records of one more style. */
  lemma BuildStyleStep(level: int, names: seq<string>, m: map<string, Uid>, i: nat)
    requires Keyed(names, m) && i < |names|
    ensures Render(level, BuildStyleRecords(names[..i + 1], m))
         == Render(level, BuildStyleRecords(names[..i], m)) + Render(level, BuildStyleRecord(m[names[i]], names[i]))
  {
    assert names[..i + 1][..i] == names[..i];
    RenderAppend(level, BuildStyleRecords(names[..i], m), BuildStyleRecord(m[names[i]], names[i]));
  }

  /** The `i`-th record of the section is the `i`-th style's, named after it. */
  lemma {:induction false} BuildStyleNamesStyle(names: seq<string>, m: map<string, Uid>, i: nat)
    requires Keyed(names, m) && i < |names|
    ensures |BuildStyleRecords(names, m)| == 7 * |names|
    ensures BuildStyleRecords(names, m)[7 * i] == At(0, Opening(m[names[i]].Text(), names[i]) + "\n")
    ensures BuildStyleRecords(names, m)[7 * i + 5] == At(1, "name = " + Q(names[i]) + ";\n")
  {
    var init := names[..|names| - 1];
    var n := names[|names| - 1];
    assert BuildStyleRecords(names, m) == BuildStyleRecords(init, m) + BuildStyleRecord(m[n], n);
    if i < |names| - 1 {
      BuildStyleNamesStyle(init, m, i);
      assert init[i] == names[i];
    } else if |init| > 0 {
      BuildStyleNamesStyle(init, m, 0);
    }
  }

  // ----- PBXContainerItemProxy -----

  /** The proxy of a target points at the project and at the target's native target. */
  function ProxyRecord(proxy: Uid, native: Uid, projectUid: string, name: string): seq<Line>
  {
    [ At(0, Opening(proxy.Text(), "PBXContainerItemProxy")),
      At(1, "isa = PBXContainerItemProxy;"),
      At(1, "containerPortal = " + projectUid + " /* Project object */;"),
      At(1, "proxyType = 1;"),
      At(1, "remoteGlobalIDString = " + native.Text() + ";"),
      At(1, "remoteInfo = " + Q(name) + ";"),
      At(0, "};") ]
  }

  function ProxyRecords(names: seq<string>, proxies: map<string, Uid>, natives: map<string, Uid>,
                        projectUid: string): (r: seq<Line>)
    requires Keyed(names, proxies) && Keyed(names, natives)
    ensures |r| == 7 * |names|
  {
    if names == [] then []
    else
      var n := names[|names| - 1];
      ProxyRecords(names[..|names| - 1], proxies, natives, projectUid) + ProxyRecord(proxies[n], natives[n], projectUid, n)
  }

  /** The proxies of one more target. */
  lemma ProxyStep(level: int, names: seq<string>, proxies: map<string, Uid>, natives: map<string, Uid>,
                  projectUid: string, i: nat)
    requires i < |names| && Keyed(names[..i], proxies) && Keyed(names[..i], natives)
    requires names[i] in proxies && names[i] in natives
    ensures Keyed(names[..i + 1], proxies) && Keyed(names[..i + 1], natives)
    ensures Render(level, ProxyRecords(names[..i + 1], proxies, natives, projectUid))
         == Render(level, ProxyRecords(names[..i], proxies, natives, projectUid))
          + Render(level, ProxyRecord(proxies[names[i]], natives[names[i]], projectUid, names[i]))
  {
    KeyedSnoc(names, proxies, i);
    KeyedSnoc(names, natives, i);
    var n := names[i];
    assert names[..i + 1][..i] == names[..i] && names[..i + 1][i] == n;
    RenderAppend(level, ProxyRecords(names[..i], proxies, natives, projectUid),
      ProxyRecord(proxies[n], natives[n], projectUid, n));
  }

  /** The proxy record of the `i`-th target names that target's native target. */
  lemma {:induction false} ProxyPointsAtNativeTarget(names: seq<string>, proxies: map<string, Uid>,
                                                     natives: map<string, Uid>, projectUid: string, i: nat)
    requires Keyed(names, proxies) && Keyed(names, natives) && i < |names|
    ensures ProxyRecords(names, proxies, natives, projectUid)[7 * i + 4] ==
      At(1, "remoteGlobalIDString = " + natives[names[i]].Text() + ";")
    ensures ProxyRecords(names, proxies, natives, projectUid)[7 * i] ==
      At(0, Opening(proxies[names[i]].Text(), "PBXContainerItemProxy"))
  {
    var init := names[..|names| - 1];
    var n := names[|names| - 1];
    var r := ProxyRecords(names, proxies, natives, projectUid);
    var rest := ProxyRecords(init, proxies, natives, projectUid);
    assert r == rest + ProxyRecord(proxies[n], natives[n], projectUid, n);
    if i < |names| - 1 {
      ProxyPointsAtNativeTarget(init, proxies, natives, projectUid, i);
      assert init[i] == names[i];
    }
  }

  // ----- PBXFileReference -----

  /** `os.path.split(p)[-1]`: the text after the last separator. */
  function PathTail(p: string): (r: string)
    ensures Sep !in r && EndsWith(p, r)
  {
    SplitLastIsSuffix(p, Sep);
    SplitShape(p, Sep);
    var parts := Split(p, Sep);
    parts[|parts| - 1]
  }

  /** A source or object file: its type comes from its extension. */
  function FileRefLine(sourceDir: string, path: string, id: Uid): Line
  {
    Raw(id.Text() + " /* " + JoinPath(sourceDir, path) + " */ = { isa = PBXFileReference; explicitFileType = "
        + Q(TypeForFilename(path).0) + "; fileEncoding = 4; name = " + Q(PathTail(path)) + "; path = " + Q(path)
        + "; sourceTree = SOURCE_ROOT; };\n")
  }

  function FileRefLines(sourceDir: string, paths: seq<string>, m: map<string, Uid>): (r: seq<Line>)
    requires Keyed(paths, m)
    ensures |r| == |paths|
    ensures forall i :: 0 <= i < |paths| ==> r[i] == FileRefLine(sourceDir, paths[i], m[paths[i]])
  {
    seq(|paths|, i requires 0 <= i < |paths| => FileRefLine(sourceDir, paths[i], m[paths[i]]))
  }

  /** The file type of a product: an executable is a Mach-O executable, a
      shared library is typed like any `.dylib`, anything else by its file name. */
  function ProductFileType(t: Target): string
  {
    match t.kind
    case Executable => "compiled.mach-o.executable"
    case SharedLibrary => TypeForFilename("dummy.dylib").0
    case _ => TypeForFilename(t.filename).0
  }

  /** The path of a product: quoted unless it is an executable or a shared library. */
  function ProductPath(t: Target): string
  {
    if t.kind == Executable || t.kind == SharedLibrary then t.filename else Q(t.filename)
  }

  function ProductRefLine(name: string, id: Uid, t: Target): Line
  {
    Raw(id.Text() + " /* " + name + " */ = { isa = PBXFileReference; explicitFileType = " + Q(ProductFileType(t))
        + "; path = " + ProductPath(t) + "; refType = 0; sourceTree = BUILT_PRODUCTS_DIR; };\n")
  }

  function ProductRefLines(names: seq<string>, m: map<string, Uid>, targets: map<string, Target>): (r: seq<Line>)
    requires Keyed(names, m) && Keyed(names, targets)
    ensures |r| == |names|
    ensures forall i :: 0 <= i < |names| ==> r[i] == ProductRefLine(names[i], m[names[i]], targets[names[i]])
  {
    seq(|names|, i requires 0 <= i < |names| => ProductRefLine(names[i], m[names[i]], targets[names[i]]))
  }

  /** The type of a shared library's product does not depend on its file name. */
  lemma SharedLibraryProductType(t: Target)
    requires t.kind == SharedLibrary
    ensures ProductFileType(t) == "compiled.mach-o.dylib"
  {
    assert Extension("dummy.dylib") == "dylib" by {
      ExtensionDecides("dummy", "dylib");
    }
  }

  // ----- PBXGroup -----

  /** `source_path` after the sources of one target, starting from `last`:
      a source with a path replaces it, any other entry leaves it as it was. */
  function PathAfter(subdir: string, sources: seq<SourceEntry>, last: Option<string>): Option<string>
  {
    if sources == [] then last
    else
      var k := SourceKey(subdir, sources[|sources| - 1]);
      if k.Some? then k else PathAfter(subdir, sources[..|sources| - 1], last)
  }

  /** The path the group lists for each source: its own, or for an entry of
      neither shape whatever `source_path` held before (`None`: never set). */
  function GroupSourcePaths(subdir: string, sources: seq<SourceEntry>, last: Option<string>): (r: seq<Option<string>>)
    ensures |r| == |sources|
    ensures forall i :: 0 <= i < |sources| ==> r[i] == PathAfter(subdir, sources[..i + 1], last)
  {
    seq(|sources|, i requires 0 <= i < |sources| => PathAfter(subdir, sources[..i + 1], last))
  }

  /** `source_path` after the named targets' sources: it is shared by all targets. */
  function GraphLastPath(g: BuildGraph, names: seq<string>): Option<string>
    requires Keyed(names, g.targets.items)
  {
    if names == [] then None
    else
      var t := g.targets.items[names[|names| - 1]];
      PathAfter(t.subdir, t.sources, GraphLastPath(g, names[..|names| - 1]))
  }

  /** Every listed source path is set and has a file reference. */
  predicate PathsKnown(ps: seq<Option<string>>, fm: map<string, Uid>)
  {
    forall i :: 0 <= i < |ps| ==> ps[i].Some? && ps[i].value in fm
  }

  function SourceFileEntries(ps: seq<Option<string>>, fm: map<string, Uid>): (r: seq<Line>)
    requires PathsKnown(ps, fm)
    ensures |r| == |ps|
    ensures forall i :: 0 <= i < |ps| ==> r[i] == At(2, Entry(fm[ps[i].value].Text(), ps[i].value))
  {
    seq(|ps|, i requires 0 <= i < |ps| => At(2, Entry(fm[ps[i].value].Text(), ps[i].value)))
  }

  function MainGroupRecord(maingroup: Uid, sources: Uid, resources: Uid, products: Uid): seq<Line>
  {
    [ At(0, maingroup.Text() + " = {"),
      At(1, "isa = PBXGroup;"),
      At(1, "children = ("),
      At(2, Entry(sources.Text(), "Sources")),
      At(2, Entry(resources.Text(), "Resources")),
      At(2, Entry(products.Text(), "Products")),
      At(1, ");"),
      At(1, "sourceTree = \"<group>\";"),
      At(0, "};") ]
  }

  /** A group record around a list of children. */
  function GroupRecord(opening: string, children: seq<Line>, name: string): seq<Line>
  {
    [At(0, opening), At(1, "isa = PBXGroup;"), At(1, "children = (")]
    + children
    + [At(1, ");"), At(1, "name = " + name + ";"), At(1, "sourceTree = \"<group>\";"), At(0, "};")]
  }

  /** The two groups of one target: the target's group holding its source
      group, and the source group listing the sources and then the objects. */
  function TargetGroups(name: string, basename: string, group: Uid, srcGroup: Uid, files: seq<Line>): seq<Line>
  {
    GroupRecord(Opening(group.Text(), name), [At(2, Entry(srcGroup.Text(), "Source files"))], Q(basename))
    + GroupRecord(Opening(srcGroup.Text(), "Source files"), files, Q("Source files"))
  }

  /** What the group of one target lists: its source paths (as resolved) and its object paths. */
  function TargetGroupFiles(t: Target, last: Option<string>, fm: map<string, Uid>): seq<Line>
    requires TargetFilesKnown(t, last, fm)
  {
    var ops := ObjectPaths(t.subdir, t.objects);
    SourceFileEntries(GroupSourcePaths(t.subdir, t.sources, last), fm) + NamedEntries(2, ops, fm)
  }

  /** The group of one target can list every file, `source_path` starting at
      `last`: every object entry is a path, and every path has a file reference. */
  predicate TargetFilesKnown(t: Target, last: Option<string>, fm: map<string, Uid>)
  {
    && PathsKnown(GroupSourcePaths(t.subdir, t.sources, last), fm)
    && Joinable(t.objects)
    && Keyed(ObjectPaths(t.subdir, t.objects), fm)
  }

  /** The group emitter can list every file of the first `|names|` targets. */
  predicate GroupFilesKnown(g: BuildGraph, names: seq<string>, fm: map<string, Uid>)
    requires Keyed(names, g.targets.items)
  {
    forall i :: 0 <= i < |names| ==> TargetFilesKnown(g.targets.items[names[i]], GraphLastPath(g, names[..i]), fm)
  }

  function TargetGroupRecords(g: BuildGraph, names: seq<string>, groups: map<string, Uid>, srcGroups: map<string, Uid>,
                              fm: map<string, Uid>): seq<Line>
    requires Keyed(names, g.targets.items) && Keyed(names, groups) && Keyed(names, srcGroups)
    requires GroupFilesKnown(g, names, fm)
  {
    if names == [] then []
    else
      var init := names[..|names| - 1];
      var n := names[|names| - 1];
      var t := g.targets.items[n];
      assert GroupFilesKnown(g, init, fm) by {
        forall i | 0 <= i < |init|
          ensures TargetFilesKnown(g.targets.items[init[i]], GraphLastPath(g, init[..i]), fm)
        {
          assert init[..i] == names[..i] && init[i] == names[i];
        }
      }
      assert names[..|names| - 1] == init;
      TargetGroupRecords(g, init, groups, srcGroups, fm)
      + TargetGroups(n, t.basename, groups[n], srcGroups[n], TargetGroupFiles(t, GraphLastPath(g, init), fm))
  }

  /** The whole group section: the main group, the sources group listing every
      target's group, the (empty) resources group, each target's two groups
      and the products group listing every target's product. */
  function GroupSection(g: BuildGraph, names: seq<string>, maingroup: Uid, groups: map<string, Uid>,
                        srcGroups: map<string, Uid>, sources: Uid, resources: Uid, products: Uid,
                        fm: map<string, Uid>, tfm: map<string, Uid>): seq<Line>
    requires Keyed(names, g.targets.items) && Keyed(names, groups) && Keyed(names, srcGroups) && Keyed(names, tfm)
    requires GroupFilesKnown(g, names, fm)
  {
    GroupFrame(names, maingroup, groups, sources, resources, products, tfm,
               TargetGroupRecords(g, names, groups, srcGroups, fm))
  }

  /** The group section around the records of the targets' own groups. */
  function GroupFrame(names: seq<string>, maingroup: Uid, groups: map<string, Uid>, sources: Uid, resources: Uid,
                      products: Uid, tfm: map<string, Uid>, targetGroups: seq<Line>): seq<Line>
    requires Keyed(names, groups) && Keyed(names, tfm)
  {
    [Begin("PBXGroup")]
    + MainGroupRecord(maingroup, sources, resources, products)
    + GroupRecord(Opening(sources.Text(), "Sources"), NamedEntries(2, names, groups), "Sources")
    + GroupRecord(Opening(resources.Text(), "Resources"), [], "Resources")
    + targetGroups
    + GroupRecord(Opening(products.Text(), "Products"), NamedEntries(2, names, tfm), "Products")
    + [End("PBXGroup")]
  }

  /** One more target's group files are known: the section's table of known
      files grows by one target, and `source_path` moves on past its sources. */
  lemma GroupFilesSnoc(g: BuildGraph, names: seq<string>, fm: map<string, Uid>, i: nat)
    requires Keyed(names, g.targets.items) && i < |names|
    requires GroupFilesKnown(g, names[..i], fm)
    requires TargetFilesKnown(g.targets.items[names[i]], GraphLastPath(g, names[..i]), fm)
    ensures GroupFilesKnown(g, names[..i + 1], fm)
    ensures var t := g.targets.items[names[i]];
      GraphLastPath(g, names[..i + 1]) == PathAfter(t.subdir, t.sources, GraphLastPath(g, names[..i]))
  {
    var s := names[..i + 1];
    assert s[..i] == names[..i];
    GroupFilesExtend(g, names, fm, i);
  }

  /** The known-files half of `GroupFilesSnoc`, target by target. */
  lemma GroupFilesExtend(g: BuildGraph, names: seq<string>, fm: map<string, Uid>, i: nat)
    requires Keyed(names, g.targets.items) && i < |names|
    requires GroupFilesKnown(g, names[..i], fm)
    requires TargetFilesKnown(g.targets.items[names[i]], GraphLastPath(g, names[..i]), fm)
    ensures GroupFilesKnown(g, names[..i + 1], fm)
  {
    var s := names[..i + 1];
    forall j | 0 <= j < |s|
      ensures TargetFilesKnown(g.targets.items[s[j]], GraphLastPath(g, s[..j]), fm)
    {
      if j < i {
        assert s[j] == names[..i][j] && s[..j] == names[..i][..j];
      } else {
        assert s[j] == names[i] && s[..j] == names[..i];
      }
    }
  }

  /** The sources group lists every target's group, and the products group
      every target's product, both in target order. */
  lemma GroupSectionListsTargets(names: seq<string>, maingroup: Uid, groups: map<string, Uid>, sources: Uid,
                                 resources: Uid, products: Uid, tfm: map<string, Uid>, targetGroups: seq<Line>, i: nat)
    requires Keyed(names, groups) && Keyed(names, tfm) && i < |names|
    ensures var s := GroupFrame(names, maingroup, groups, sources, resources, products, tfm, targetGroups);
      && |s| == 32 + 2 * |names| + |targetGroups|
      && s[13 + i] == At(2, Entry(groups[names[i]].Text(), names[i]))
      && s[|s| - 5 - |names| + i] == At(2, Entry(tfm[names[i]].Text(), names[i]))
  {
    var head := [Begin("PBXGroup")] + MainGroupRecord(maingroup, sources, resources, products);
    var srcs := GroupRecord(Opening(sources.Text(), "Sources"), NamedEntries(2, names, groups), "Sources");
    var res := GroupRecord(Opening(resources.Text(), "Resources"), [], "Resources");
    var prods := GroupRecord(Opening(products.Text(), "Products"), NamedEntries(2, names, tfm), "Products");
    GroupRecordChild(Opening(sources.Text(), "Sources"), NamedEntries(2, names, groups), "Sources", i);
    GroupRecordChild(Opening(products.Text(), "Products"), NamedEntries(2, names, tfm), "Products", i);
    assert |head| == 10;
    var s := GroupFrame(names, maingroup, groups, sources, resources, products, tfm, targetGroups);
    var pre := head + srcs + res + targetGroups;
    assert s == pre + prods + [End("PBXGroup")];
    assert s[13 + i] == srcs[3 + i];
    assert s[|s| - 5 - |names| + i] == prods[3 + i];
  }

  /** A group record lists its children after its three opening lines. */
  lemma GroupRecordChild(opening: string, children: seq<Line>, name: string, i: nat)
    requires i < |children|
    ensures |GroupRecord(opening, children, name)| == |children| + 7
    ensures GroupRecord(opening, children, name)[3 + i] == children[i]
  {
  }

  // ----- PBXNativeTarget -----

  /** The ids of the targets a target links with, looked up by target id. */
  predicate LinksKnown(links: seq<LinkRef>, deps: map<string, Uid>)
  {
    forall i :: 0 <= i < |links| ==> links[i].id in deps
  }

  function LinkDeps(links: seq<LinkRef>, deps: map<string, Uid>): (r: seq<Uid>)
    requires LinksKnown(links, deps)
    ensures |r| == |links| && forall i :: 0 <= i < |links| ==> r[i] == deps[links[i].id]
  {
    seq(|links|, i requires 0 <= i < |links| => deps[links[i].id])
  }

  /** The record of one native target. The `productType` line is there
      exactly when the target is not a custom target (`productType` is `None`). */
  function NativeRecord(id: Uid, name: string, isa: string, conflist: Uid, phase: Uid, deps: seq<Uid>,
                        basename: string, product: Uid, productType: Option<string>): seq<Line>
  {
    [ At(0, Opening(id.Text(), name)),
      At(1, "isa = " + isa + ";"),
      At(1, "buildConfigurationList = " + conflist.Text() + " /* Build configuration list for PBXNativeTarget "
            + Q(name) + " */;"),
      At(1, "buildPhases = ("),
      At(2, Entry(phase.Text(), "Sources")),
      At(1, ");"),
      At(1, "buildRules = ("),
      At(1, ");"),
      At(1, "dependencies = (") ]
    + TaggedEntries(2, deps, "PBXTargetDependency")
    + [ At(1, ");"),
        At(1, "name = " + Q(basename) + ";"),
        At(1, "productName = " + Q(name) + ";"),
        At(1, "productReference = " + product.Text() + " /* " + name + " */;") ]
    + (if productType.Some? then [At(1, "productType = " + Q(productType.value) + ";")] else [])
    + [At(0, "};")]
  }

  /** Everything the native-target emitter needs to find for one target. */
  predicate NativeKnown(name: string, targets: map<string, Target>, conflists: map<string, Uid>,
                        phases: map<string, Uid>, deps: map<string, Uid>, products: map<string, Uid>)
  {
    && name in targets && name in conflists && name in phases
    && LinksKnown(LinkTargetsOf(targets[name]), deps) && name in products
    && ProductType(targets[name].kind, name).Ok?
  }

  function NativeRecordOf(name: string, id: Uid, targets: map<string, Target>, conflists: map<string, Uid>,
                          phases: map<string, Uid>, deps: map<string, Uid>, products: map<string, Uid>): seq<Line>
    requires NativeKnown(name, targets, conflists, phases, deps, products)
  {
    var t := targets[name];
    NativeRecord(id, name, Isa(t.kind), conflists[name], phases[name], LinkDeps(LinkTargetsOf(t), deps),
                 t.basename, products[name], ProductType(t.kind, name).value)
  }

  predicate NativesKnown(names: seq<string>, targets: map<string, Target>, conflists: map<string, Uid>,
                         phases: map<string, Uid>, deps: map<string, Uid>, products: map<string, Uid>)
  {
    forall i :: 0 <= i < |names| ==> NativeKnown(names[i], targets, conflists, phases, deps, products)
  }

  function NativeRecords(names: seq<string>, ids: map<string, Uid>, targets: map<string, Target>,
                         conflists: map<string, Uid>, phases: map<string, Uid>, deps: map<string, Uid>,
                         products: map<string, Uid>): seq<Line>
    requires Keyed(names, ids) && NativesKnown(names, targets, conflists, phases, deps, products)
  {
    if names == [] then []
    else
      var n := names[|names| - 1];
      NativeRecords(names[..|names| - 1], ids, targets, conflists, phases, deps, products)
      + NativeRecordOf(n, ids[n], targets, conflists, phases, deps, products)
  }

  lemma NativesKnownSnoc(names: seq<string>, targets: map<string, Target>, conflists: map<string, Uid>,
                         phases: map<string, Uid>, deps: map<string, Uid>, products: map<string, Uid>, i: nat)
    requires i < |names| && NativesKnown(names[..i], targets, conflists, phases, deps, products)
    requires NativeKnown(names[i], targets, conflists, phases, deps, products)
    ensures NativesKnown(names[..i + 1], targets, conflists, phases, deps, products)
  {
    var s := names[..i + 1];
    forall j | 0 <= j < |s|
      ensures NativeKnown(s[j], targets, conflists, phases, deps, products)
    {
      if j < i {
        assert s[j] == names[..i][j];
      }
    }
  }

  /** The native-target records of one more target. */
  lemma NativeStep(level: int, names: seq<string>, ids: map<string, Uid>, targets: map<string, Target>,
                   conflists: map<string, Uid>, phases: map<string, Uid>, deps: map<string, Uid>,
                   products: map<string, Uid>, i: nat)
    requires i < |names| && Keyed(names[..i], ids) && NativesKnown(names[..i], targets, conflists, phases, deps, products)
    requires names[i] in ids && NativeKnown(names[i], targets, conflists, phases, deps, products)
    ensures Keyed(names[..i + 1], ids) && NativesKnown(names[..i + 1], targets, conflists, phases, deps, products)
    ensures Render(level, NativeRecords(names[..i + 1], ids, targets, conflists, phases, deps, products))
         == Render(level, NativeRecords(names[..i], ids, targets, conflists, phases, deps, products))
          + Render(level, NativeRecordOf(names[i], ids[names[i]], targets, conflists, phases, deps, products))
  {
    KeyedSnoc(names, ids, i);
    NativesKnownSnoc(names, targets, conflists, phases, deps, products, i);
    assert names[..i + 1][..i] == names[..i];
    RenderAppend(level, NativeRecords(names[..i], ids, targets, conflists, phases, deps, products),
      NativeRecordOf(names[i], ids[names[i]], targets, conflists, phases, deps, products));
  }

  /** A native-target record ends with a `productType` line exactly when the
      target is not a custom target, and then names the kind's product type. */
  lemma NativeRecordProductType(id: Uid, name: string, isa: string, conflist: Uid, phase: Uid, deps: seq<Uid>,
                                basename: string, product: Uid, kind: TargetKind)
    requires ProductType(kind, name).Ok?
    ensures var r := NativeRecord(id, name, isa, conflist, phase, deps, basename, product, ProductType(kind, name).value);
      && |r| == (if kind == CustomTarget then 14 else 15) + |deps|
      && (kind != CustomTarget ==> r[|r| - 2] == At(1, "productType = " + Q(ProductType(kind, name).value.value) + ";"))
      && (kind == CustomTarget ==> r[|r| - 2] == At(1, "productReference = " + product.Text() + " /* " + name + " */;"))
  {
  }

  // ----- PBXProject -----

  function ProjectHead(projectUid: string, conflist: Uid, projectName: string): seq<Line>
  {
    [ At(0, Opening(projectUid, "Project object")),
      At(1, "isa = PBXProject;"),
      At(1, "attributes = {"),
      At(2, "BuildIndependentTargetsInParallel = YES;"),
      At(1, "};"),
      At(1, "buildConfigurationList = " + conflist.Text() + " /* build configuration list for PBXProject "
            + Q(projectName) + "*/;"),
      At(1, "buildSettings = {"),
      At(1, "};"),
      At(1, "buildStyles = (") ]
  }

  function ProjectMiddle(maingroup: Uid, buildToSrc: string, allId: Uid, testId: Uid): seq<Line>
  {
    [ At(1, ");"),
      At(1, "compatibilityVersion = \"Xcode 3.2\";"),
      At(1, "hasScannedForEncodings = 0;"),
      At(1, "mainGroup = " + maingroup.Text() + ";"),
      At(1, "projectDirPath = " + Q(buildToSrc) + ";"),
      At(1, "projectRoot = \"\";"),
      At(1, "targets = ("),
      At(2, Entry(allId.Text(), "ALL_BUILD")),
      At(2, Entry(testId.Text(), "RUN_TESTS")) ]
  }

  /** The project object: its build styles, then `ALL_BUILD`, `RUN_TESTS` and
      every native target among its targets. */
  function ProjectSection(projectUid: string, conflist: Uid, projectName: string, styles: seq<string>,
                          styleIds: map<string, Uid>, maingroup: Uid, buildToSrc: string, allId: Uid, testId: Uid,
                          names: seq<string>, natives: map<string, Uid>): seq<Line>
    requires Keyed(styles, styleIds) && Keyed(names, natives)
  {
    [Begin("PBXProject")] + ProjectHead(projectUid, conflist, projectName) + NamedEntries(2, styles, styleIds)
    + ProjectMiddle(maingroup, buildToSrc, allId, testId) + NamedEntries(2, names, natives)
    + [At(1, ");"), At(0, "};"), End("PBXProject")]
  }

  /** The project lists `ALL_BUILD`, `RUN_TESTS` and then the `i`-th target's
      native target as its `i`-th own target. */
  lemma ProjectListsEveryTarget(projectUid: string, conflist: Uid, projectName: string, styles: seq<string>,
                                styleIds: map<string, Uid>, maingroup: Uid, buildToSrc: string, allId: Uid,
                                testId: Uid, names: seq<string>, natives: map<string, Uid>, i: nat)
    requires Keyed(styles, styleIds) && Keyed(names, natives) && i < |names|
    ensures var s := ProjectSection(projectUid, conflist, projectName, styles, styleIds, maingroup, buildToSrc,
                                    allId, testId, names, natives);
      && |s| == 22 + |styles| + |names|
      && s[17 + |styles|] == At(2, Entry(allId.Text(), "ALL_BUILD"))
      && s[18 + |styles|] == At(2, Entry(testId.Text(), "RUN_TESTS"))
      && s[19 + |styles| + i] == At(2, Entry(natives[names[i]].Text(), names[i]))
  {
    var s := ProjectSection(projectUid, conflist, projectName, styles, styleIds, maingroup, buildToSrc,
                            allId, testId, names, natives);
    var head := [Begin("PBXProject")] + ProjectHead(projectUid, conflist, projectName) + NamedEntries(2, styles, styleIds);
    var pre := head + ProjectMiddle(maingroup, buildToSrc, allId, testId);
    var es := NamedEntries(2, names, natives);
    assert |head| == 10 + |styles|;
    assert s == pre + es + [At(1, ");"), At(0, "};"), End("PBXProject")];
    assert s[19 + |styles| + i] == es[i];
  }

  // ----- PBXShellScriptBuildPhase -----

  function SingleQuoted(s: string): string
  {
    "'" + s + "'"
  }

  /** The test command: the interpreter, the test script, the test data file,
      `--wd` and the build directory, each single-quoted, joined by spaces. */
  function TestCommand(python: string, scriptDir: string, testData: string, buildDir: string): seq<string>
  {
    [ SingleQuoted(python), SingleQuoted(JoinPath(scriptDir, "meson_test.py")), SingleQuoted(testData),
      SingleQuoted("--wd"), SingleQuoted(buildDir) ]
  }

  function ShellSection(testCommand: Uid, cmdstr: string): seq<Line>
  {
    [ Begin("PBXShellScriptBuildPhase"),
      At(0, testCommand.Text() + " = {"),
      At(1, "isa = PBXShellScriptBuildPhase;"),
      At(1, "buildActionMask = 2147483647;"),
      At(1, "files = ("),
      At(1, ");"),
      At(1, "inputPaths = ("),
      At(1, ");"),
      At(1, "outputPaths = ("),
      At(1, ");"),
      At(1, "runOnlyForDeploymentPostprocessing = 0;"),
      At(1, "shellPath = /bin/sh;"),
      At(1, "shellScript = " + Q(cmdstr) + ";"),
      At(1, "showEnvVarsInLog = 0;"),
      At(0, "};"),
      End("PBXShellScriptBuildPhase") ]
  }

  /** Splitting the command string at spaces gives back the five quoted words
      when none of them holds a space. */
  lemma TestCommandWords(python: string, scriptDir: string, testData: string, buildDir: string)
    requires forall i :: 0 <= i < 5 ==> ' ' !in TestCommand(python, scriptDir, testData, buildDir)[i]
    ensures Split(Join(TestCommand(python, scriptDir, testData, buildDir), ' '), ' ') ==
      TestCommand(python, scriptDir, testData, buildDir)
  {
    SplitJoin(TestCommand(python, scriptDir, testData, buildDir), ' ');
  }

  // ----- PBXSourcesBuildPhase -----

  /** The sources a build phase compiles: every source with a path that is not a header. */
  function CompiledSources(subdir: string, sources: seq<SourceEntry>, headers: set<string>): seq<string>
  {
    if sources == [] then []
    else
      var k := SourceKey(subdir, sources[|sources| - 1]);
      CompiledSources(subdir, sources[..|sources| - 1], headers)
      + (if k.Some? && k.value !in headers then [k.value] else [])
  }

  function PhaseRecord(phase: Uid, files: seq<Line>): seq<Line>
  {
    [ At(0, Opening(phase.Text(), "Sources")),
      At(1, "isa = PBXSourcesBuildPhase;"),
      At(1, "buildActionMask = 2147483647;"),
      At(1, "files = (") ]
    + files
    + [At(1, ");"), At(1, "runOnlyForDeploymentPostprocessing = 0;"), At(0, "};")]
  }

  function PhaseEntries(sourceDir: string, paths: seq<string>, bm: map<string, Uid>): (r: seq<Line>)
    requires Keyed(paths, bm)
    ensures |r| == |paths|
    ensures forall i :: 0 <= i < |paths| ==> r[i] == At(2, Entry(bm[paths[i]].Text(), JoinPath(sourceDir, paths[i])))
  {
    seq(|paths|, i requires 0 <= i < |paths| => At(2, Entry(bm[paths[i]].Text(), JoinPath(sourceDir, paths[i]))))
  }

  /** Everything the sources-phase emitter needs to find for one target. */
  predicate PhaseKnown(name: string, phases: map<string, Uid>, targets: map<string, Target>, headers: set<string>,
                       bm: map<string, Uid>)
  {
    && name in phases && name in targets
    && Keyed(CompiledSources(targets[name].subdir, targets[name].sources, headers), bm)
  }

  predicate PhasesKnown(names: seq<string>, phases: map<string, Uid>, targets: map<string, Target>,
                        headers: set<string>, bm: map<string, Uid>)
  {
    forall i :: 0 <= i < |names| ==> PhaseKnown(names[i], phases, targets, headers, bm)
  }

  /** The phase record of one target. */
  function PhaseRecordOf(sourceDir: string, name: string, phases: map<string, Uid>, targets: map<string, Target>,
                         headers: set<string>, bm: map<string, Uid>): seq<Line>
    requires PhaseKnown(name, phases, targets, headers, bm)
  {
    var t := targets[name];
    PhaseRecord(phases[name], PhaseEntries(sourceDir, CompiledSources(t.subdir, t.sources, headers), bm))
  }

  function PhaseRecords(sourceDir: string, names: seq<string>, phases: map<string, Uid>, targets: map<string, Target>,
                        headers: set<string>, bm: map<string, Uid>): seq<Line>
    requires PhasesKnown(names, phases, targets, headers, bm)
  {
    if names == [] then []
    else
      var n := names[|names| - 1];
      assert PhaseKnown(names[|names| - 1], phases, targets, headers, bm);
      PhaseRecords(sourceDir, names[..|names| - 1], phases, targets, headers, bm)
      + PhaseRecordOf(sourceDir, n, phases, targets, headers, bm)
  }

  /** The phase records of one more target. */
  lemma PhaseStep(level: int, sourceDir: string, names: seq<string>, phases: map<string, Uid>,
                  targets: map<string, Target>, headers: set<string>, bm: map<string, Uid>, i: nat)
    requires i < |names| && PhasesKnown(names[..i], phases, targets, headers, bm)
    requires PhaseKnown(names[i], phases, targets, headers, bm)
    ensures PhasesKnown(names[..i + 1], phases, targets, headers, bm)
    ensures Render(level, PhaseRecords(sourceDir, names[..i + 1], phases, targets, headers, bm))
         == Render(level, PhaseRecords(sourceDir, names[..i], phases, targets, headers, bm))
          + Render(level, PhaseRecordOf(sourceDir, names[i], phases, targets, headers, bm))
  {
    var s := names[..i + 1];
    forall j | 0 <= j < |s|
      ensures PhaseKnown(s[j], phases, targets, headers, bm)
    {
      if j < i {
        assert s[j] == names[..i][j];
      }
    }
    assert s[..i] == names[..i];
    RenderAppend(level, PhaseRecords(sourceDir, names[..i], phases, targets, headers, bm),
      PhaseRecordOf(sourceDir, names[i], phases, targets, headers, bm));
  }

  /** A phase compiles exactly the sources with a path that are not headers. */
  lemma CompiledSourcesMembers(subdir: string, sources: seq<SourceEntry>, headers: set<string>, p: string)
    ensures p in CompiledSources(subdir, sources, headers) <==>
      p !in headers && exists j :: 0 <= j < |sources| && SourceKey(subdir, sources[j]) == Some(p)
  {
    if p in CompiledSources(subdir, sources, headers) {
      var j := CompiledSourceFrom(subdir, sources, headers, p);
    }
    if p !in headers && exists j :: 0 <= j < |sources| && SourceKey(subdir, sources[j]) == Some(p) {
      var j :| 0 <= j < |sources| && SourceKey(subdir, sources[j]) == Some(p);
      CompiledSourceAt(subdir, sources, headers, j);
    }
  }

  /** Each compiled path is the key of some source, and not a header. */
  lemma {:induction false} CompiledSourceFrom(subdir: string, sources: seq<SourceEntry>, headers: set<string>, p: string)
    returns (j: nat)
    requires p in CompiledSources(subdir, sources, headers)
    ensures p !in headers && j < |sources| && SourceKey(subdir, sources[j]) == Some(p)
  {
    var init, k := sources[..|sources| - 1], SourceKey(subdir, sources[|sources| - 1]);
    var head := CompiledSources(subdir, init, headers);
    assert CompiledSources(subdir, sources, headers) == head + (if k.Some? && k.value !in headers then [k.value] else []);
    if p in head {
      j := CompiledSourceFrom(subdir, init, headers, p);
      assert sources[j] == init[j];
    } else {
      j := |sources| - 1;
    }
  }

  /** The key of each source with a path that is not a header is compiled. */
  lemma {:induction false} CompiledSourceAt(subdir: string, sources: seq<SourceEntry>, headers: set<string>, j: nat)
    requires j < |sources| && SourceKey(subdir, sources[j]).Some?
    requires SourceKey(subdir, sources[j]).value !in headers
    ensures SourceKey(subdir, sources[j]).value in CompiledSources(subdir, sources, headers)
  {
    var init, k := sources[..|sources| - 1], SourceKey(subdir, sources[|sources| - 1]);
    var head := CompiledSources(subdir, init, headers);
    assert CompiledSources(subdir, sources, headers) == head + (if k.Some? && k.value !in headers then [k.value] else []);
    if j < |init| {
      assert init[j] == sources[j];
      CompiledSourceAt(subdir, init, headers, j);
    }
  }

  // ----- PBXTargetDependency -----

  /** The dependency object of a target points at its native target through its proxy. */
  function DependencyRecord(dep: Uid, native: Uid, proxy: Uid, name: string): seq<Line>
  {
    [ At(0, Opening(dep.Text(), "PBXTargetDependency")),
      At(1, "isa = PBXTargetDependency;"),
      At(1, "target = " + native.Text() + " /* " + name + " */;"),
      At(1, "targetProxy = " + proxy.Text() + " /* PBXContainerItemProxy */;"),
      At(0, "};") ]
  }

  function DependencyRecords(names: seq<string>, deps: map<string, Uid>, natives: map<string, Uid>,
                             proxies: map<string, Uid>): (r: seq<Line>)
    requires Keyed(names, deps) && Keyed(names, natives) && Keyed(names, proxies)
    ensures |r| == 5 * |names|
  {
    if names == [] then []
    else
      var n := names[|names| - 1];
      DependencyRecords(names[..|names| - 1], deps, natives, proxies) + DependencyRecord(deps[n], natives[n], proxies[n], n)
  }

  /** The dependency records of one more target. */
  lemma DependencyStep(level: int, names: seq<string>, deps: map<string, Uid>, natives: map<string, Uid>,
                       proxies: map<string, Uid>, i: nat)
    requires i < |names| && Keyed(names[..i], deps) && Keyed(names[..i], natives) && Keyed(names[..i], proxies)
    requires names[i] in deps && names[i] in natives && names[i] in proxies
    ensures Keyed(names[..i + 1], deps) && Keyed(names[..i + 1], natives) && Keyed(names[..i + 1], proxies)
    ensures Render(level, DependencyRecords(names[..i + 1], deps, natives, proxies))
         == Render(level, DependencyRecords(names[..i], deps, natives, proxies))
          + Render(level, DependencyRecord(deps[names[i]], natives[names[i]], proxies[names[i]], names[i]))
  {
    KeyedSnoc(names, deps, i);
    KeyedSnoc(names, natives, i);
    KeyedSnoc(names, proxies, i);
    var n := names[i];
    assert names[..i + 1][..i] == names[..i] && names[..i + 1][i] == n;
    RenderAppend(level, DependencyRecords(names[..i], deps, natives, proxies),
      DependencyRecord(deps[n], natives[n], proxies[n], n));
  }

  /** The dependency record of the `i`-th target names that target's native
      target and its proxy. */
  lemma {:induction false} DependencyLinksProxy(names: seq<string>, deps: map<string, Uid>, natives: map<string, Uid>,
                                                proxies: map<string, Uid>, i: nat)
    requires Keyed(names, deps) && Keyed(names, natives) && Keyed(names, proxies) && i < |names|
    ensures DependencyRecords(names, deps, natives, proxies)[5 * i + 2] ==
      At(1, "target = " + natives[names[i]].Text() + " /* " + names[i] + " */;")
    ensures DependencyRecords(names, deps, natives, proxies)[5 * i + 3] ==
      At(1, "targetProxy = " + proxies[names[i]].Text() + " /* PBXContainerItemProxy */;")
  {
    var init := names[..|names| - 1];
    var n := names[|names| - 1];
    var r := DependencyRecords(names, deps, natives, proxies);
    assert r == DependencyRecords(init, deps, natives, proxies) + DependencyRecord(deps[n], natives[n], proxies[n], n);
    if i < |names| - 1 {
      DependencyLinksProxy(init, deps, natives, proxies, i);
      assert init[i] == names[i];
    }
  }

  // ----- XCBuildConfiguration -----

  /** A build configuration record: its settings at depth 2, named after the build type. */
  function ConfigRecord(id: Uid, settings: seq<Setting>): seq<Line>
  {
    [At(0, Opening(id.Text(), BuildType)), At(1, "isa = XCBuildConfiguration;"), At(1, "buildSettings = {")]
    + SettingLines(settings)
    + [At(1, "};"), At(1, "name = " + Q(BuildType) + ";"), At(0, "};")]
  }

  function SettingLines(settings: seq<Setting>): (r: seq<Line>)
    ensures |r| == |settings|
    ensures forall i :: 0 <= i < |settings| ==> r[i] == At(2, SettingLine(settings[i]))
  {
    seq(|settings|, i requires 0 <= i < |settings| => At(2, SettingLine(settings[i])))
  }

  /** A configuration record lists its settings in order, each on its own line. */
  lemma ConfigRecordSettings(id: Uid, settings: seq<Setting>, i: nat)
    requires i < |settings|
    ensures |ConfigRecord(id, settings)| == |settings| + 6
    ensures ConfigRecord(id, settings)[3 + i] == At(2, SettingLine(settings[i]))
  {
  }

  /** The configurations of the project, of `ALL_BUILD` and of `RUN_TESTS`. */
  function AggregateConfigs(project: Uid, buildall: Uid, test: Uid, buildDir: string): seq<Line>
  {
    ConfigRecord(project, ProjectSettings(buildDir))
    + ConfigRecord(buildall, AggregateSettings("ALL_BUILD", buildDir))
    + ConfigRecord(test, AggregateSettings("RUN_TESTS", buildDir))
  }

  /** `a` in front of a successful result; a failure stays as it is. */
  function Prepend<T>(a: seq<T>, r: Result<seq<T>>): (p: Result<seq<T>>)
    ensures p.Ok? <==> r.Ok?
    ensures r.Err? ==> p == r
    ensures r.Ok? ==> |p.value| == |a| + |r.value| && p.value[..|a|] == a && p.value[|a|..] == r.value
  {
    if r.Ok? then Ok(a + r.value) else r
  }

  lemma PrependTwice<T>(a: seq<T>, b: seq<T>, r: Result<seq<T>>)
    ensures Prepend(a, Prepend(b, r)) == Prepend(a + b, r)
  {
    if r.Ok? {
      assert a + (b + r.value) == a + b + r.value;
    }
  }

  /** What the section writes for one target: its `'debug'` configuration
      id, the target, and the flags worked out for it. */
  datatype ConfigPlan = ConfigPlan(id: Uid, target: Target, flags: CompileArgs)

  /** The configuration record of one planned target. */
  function PlanRecord(env: Environment, g: BuildGraph, p: ConfigPlan): seq<Line>
  {
    ConfigRecord(p.id, TargetSettings(env, g, p.target, p.flags.fileArgs, p.flags.headerdirs))
  }

  /** The records of the planned targets, in order. */
  function PlanRecords(env: Environment, g: BuildGraph, plans: seq<ConfigPlan>): seq<Line>
  {
    if plans == [] then []
    else PlanRecords(env, g, plans[..|plans| - 1]) + PlanRecord(env, g, plans[|plans| - 1])
  }

  /** The records of one more plan. */
  lemma PlanRecordsStep(level: int, env: Environment, g: BuildGraph, plans: seq<ConfigPlan>, p: ConfigPlan)
    ensures Render(level, PlanRecords(env, g, plans + [p]))
         == Render(level, PlanRecords(env, g, plans)) + Render(level, PlanRecord(env, g, p))
  {
    assert (plans + [p])[..|plans|] == plans;
    RenderAppend(level, PlanRecords(env, g, plans), PlanRecord(env, g, p));
  }

  /** The plans of the targets `names` from the `i`-th on, in order,
      starting with `leaked` as the `file_args` in scope. A target's
      `'debug'` configuration id is looked up first (`KeyError`), then its
      flags are worked out (`NameError` for a custom target with no flags in
      scope, the compiler error for a compiled target without a C or C++
      compiler); the first failure is the result. */
  function TargetPlans(env: Environment, g: BuildGraph, names: seq<string>, confs: map<string, Dict<string, Uid>>,
                       i: nat, leaked: Option<Dict<string, seq<string>>>): Result<seq<ConfigPlan>>
    requires ValidGraph(g) && i <= |names| && forall k :: 0 <= k < |names| ==> names[k] in g.targets.items
    decreases |names| - i
  {
    if i == |names| then Ok([])
    else
      var name := names[i];
      var t := g.targets.items[name];
      if name !in confs then Err(KeyError(name))
      else if Debug !in confs[name].items then Err(KeyError(Debug))
      else
        match FlagsOf(env, g, t, leaked)
        case Err(e) => Err(e)
        case Ok(c) =>
          Prepend([ConfigPlan(confs[name].items[Debug], t, c)],
                  TargetPlans(env, g, names, confs, i + 1, LeakedAfter(t, leaked, c)))
  }

  /** Once every target is planned, the plans so far are all of them. */
  lemma PlansComplete(env: Environment, g: BuildGraph, names: seq<string>, confs: map<string, Dict<string, Uid>>,
                      leaked: Option<Dict<string, seq<string>>>, done: seq<ConfigPlan>)
    requires ValidGraph(g) && forall k :: 0 <= k < |names| ==> names[k] in g.targets.items
    requires Prepend(done, TargetPlans(env, g, names, confs, |names|, leaked)) == TargetPlans(env, g, names, confs, 0, None)
    ensures TargetPlans(env, g, names, confs, 0, None) == Ok(done)
  {
    assert done + [] == done;
  }

  /** Some target from the `i`-th up to, not including, the `j`-th is a compiled one. */
  predicate CompiledBetween(g: BuildGraph, names: seq<string>, i: nat, j: nat)
    requires forall k :: 0 <= k < |names| ==> names[k] in g.targets.items
  {
    exists k :: i <= k < j && k < |names| && g.targets.items[names[k]].kind != CustomTarget
  }

  /** Planning from the `i`-th target on, the `j`-th can be configured: its
      `'debug'` configuration exists, a compiled target has a C or C++
      compiler, and a custom target has flags in scope, from the start or
      left by a compiled target between the two. */
  predicate ConfigurableAt(env: Environment, g: BuildGraph, names: seq<string>, confs: map<string, Dict<string, Uid>>,
                           leaked: bool, i: nat, j: nat)
    requires j < |names| && forall k :: 0 <= k < |names| ==> names[k] in g.targets.items
  {
    var t := g.targets.items[names[j]];
    && names[j] in confs && Debug in confs[names[j]].items
    && (t.kind == CustomTarget ==> leaked || CompiledBetween(g, names, i, j))
    && (t.kind != CustomTarget ==> !ClCompilerMissing(t, env))
  }

  /** Planning from the `i`-th target on, every target can be configured. */
  predicate AllConfigurable(env: Environment, g: BuildGraph, names: seq<string>, confs: map<string, Dict<string, Uid>>,
                            leaked: bool, i: nat)
    requires forall k :: 0 <= k < |names| ==> names[k] in g.targets.items
  {
    forall j :: i <= j < |names| ==> ConfigurableAt(env, g, names, confs, leaked, i, j)
  }

  /** The plans succeed exactly when every target can be configured. */
  lemma {:induction false} TargetPlansSucceed(env: Environment, g: BuildGraph, names: seq<string>,
                                                confs: map<string, Dict<string, Uid>>, i: nat,
                                                leaked: Option<Dict<string, seq<string>>>)
    requires ValidGraph(g) && i <= |names| && forall k :: 0 <= k < |names| ==> names[k] in g.targets.items
    ensures TargetPlans(env, g, names, confs, i, leaked).Ok? <==> AllConfigurable(env, g, names, confs, leaked.Some?, i)
    decreases |names| - i
  {
    if i < |names| {
      var t := g.targets.items[names[i]];
      AllConfigurableStep(env, g, names, confs, leaked.Some?, i);
      if names[i] in confs && Debug in confs[names[i]].items && FlagsOf(env, g, t, leaked).Ok? {
        var c := FlagsOf(env, g, t, leaked).value;
        TargetPlansSucceed(env, g, names, confs, i + 1, LeakedAfter(t, leaked, c));
      }
    }
  }

  /** Every target from the `i`-th on can be configured exactly when the
      `i`-th can and every later one can from the `(i + 1)`-th on, with
      flags in scope once the `i`-th is a compiled target. */
  lemma AllConfigurableStep(env: Environment, g: BuildGraph, names: seq<string>,
                            confs: map<string, Dict<string, Uid>>, leaked: bool, i: nat)
    requires i < |names| && forall k :: 0 <= k < |names| ==> names[k] in g.targets.items
    ensures AllConfigurable(env, g, names, confs, leaked, i) <==>
      && ConfigurableAt(env, g, names, confs, leaked, i, i)
      && AllConfigurable(env, g, names, confs, leaked || g.targets.items[names[i]].kind != CustomTarget, i + 1)
  {
    var now, next := leaked || g.targets.items[names[i]].kind != CustomTarget, i + 1;
    forall j | i < j < |names|
      ensures ConfigurableAt(env, g, names, confs, leaked, i, j) <==> ConfigurableAt(env, g, names, confs, now, next, j)
    {
      ShiftCompiledBetween(g, names, leaked, i, j);
    }
    if AllConfigurable(env, g, names, confs, leaked, i) {
      forall j | next <= j < |names|
        ensures ConfigurableAt(env, g, names, confs, now, next, j)
      {
        assert ConfigurableAt(env, g, names, confs, leaked, i, j);
      }
    } else if ConfigurableAt(env, g, names, confs, leaked, i, i) {
      var j :| i <= j < |names| && !ConfigurableAt(env, g, names, confs, leaked, i, j);
      assert !ConfigurableAt(env, g, names, confs, now, i + 1, j);
    }
  }

  /** Flags are in scope before the `j`-th target, counting from the `i`-th,
      exactly when they are counting from the `(i + 1)`-th with the `i`-th
      taken into account. */
  lemma ShiftCompiledBetween(g: BuildGraph, names: seq<string>, leaked: bool, i: nat, j: nat)
    requires i < j <= |names| && forall k :: 0 <= k < |names| ==> names[k] in g.targets.items
    ensures (leaked || CompiledBetween(g, names, i, j))
        <==> (leaked || g.targets.items[names[i]].kind != CustomTarget || CompiledBetween(g, names, i + 1, j))
  {
    if CompiledBetween(g, names, i, j) && g.targets.items[names[i]].kind == CustomTarget {
      var k :| i <= k < j && k < |names| && g.targets.items[names[k]].kind != CustomTarget;
      assert i + 1 <= k;
    }
    if g.targets.items[names[i]].kind != CustomTarget {
      assert i <= i < j;
    }
  }

  // ----- XCConfigurationList -----

  /** A configuration list holding the one configuration of the build type. */
  function ConfigListRecord(opening: string, config: Uid, defaultName: string): seq<Line>
  {
    [ At(0, opening),
      At(1, "isa = XCConfigurationList;"),
      At(1, "buildConfigurations = ("),
      At(2, Entry(config.Text(), BuildType)),
      At(1, ");"),
      At(1, "defaultConfigurationIsVisible = 0;"),
      At(1, "defaultConfigurationName = " + defaultName + ";"),
      At(0, "};") ]
  }

  function ListOpening(id: Uid, kind: string, name: string): string
  {
    Opening(id.Text(), "Build configuration list for " + kind + " " + Q(name))
  }

  /** The lists of the project, of `ALL_BUILD` and of `RUN_TESTS`, each
      holding its `'debug'` configuration. The `RUN_TESTS` list is labelled
      as the `ALL_BUILD` one. */
  function AggregateLists(projectList: Uid, projectName: string, project: Uid, buildallList: Uid, buildall: Uid,
                          testList: Uid, test: Uid): seq<Line>
  {
    ConfigListRecord(ListOpening(projectList, "PBXProject", projectName), project, BuildType)
    + ConfigListRecord(ListOpening(buildallList, "PBXAggregateTarget", "ALL_BUILD"), buildall, BuildType)
    + ConfigListRecord(ListOpening(testList, "PBXAggregateTarget", "ALL_BUILD"), test, BuildType)
  }

  /** A target's list id and its `'debug'` configuration id exist. */
  predicate ListKnown(name: string, lists: map<string, Uid>, confs: map<string, Dict<string, Uid>>)
  {
    name in lists && name in confs && Debug in confs[name].items
  }

  predicate ListsKnown(names: seq<string>, lists: map<string, Uid>, confs: map<string, Dict<string, Uid>>)
  {
    forall i :: 0 <= i < |names| ==> ListKnown(names[i], lists, confs)
  }

  /** The lookup of a target's list that fails: the list id first, then the
      target's configurations, then its `'debug'` configuration. */
  function ListError(name: string, lists: map<string, Uid>, confs: map<string, Dict<string, Uid>>): (e: Error)
    requires !ListKnown(name, lists, confs)
    ensures e.KeyError? && (e.key == name || e.key == Debug)
  {
    if name !in lists || name !in confs then KeyError(name) else KeyError(Debug)
  }

  /** The list of one target, naming its `'debug'` configuration as the default, quoted. */
  function TargetList(name: string, lists: map<string, Uid>, confs: map<string, Dict<string, Uid>>): seq<Line>
    requires ListKnown(name, lists, confs)
  {
    ConfigListRecord(ListOpening(lists[name], "PBXNativeTarget", name), confs[name].items[Debug], Q(BuildType))
  }

  /** The lists of the targets `names`, in order. */
  function TargetLists(names: seq<string>, lists: map<string, Uid>, confs: map<string, Dict<string, Uid>>)
    : seq<Line>
    requires ListsKnown(names, lists, confs)
  {
    if names == [] then []
    else
      assert ListKnown(names[|names| - 1], lists, confs);
      TargetLists(names[..|names| - 1], lists, confs) + TargetList(names[|names| - 1], lists, confs)
  }

  /** The lists of one more target. */
  lemma ListStep(level: int, names: seq<string>, lists: map<string, Uid>, confs: map<string, Dict<string, Uid>>,
                 i: nat)
    requires i < |names| && ListsKnown(names[..i], lists, confs) && ListKnown(names[i], lists, confs)
    ensures ListsKnown(names[..i + 1], lists, confs)
    ensures Render(level, TargetLists(names[..i + 1], lists, confs))
         == Render(level, TargetLists(names[..i], lists, confs)) + Render(level, TargetList(names[i], lists, confs))
  {
    var s := names[..i + 1];
    forall j | 0 <= j < |s|
      ensures ListKnown(s[j], lists, confs)
    {
      if j < i {
        assert s[j] == names[..i][j];
      }
    }
    assert s[..i] == names[..i];
    RenderAppend(level, TargetLists(names[..i], lists, confs), TargetList(names[i], lists, confs));
  }

  /** Each target gets eight lines. */
  lemma {:induction false} TargetListsLength(names: seq<string>, lists: map<string, Uid>,
                                             confs: map<string, Dict<string, Uid>>)
    requires ListsKnown(names, lists, confs)
    ensures |TargetLists(names, lists, confs)| == 8 * |names|
  {
    if names != [] {
      var init := names[..|names| - 1];
      assert ListsKnown(init, lists, confs) by {
        forall j | 0 <= j < |init|
          ensures ListKnown(init[j], lists, confs)
        {
          assert init[j] == names[j];
        }
      }
      TargetListsLength(init, lists, confs);
    }
  }

  /** The lists come in target order: the eight lines from line `8 * i` on
      are the list of the `i`-th target. */
  lemma {:induction false} TargetListsAt(names: seq<string>, lists: map<string, Uid>,
                                         confs: map<string, Dict<string, Uid>>, i: nat)
    requires ListsKnown(names, lists, confs) && i < |names|
    ensures 8 * i + 8 <= |TargetLists(names, lists, confs)|
    ensures TargetLists(names, lists, confs)[8 * i .. 8 * i + 8] == TargetList(names[i], lists, confs)
    decreases |names|
  {
    var init := names[..|names| - 1];
    var prev, last := TargetListsStep(names, lists, confs);
    SliceOfAppend(prev, last, 8 * i, 8);
    if i < |init| {
      TargetListsAt(init, lists, confs, i);
      assert init[i] == names[i];
    }
  }

  /** The lists of all targets are those of all but the last, eight lines
      per target, then the last one's eight lines. */
  lemma TargetListsStep(names: seq<string>, lists: map<string, Uid>, confs: map<string, Dict<string, Uid>>)
    returns (prev: seq<Line>, last: seq<Line>)
    requires ListsKnown(names, lists, confs) && |names| > 0
    ensures ListsKnown(names[..|names| - 1], lists, confs)
    ensures prev == TargetLists(names[..|names| - 1], lists, confs) && |prev| == 8 * (|names| - 1)
    ensures last == TargetList(names[|names| - 1], lists, confs) && |last| == 8
    ensures TargetLists(names, lists, confs) == prev + last
  {
    var init := names[..|names| - 1];
    assert ListsKnown(init, lists, confs) by {
      forall j | 0 <= j < |init|
        ensures ListKnown(init[j], lists, confs)
      {
        assert init[j] == names[j];
      }
    }
    prev, last := TargetLists(init, lists, confs), TargetList(names[|names| - 1], lists, confs);
    TargetListsLength(init, lists, confs);
  }

  /** A block of a concatenation lies in its first part or is its second part. */
  lemma SliceOfAppend<T>(a: seq<T>, b: seq<T>, k: nat, n: nat)
    requires k + n <= |a| + |b|
    ensures k + n <= |a| ==> (a + b)[k..k + n] == a[k..k + n]
    ensures k == |a| && n == |b| ==> (a + b)[k..k + n] == b
  {
    if k + n <= |a| {
      assert (a + b)[k..k + n] == a[k..k + n];
    }
  }
}
