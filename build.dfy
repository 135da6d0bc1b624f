/** The resolved build graph the backend reads, and the environment values it
    consults. Both are read-only inputs of one generation pass; everything the
    backend learns through calls it cannot see (compiler argument lookups,
    header detection, test serialisation) appears here as a precomputed field. */
module Build {
  import opened Wrappers
  import opened Dicts

  datatype TargetKind = Executable | StaticLibrary | SharedLibrary | CustomTarget | Other

  /** A source entry is a structured file reference, a plain path relative to
      the target's sub-directory, or something of neither shape. */
  datatype SourceEntry =
    | FileSource(subdir: string, fname: string)
    | PathSource(path: string)
    | UnknownSource(repr: string)

  /** An entry of a target's object list: a path relative to the target's
      sub-directory, or something else (a file reference, the objects
      extracted from another target), which cannot be joined onto a path. */
  datatype ObjectEntry = ObjectPath(path: string) | OtherObject(repr: string)

  /** A compiler handle; only its identity matters here. */
  type Compiler = string

  /** What the backend reads of a target that another target links with or depends on. */
  datatype LinkRef = LinkRef(id: string, basename: string, subdir: string, filename: string, kind: TargetKind)

  /** One include-directory specification: its current directory, the include
      directories below it, and extra directories in the build tree. */
  datatype IncludeDirs = IncludeDirs(curdir: string, incdirs: seq<string>, extraBuildDirs: seq<string>)

  datatype Target = Target(
    kind: TargetKind,
    subdir: string,
    subproject: string,
    basename: string,
    filename: string,
    sources: seq<SourceEntry>,
    objects: seq<ObjectEntry>,
    linkTargets: seq<LinkRef>,
    dependencies: seq<LinkRef>,                 // what a custom target depends on
    compilers: Dict<string, Compiler>,          // language -> compiler, in insertion order
    extraArgs: map<string, seq<string>>,        // per-language arguments of the target itself
    includeDirs: seq<IncludeDirs>,
    externalDeps: seq<seq<string>>,             // compile arguments of each external dependency, in native syntax
    soversion: Option<string>,
    prefix: Option<string>,                     // None: the target has no prefix/suffix attributes
    suffix: string,
    isCross: bool,
    linkArgs: seq<string>
  )

  datatype BuildGraph = BuildGraph(
    projectName: string,
    targets: Dict<string, Target>,
    globalArgs: map<string, seq<string>>,
    projectsArgs: map<string, map<string, seq<string>>>
  )

  datatype Environment = Environment(
    sourceDir: string,
    buildDir: string,
    scriptDir: string,
    pythonExecutable: string,
    buildToSrc: string,
    guid: string,
    buildtypeOption: string,
    testDataPath: string,                       // first result of serialising the tests
    compilers: Dict<string, Compiler>,          // every compiler the configuration found
    externalArgs: map<string, seq<string>>,     // per-language arguments from the environment
    baseCompileArgs: map<Compiler, seq<string>>,   // base-option arguments of each compiler
    optionCompileArgs: map<Compiler, seq<string>>, // compiler-option arguments of each compiler
    headers: set<string>                        // the paths `is_header` accepts
  )

  /** `d.get(lang, [])` for a per-language argument table. */
  function ArgsFor(m: map<string, seq<string>>, lang: string): seq<string>
  {
    if lang in m then m[lang] else []
  }

  /** The well-formedness every build graph has: its target table and every
      compiler table are proper dictionaries. */
  ghost predicate ValidGraph(g: BuildGraph)
  {
    && g.targets.Valid()
    && forall name :: name in g.targets.items ==> g.targets.items[name].compilers.Valid()
  }
}
