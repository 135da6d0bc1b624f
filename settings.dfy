/** The `buildSettings` block of a target's build configuration: the
    settings that depend on the target, in the order the backend writes them. */
module Settings {
  import opened Wrappers
  import opened Strings
  import opened Dicts
  import opened Paths
  import opened Build
  import opened Compilers
  import opened Flags

  /** The names a `buildSettings` block uses; `OtherFlags(lang)` is the
      per-language `OTHER_<LANG>FLAGS`. */
  datatype Key =
    | ARCHS | COMBINE_HIDPI_IMAGES | DYLIB_CURRENT_VERSION | EXECUTABLE_PREFIX | EXECUTABLE_SUFFIX
    | GCC_GENERATE_DEBUGGING_SYMBOLS | GCC_INLINES_ARE_PRIVATE_EXTERN | GCC_OPTIMIZATION_LEVEL
    | GCC_PREPROCESSOR_DEFINITIONS | GCC_SYMBOLS_PRIVATE_EXTERN | HEADER_SEARCH_PATHS | INSTALL_PATH
    | LIBRARY_SEARCH_PATHS | LIBRARY_STYLE | ONLY_ACTIVE_ARCH | OTHER_LDFLAGS | OTHER_REZFLAGS | PRODUCT_NAME
    | SDKROOT | SECTORDER_FLAGS | SYMROOT | USE_HEADERMAP | WARNING_CFLAGS
    | OtherFlags(lang: string)

  /** The name written for a key. */
  function KeyName(k: Key): string
  {
    match k
    case ARCHS => "ARCHS"
    case COMBINE_HIDPI_IMAGES => "COMBINE_HIDPI_IMAGES"
    case DYLIB_CURRENT_VERSION => "DYLIB_CURRENT_VERSION"
    case EXECUTABLE_PREFIX => "EXECUTABLE_PREFIX"
    case EXECUTABLE_SUFFIX => "EXECUTABLE_SUFFIX"
    case GCC_GENERATE_DEBUGGING_SYMBOLS => "GCC_GENERATE_DEBUGGING_SYMBOLS"
    case GCC_INLINES_ARE_PRIVATE_EXTERN => "GCC_INLINES_ARE_PRIVATE_EXTERN"
    case GCC_OPTIMIZATION_LEVEL => "GCC_OPTIMIZATION_LEVEL"
    case GCC_PREPROCESSOR_DEFINITIONS => "GCC_PREPROCESSOR_DEFINITIONS"
    case GCC_SYMBOLS_PRIVATE_EXTERN => "GCC_SYMBOLS_PRIVATE_EXTERN"
    case HEADER_SEARCH_PATHS => "HEADER_SEARCH_PATHS"
    case INSTALL_PATH => "INSTALL_PATH"
    case LIBRARY_SEARCH_PATHS => "LIBRARY_SEARCH_PATHS"
    case LIBRARY_STYLE => "LIBRARY_STYLE"
    case ONLY_ACTIVE_ARCH => "ONLY_ACTIVE_ARCH"
    case OTHER_LDFLAGS => "OTHER_LDFLAGS"
    case OTHER_REZFLAGS => "OTHER_REZFLAGS"
    case PRODUCT_NAME => "PRODUCT_NAME"
    case SDKROOT => "SDKROOT"
    case SECTORDER_FLAGS => "SECTORDER_FLAGS"
    case SYMROOT => "SYMROOT"
    case USE_HEADERMAP => "USE_HEADERMAP"
    case WARNING_CFLAGS => "WARNING_CFLAGS"
    case OtherFlags(lang) => "OTHER_" + lang + "FLAGS"
  }

  /** One entry of a `buildSettings` block, by how its value is written. */
  datatype Setting =
    | Quoted(key: Key, value: string)   // KEY = "value";
    | Bare(key: Key, value: string)     // KEY = value;
    | Listed(key: Key, value: string)   // KEY=(value);

  function SettingLine(s: Setting): string
  {
    match s
    case Quoted(k, v) => KeyName(k) + " = \"" + v + "\";"
    case Bare(k, v) => KeyName(k) + " = " + v + ";"
    case Listed(k, v) => KeyName(k) + "=(" + v + ");"
  }

  /** A setting that is written only when `present`. */
  function When(present: bool, s: Setting): (r: seq<Setting>)
    ensures |r| <= 1
  {
    if present then [s] else []
  }

  /** A quoted setting that is written only when there is a value. */
  function IfSome(key: Key, v: Option<string>): (r: seq<Setting>)
    ensures |r| <= 1
  {
    if v.Some? then [Quoted(key, v.value)] else []
  }

  /** One `OTHER_<NAME>FLAGS` setting per entry of `langargs`, in its order. */
  function LangSettings(keys: seq<string>, items: map<string, seq<string>>): (r: seq<Setting>)
    requires forall i :: 0 <= i < |keys| ==> keys[i] in items
    ensures |r| == |keys|
  {
    if keys == [] then []
    else
      var n := keys[|keys| - 1];
      LangSettings(keys[..|keys| - 1], items) + [Quoted(OtherFlags(n), Join(items[n], ' '))]
  }

  const BuildType: string := "debug"

  /** The fixed compiler settings; `debugSymbols` is `YES` for a target and
      `NO` for the two aggregate targets. */
  function GccSettings(debugSymbols: string): seq<Setting>
  {
    [ Bare(GCC_GENERATE_DEBUGGING_SYMBOLS, debugSymbols),
      Bare(GCC_INLINES_ARE_PRIVATE_EXTERN, "NO"),
      Bare(GCC_OPTIMIZATION_LEVEL, "0"),
      Bare(GCC_PREPROCESSOR_DEFINITIONS, "(\"\")"),
      Bare(GCC_SYMBOLS_PRIVATE_EXTERN, "NO") ]
  }

  const WarningFlags: string := "(\"-Wmost\", \"-Wno-four-char-constants\", \"-Wno-unknown-pragmas\", )"

  /** The opening of a target's settings: version, prefix and C flags, each when present. */
  function Leading(dylib: Option<string>, prefix: Option<string>, cflags: Option<string>): seq<Setting>
  {
    [Bare(COMBINE_HIDPI_IMAGES, "YES")]
    + IfSome(DYLIB_CURRENT_VERSION, dylib) + IfSome(EXECUTABLE_PREFIX, prefix) + IfSome(OtherFlags("C"), cflags)
  }

  /** Suffix, the compiler settings, header search paths (when there are
      any), install path and the library style of a shared library. */
  function Middle(suffix: string, headerdirs: seq<string>, installPath: string, shared: bool): seq<Setting>
  {
    [Quoted(EXECUTABLE_SUFFIX, suffix)]
    + GccSettings("YES")
    + When(|headerdirs| > 0, Listed(HEADER_SEARCH_PATHS, HeaderSearchPaths(headerdirs)))
    + [Quoted(INSTALL_PATH, installPath), Quoted(LIBRARY_SEARCH_PATHS, "")]
    + When(shared, Bare(LIBRARY_STYLE, "DYNAMIC"))
  }

  /** Link flags, product name, build root and the closing fixed settings. */
  function Trailing(ldflags: string, productName: string, symroot: string): seq<Setting>
  {
    [ Quoted(OTHER_LDFLAGS, ldflags),
      Quoted(OTHER_REZFLAGS, ""),
      Bare(PRODUCT_NAME, productName),
      Quoted(SECTORDER_FLAGS, ""),
      Quoted(SYMROOT, symroot),
      Bare(USE_HEADERMAP, "NO"),
      Bare(WARNING_CFLAGS, WarningFlags) ]
  }

  /** The settings of the project's own configuration. */
  function ProjectSettings(buildDir: string): seq<Setting>
  {
    [ Quoted(ARCHS, "$(ARCHS_STANDARD_32_64_BIT)"),
      Bare(ONLY_ACTIVE_ARCH, "YES"),
      Quoted(SDKROOT, "macosx"),
      Quoted(SYMROOT, buildDir + "/build") ]
  }

  /** The settings of the `ALL_BUILD` and `RUN_TESTS` configurations, which
      differ only in the product name. */
  function AggregateSettings(productName: string, buildDir: string): seq<Setting>
  {
    [Bare(COMBINE_HIDPI_IMAGES, "YES")]
    + GccSettings("NO")
    + [ Quoted(INSTALL_PATH, ""),
        Quoted(OtherFlags("C"), "  "),
        Quoted(OTHER_LDFLAGS, " "),
        Quoted(OTHER_REZFLAGS, ""),
        Bare(PRODUCT_NAME, productName),
        Quoted(SECTORDER_FLAGS, ""),
        Quoted(SYMROOT, buildDir),
        Bare(USE_HEADERMAP, "NO"),
        Bare(WARNING_CFLAGS, WarningFlags) ]
  }

  /** The settings written for a target, given the per-language flags and the
      header directories the configuration computed for it. */
  function TargetSettings(env: Environment, g: BuildGraph, t: Target, fileArgs: Dict<string, seq<string>>,
                          headerdirs: seq<string>): seq<Setting>
  {
    var la := LangArgs(g, t, env.compilers.keys);
    Leading(DylibVersion(t), t.prefix, CFlagsValue(fileArgs))
    + Middle(ExecutableSuffix(t), headerdirs, InstallPath(env, t, BuildType), t.kind == SharedLibrary)
    + LangSettings(la.keys, la.items)
    + Trailing(Join(LdArgs(env, t, BuildType), ' '), ProductName(t), JoinPath(env.buildDir, t.subdir))
  }

  /** How many settings carry `key`. */
  function CountKey(ss: seq<Setting>, key: Key): nat
  {
    if ss == [] then 0
    else CountKey(ss[..|ss| - 1], key) + if ss[|ss| - 1].key == key then 1 else 0
  }

  lemma {:induction false} CountKeyAppend(a: seq<Setting>, b: seq<Setting>, key: Key)
    ensures CountKey(a + b, key) == CountKey(a, key) + CountKey(b, key)
  {
    if b == [] {
      assert a + b == a;
    } else {
      CountKeyAppend(a, b[..|b| - 1], key);
      assert (a + b)[..|a + b| - 1] == a + b[..|b| - 1];
    }
  }

  /** Only the per-language key of `C` is written `OTHER_CFLAGS`, so counting
      that key counts the lines that carry the name. */
  lemma CFlagsName(k: Key)
    ensures KeyName(k) == "OTHER_CFLAGS" <==> k == OtherFlags("C")
  {
    var c := "OTHER_CFLAGS";
    if k.OtherFlags? && KeyName(k) == c {
      assert |k.lang| == 1;
      assert KeyName(k)[6] == k.lang[0];
    }
  }

  /** Among the language settings, `OTHER_CFLAGS` appears once if `langargs`
      has a `C` entry and not at all otherwise. */
  lemma {:induction false} LangSettingsCFlags(keys: seq<string>, items: map<string, seq<string>>)
    requires forall i :: 0 <= i < |keys| ==> keys[i] in items
    requires forall i, j :: 0 <= i < j < |keys| ==> keys[i] != keys[j]
    ensures CountKey(LangSettings(keys, items), OtherFlags("C")) == if "C" in keys then 1 else 0
  {
    if keys != [] {
      var init := keys[..|keys| - 1];
      var n := keys[|keys| - 1];
      LangSettingsCFlags(init, items);
      var ss := LangSettings(keys, items);
      assert ss[..|ss| - 1] == LangSettings(init, items);
      assert keys == init + [n];
      assert n !in init;
    }
  }

  /** A list none of whose settings carries `key` counts it zero times. */
  lemma {:induction false} CountKeyNone(ss: seq<Setting>, key: Key)
    requires forall i :: 0 <= i < |ss| ==> ss[i].key != key
    ensures CountKey(ss, key) == 0
  {
    if ss != [] {
      CountKeyNone(ss[..|ss| - 1], key);
    }
  }

  /** Counting over four consecutive pieces. */
  lemma CountKeyFour(z: seq<Setting>, a: seq<Setting>, b: seq<Setting>, c: seq<Setting>, k: Key)
    ensures CountKey(z + a + b + c, k) == CountKey(z, k) + CountKey(a, k) + CountKey(b, k) + CountKey(c, k)
  {
    CountKeyAppend(z + a + b, c, k);
    CountKeyAppend(z + a, b, k);
    CountKeyAppend(z, a, k);
  }

  /** An optional setting counts its key once when it is present. */
  lemma CountKeyIfSome(key: Key, v: Option<string>, k: Key)
    ensures CountKey(IfSome(key, v), k) == if v.Some? && key == k then 1 else 0
  {
    if v.Some? {
      assert IfSome(key, v)[..0] == [];
    }
  }

  lemma LeadingCFlags(dylib: Option<string>, prefix: Option<string>, cflags: Option<string>)
    ensures CountKey(Leading(dylib, prefix, cflags), OtherFlags("C")) == if cflags.Some? then 1 else 0
  {
    var k := OtherFlags("C");
    var z, a, b, c := [Bare(COMBINE_HIDPI_IMAGES, "YES")], IfSome(DYLIB_CURRENT_VERSION, dylib),
      IfSome(EXECUTABLE_PREFIX, prefix), IfSome(k, cflags);
    assert Leading(dylib, prefix, cflags) == z + a + b + c;
    CountKeyFour(z, a, b, c, k);
    assert z[..0] == [];
    assert CountKey(z, k) == 0;
    CountKeyIfSome(DYLIB_CURRENT_VERSION, dylib, k);
    CountKeyIfSome(EXECUTABLE_PREFIX, prefix, k);
    CountKeyIfSome(k, cflags, k);
  }

  lemma MiddleCFlags(suffix: string, headerdirs: seq<string>, installPath: string, shared: bool)
    ensures CountKey(Middle(suffix, headerdirs, installPath, shared), OtherFlags("C")) == 0
  {
    var k := OtherFlags("C");
    var ss := Middle(suffix, headerdirs, installPath, shared);
    CountKeyNone(ss, k);
  }

  lemma TrailingCFlags(ldflags: string, productName: string, symroot: string)
    ensures CountKey(Trailing(ldflags, productName, symroot), OtherFlags("C")) == 0
  {
    var k := OtherFlags("C");
    CountKeyNone(Trailing(ldflags, productName, symroot), k);
  }

  /** The `OTHER_CFLAGS` setting can be written twice: once from the C entry
      of `file_args` and once from the `C` entry of `langargs`. */
  lemma CFlagsCount(env: Environment, g: BuildGraph, t: Target, fileArgs: Dict<string, seq<string>>,
                    headerdirs: seq<string>)
    ensures CountKey(TargetSettings(env, g, t, fileArgs, headerdirs), OtherFlags("C")) ==
      (if "c" in fileArgs.items then 1 else 0) + (if "C" in LangArgs(g, t, env.compilers.keys).items then 1 else 0)
  {
    var la := LangArgs(g, t, env.compilers.keys);
    var k := OtherFlags("C");
    var p1 := Leading(DylibVersion(t), t.prefix, CFlagsValue(fileArgs));
    var p2 := Middle(ExecutableSuffix(t), headerdirs, InstallPath(env, t, BuildType), t.kind == SharedLibrary);
    var p3 := LangSettings(la.keys, la.items);
    var p4 := Trailing(Join(LdArgs(env, t, BuildType), ' '), ProductName(t), JoinPath(env.buildDir, t.subdir));
    CountKeyAppend(p1 + p2 + p3, p4, k);
    CountKeyAppend(p1 + p2, p3, k);
    CountKeyAppend(p1, p2, k);
    LeadingCFlags(DylibVersion(t), t.prefix, CFlagsValue(fileArgs));
    MiddleCFlags(ExecutableSuffix(t), headerdirs, InstallPath(env, t, BuildType), t.kind == SharedLibrary);
    TrailingCFlags(Join(LdArgs(env, t, BuildType), ' '), ProductName(t), JoinPath(env.buildDir, t.subdir));
    LangSettingsCFlags(la.keys, la.items);
  }

  /** What the build-configuration emitter works out for one target: the
      per-language flags (`file_args`), the header directories and the settings. */
  datatype TargetConfig = TargetConfig(flags: CompileArgs, settings: seq<Setting>)

  /** What `TargetFlags` computes, as a value: the flags left by an earlier
      target for a custom target, the target's own otherwise. */
  function FlagsOf(env: Environment, g: BuildGraph, t: Target, leaked: Option<Dict<string, seq<string>>>)
    : Result<CompileArgs>
    requires t.compilers.Valid()
  {
    if t.kind == CustomTarget then
      if leaked.None? then Err(NameError("file_args")) else Ok(CompileArgs(leaked.value, InitialHeaderDirs(env, t), []))
    else if ClCompilerMissing(t, env) then Err(NoClCompiler)
    else Ok(CompiledArgs(env, g, t, InitialHeaderDirs(env, t)))
  }

  /** The `file_args` in scope after a target: a compiled target replaces them, a custom target leaves them. */
  function LeakedAfter(t: Target, leaked: Option<Dict<string, seq<string>>>, c: CompileArgs)
    : Option<Dict<string, seq<string>>>
  {
    if t.kind == CustomTarget then leaked else Some(c.fileArgs)
  }

  /** The per-language flags and header directories of one target in
      `generate_xc_build_configuration`. A custom target has no `file_args`
      of its own and reuses those of the compiled target configured before
      it; when no compiled target came first, reading them raises
      `NameError`. A compiled target fails when no C or C++ compiler can be
      found. */
  method TargetFlags(env: Environment, g: BuildGraph, t: Target, leaked: Option<Dict<string, seq<string>>>)
    returns (r: Result<CompileArgs>)
    requires t.compilers.Valid() && env.compilers.Valid()
    ensures r.Err? <==> if t.kind == CustomTarget then leaked.None? else ClCompilerMissing(t, env)
    ensures r.Err? ==> r.error == if t.kind == CustomTarget then NameError("file_args") else NoClCompiler
    ensures r.Ok? && t.kind == CustomTarget ==>
      r.value == CompileArgs(leaked.value, InitialHeaderDirs(env, t), [])
    ensures r.Ok? && t.kind != CustomTarget ==> CompiledAs(r.value, env, g, t, InitialHeaderDirs(env, t))
    ensures r == FlagsOf(env, g, t, leaked)
  {
    var headerdirs := CollectHeaderDirs(env, t);
    if t.kind == CustomTarget {
      if leaked.None? {
        return Err(NameError("file_args"));
      }
      return Ok(CompileArgs(leaked.value, headerdirs, []));
    }
    r := ProjectCompileArgs(env, g, t, headerdirs);
    if r.Ok? {
      CompiledAsUnique(r.value, env, g, t, headerdirs);
    }
  }

  /** The settings of one target, from its flags and header directories;
      the link arguments and `langargs` are built as the source builds them. */
  method SettingsFor(env: Environment, g: BuildGraph, t: Target, flags: CompileArgs) returns (ss: seq<Setting>)
    ensures ss == TargetSettings(env, g, t, flags.fileArgs, flags.headerdirs)
  {
    var ldargs := LinkArguments(env, t, BuildType);
    var la := CollectLangArgs(g, t, env.compilers.keys);
    ss := Leading(DylibVersion(t), t.prefix, CFlagsValue(flags.fileArgs))
      + Middle(ExecutableSuffix(t), flags.headerdirs, InstallPath(env, t, BuildType), t.kind == SharedLibrary)
      + LangSettings(la.keys, la.items)
      + Trailing(Join(ldargs, ' '), ProductName(t), JoinPath(env.buildDir, t.subdir));
  }

  /** The per-target part of `generate_xc_build_configuration` before any
      line is written: the flags of `TargetFlags` and the settings built from them. */
  method ConfigureTarget(env: Environment, g: BuildGraph, t: Target, leaked: Option<Dict<string, seq<string>>>)
    returns (r: Result<TargetConfig>)
    requires t.compilers.Valid() && env.compilers.Valid()
    ensures r.Err? <==> if t.kind == CustomTarget then leaked.None? else ClCompilerMissing(t, env)
    ensures r.Err? ==> r.error == if t.kind == CustomTarget then NameError("file_args") else NoClCompiler
    ensures r.Err? ==> FlagsOf(env, g, t, leaked) == Err(r.error)
    ensures r.Ok? ==> FlagsOf(env, g, t, leaked) == Ok(r.value.flags)
    ensures r.Ok? ==> r.value.settings == TargetSettings(env, g, t, r.value.flags.fileArgs, r.value.flags.headerdirs)
  {
    var c := TargetFlags(env, g, t, leaked);
    if c.Err? {
      return Err(c.error);
    }
    var settings := SettingsFor(env, g, t, c.value);
    r := Ok(TargetConfig(c.value, settings));
  }
}
