/** The flag projector behind a target's build configuration: it layers the
    per-language compile arguments, moves `-I` arguments into the header
    search list, collects the link arguments, and derives the product name,
    install path and executable suffix. The source mutates Python lists in
    place here; each loop becomes a method proved against a specification
    function, and the properties are lemmas about those functions. */
module Flags {
  import opened Wrappers
  import opened Strings
  import opened Dicts
  import opened Paths
  import opened Build
  import opened Compilers

  // ---------------------------------------------------------------------
  // Layering of the per-language argument sources

  /** The arguments a subproject adds, by language (`projects_args.get(subproject, {})`). */
  function SubprojectArgs(g: BuildGraph, t: Target): map<string, seq<string>>
  {
    if t.subproject in g.projectsArgs then g.projectsArgs[t.subproject] else map[]
  }

  /** The merged list of one language the target has a compiler for, lowest
      precedence first: base and option arguments of the compiler, subproject,
      global, environment (only for a native build) and the target's own. */
  function MergedArgs(env: Environment, g: BuildGraph, t: Target, lang: string): seq<string>
    requires lang in t.compilers.items
  {
    var comp := t.compilers.items[lang];
    var low := ArgsFor(env.baseCompileArgs, comp) + ArgsFor(env.optionCompileArgs, comp)
      + ArgsFor(SubprojectArgs(g, t), lang) + ArgsFor(g.globalArgs, lang);
    if t.isCross then low + ArgsFor(t.extraArgs, lang)
    else low + ArgsFor(env.externalArgs, lang) + ArgsFor(t.extraArgs, lang)
  }

  /** `for l, args in layer.items(): if l in file_args: file_args[l] += args`.
      The order in which the layer is visited does not matter: each language
      is met once. */
  method AddLayer(fa: Dict<string, seq<string>>, layer: map<string, seq<string>>)
    returns (r: Dict<string, seq<string>>)
    requires fa.Valid()
    ensures r.Valid() && r.keys == fa.keys && r.items.Keys == fa.items.Keys
    ensures forall l :: l in fa.items ==> r.items[l] == fa.items[l] + ArgsFor(layer, l)
  {
    r := fa;
    var pending := layer.Keys;
    while pending != {}
      invariant pending <= layer.Keys
      invariant r.keys == fa.keys && r.items.Keys == fa.items.Keys
      invariant forall l :: l in fa.items ==>
        r.items[l] == fa.items[l] + (if l in layer && l !in pending then layer[l] else [])
      decreases pending
    {
      var l :| l in pending;
      if l in r.items {
        r := r.Update(l, r.items[l] + layer[l]);
      }
      pending := pending - {l};
    }
    SameKeysValid(fa, r);
  }

  /** What the loop over `target.compilers` appends to a language: the
      compiler's base-option arguments, then its compiler-option arguments. */
  function CompilerArgsFor(env: Environment, comp: Compiler): seq<string>
  {
    ArgsFor(env.baseCompileArgs, comp) + ArgsFor(env.optionCompileArgs, comp)
  }

  /** `file_args` holds the merged list of every language the target has a
      compiler for, and of no other language. */
  ghost predicate MergedAs(fa: Dict<string, seq<string>>, env: Environment, g: BuildGraph, t: Target)
  {
    && fa.Valid() && fa.keys == t.compilers.keys && fa.items.Keys == t.compilers.items.Keys
    && forall l :: l in fa.items ==> fa.items[l] == MergedArgs(env, g, t, l)
  }

  /** One empty list per compiler language. */
  function EmptyArgs(t: Target): (d: Dict<string, seq<string>>)
    requires t.compilers.Valid()
    ensures d.Valid() && d.keys == t.compilers.keys && d.items.Keys == t.compilers.items.Keys
    ensures forall l :: l in d.items ==> d.items[l] == []
  {
    Dict(t.compilers.keys, map l | l in t.compilers.items :: [])
  }

  /** What `for l, comp in target.compilers.items()` appends, language by
      language: each language is met once, so the loop is one more layer. */
  function CompilerLayer(env: Environment, t: Target): (layer: map<string, seq<string>>)
    ensures layer.Keys == t.compilers.items.Keys
  {
    map l | l in t.compilers.items :: CompilerArgsFor(env, t.compilers.items[l])
  }

  /** Builds `file_args`, one empty list per compiler language, then appends
      the sources layer by layer. Languages the target has no compiler for
      are ignored. */
  method MergeCompileArgs(env: Environment, g: BuildGraph, t: Target)
    returns (fa: Dict<string, seq<string>>)
    requires t.compilers.Valid()
    ensures MergedAs(fa, env, g, t)
  {
    var d0 := EmptyArgs(t);
    var d1 := AddLayer(d0, CompilerLayer(env, t));
    var d2 := AddLayer(d1, SubprojectArgs(g, t));
    var d3 := AddLayer(d2, g.globalArgs);
    var d4 := d3;
    if !t.isCross {
      d4 := AddLayer(d3, env.externalArgs);
    }
    fa := AddLayer(d4, t.extraArgs);
    MergeAll(env, g, t, d0, d1, d2, d3, d4, fa);
  }

  /** Each layer appended to every language in turn gives the merged lists. */
  lemma MergeAll(env: Environment, g: BuildGraph, t: Target, d0: Dict<string, seq<string>>, d1: Dict<string, seq<string>>,
                 d2: Dict<string, seq<string>>, d3: Dict<string, seq<string>>, d4: Dict<string, seq<string>>,
                 fa: Dict<string, seq<string>>)
    requires var K := t.compilers.items.Keys;
      d0.items.Keys == K && d1.items.Keys == K && d2.items.Keys == K && d3.items.Keys == K && d4.items.Keys == K && fa.items.Keys == K
    requires forall l :: l in d0.items ==> d0.items[l] == []
    requires forall l :: l in d1.items ==> l in d0.items && d1.items[l] == d0.items[l] + ArgsFor(CompilerLayer(env, t), l)
    requires forall l :: l in d2.items ==> l in d1.items && d2.items[l] == d1.items[l] + ArgsFor(SubprojectArgs(g, t), l)
    requires forall l :: l in d3.items ==> l in d2.items && d3.items[l] == d2.items[l] + ArgsFor(g.globalArgs, l)
    requires t.isCross ==> d4 == d3
    requires !t.isCross ==> forall l :: l in d4.items ==> l in d3.items && d4.items[l] == d3.items[l] + ArgsFor(env.externalArgs, l)
    requires forall l :: l in fa.items ==> l in d4.items && fa.items[l] == d4.items[l] + ArgsFor(t.extraArgs, l)
    ensures forall l :: l in fa.items ==> fa.items[l] == MergedArgs(env, g, t, l)
  {
    forall l | l in fa.items
      ensures fa.items[l] == MergedArgs(env, g, t, l)
    {
      MergeAt(env, g, t, l, d0.items[l], d1.items[l], d2.items[l], d3.items[l], d4.items[l], fa.items[l]);
    }
  }

  /** The per-language values the layers produce, in order, end in the merged list. */
  lemma MergeAt(env: Environment, g: BuildGraph, t: Target, l: string,
                a0: seq<string>, a1: seq<string>, a2: seq<string>, a3: seq<string>, a4: seq<string>, a5: seq<string>)
    requires l in t.compilers.items
    requires a0 == [] && a1 == a0 + ArgsFor(CompilerLayer(env, t), l)
    requires a2 == a1 + ArgsFor(SubprojectArgs(g, t), l) && a3 == a2 + ArgsFor(g.globalArgs, l)
    requires t.isCross ==> a4 == a3
    requires !t.isCross ==> a4 == a3 + ArgsFor(env.externalArgs, l)
    requires a5 == a4 + ArgsFor(t.extraArgs, l)
    ensures a5 == MergedArgs(env, g, t, l)
  {
    var comp := t.compilers.items[l];
    assert a1 == ArgsFor(env.baseCompileArgs, comp) + ArgsFor(env.optionCompileArgs, comp);
    assert a3 == ArgsFor(env.baseCompileArgs, comp) + ArgsFor(env.optionCompileArgs, comp)
      + ArgsFor(SubprojectArgs(g, t), l) + ArgsFor(g.globalArgs, l);
  }

  /** The per-target arguments come last, so they take precedence over every
      other source; a cross build takes nothing from the environment. */
  lemma TargetArgsComeLast(env: Environment, g: BuildGraph, t: Target, lang: string)
    requires lang in t.compilers.items
    ensures var m, e := MergedArgs(env, g, t, lang), ArgsFor(t.extraArgs, lang);
      |e| <= |m| && m[|m| - |e|..] == e
    ensures t.isCross ==> (MergedArgs(env, g, t, lang) ==
      ArgsFor(env.baseCompileArgs, t.compilers.items[lang]) + ArgsFor(env.optionCompileArgs, t.compilers.items[lang])
      + ArgsFor(SubprojectArgs(g, t), lang) + ArgsFor(g.globalArgs, lang) + ArgsFor(t.extraArgs, lang))
  {
    var m := MergedArgs(env, g, t, lang);
    var e := ArgsFor(t.extraArgs, lang);
    assert m[|m| - |e|..] == e;
  }

  // ---------------------------------------------------------------------
  // Extraction of `-I` arguments

  predicate IsIncludeArg(a: string)
  {
    StartsWith(a, "-I")
  }

  /** The arguments that are not `-I` arguments, in their order. */
  function NonIncludes(args: seq<string>): seq<string>
  {
    if args == [] then []
    else
      var a := args[|args| - 1];
      NonIncludes(args[..|args| - 1]) + (if IsIncludeArg(a) then [] else [a])
  }

  /** The directories named by the `-I` arguments, in their order. */
  function IncludePayloads(args: seq<string>): seq<string>
  {
    if args == [] then []
    else
      var a := args[|args| - 1];
      IncludePayloads(args[..|args| - 1]) + (if IsIncludeArg(a) then [a[2..]] else [])
  }

  /** No `-I` argument survives, every other argument does, and every `-I`
      argument's directory is found. */
  lemma {:induction false} IncludesSeparated(args: seq<string>)
    ensures forall i :: 0 <= i < |NonIncludes(args)| ==> !IsIncludeArg(NonIncludes(args)[i])
    ensures forall i :: 0 <= i < |args| && !IsIncludeArg(args[i]) ==> args[i] in NonIncludes(args)
    ensures forall i :: 0 <= i < |args| && IsIncludeArg(args[i]) ==> args[i][2..] in IncludePayloads(args)
  {
    if args != [] {
      var init := args[..|args| - 1];
      IncludesSeparated(init);
      assert forall i :: 0 <= i < |init| ==> args[i] == init[i];
    }
  }

  /** The kept arguments keep their relative order: filtering a concatenation
      filters each part and keeps the parts in order. */
  lemma {:induction false} NonIncludesAppend(a: seq<string>, b: seq<string>)
    ensures NonIncludes(a + b) == NonIncludes(a) + NonIncludes(b)
  {
    if b != [] {
      var init := b[..|b| - 1];
      assert (a + b)[..|a + b| - 1] == a + init;
      NonIncludesAppend(a, init);
    } else {
      assert a + b == a;
    }
  }

  /** The directories of a concatenation are those of each part, in order. */
  lemma {:induction false} IncludePayloadsAppend(a: seq<string>, b: seq<string>)
    ensures IncludePayloads(a + b) == IncludePayloads(a) + IncludePayloads(b)
  {
    if b != [] {
      var init := b[..|b| - 1];
      assert (a + b)[..|a + b| - 1] == a + init;
      IncludePayloadsAppend(a, init);
    } else {
      assert a + b == a;
    }
  }

  /** The directories are collected in the order their arguments occur: the
      directory of the `-I` argument at `i` comes right after those of the
      arguments before it. */
  lemma IncludePayloadAt(args: seq<string>, i: nat)
    requires i < |args| && IsIncludeArg(args[i])
    ensures var k := |IncludePayloads(args[..i])|;
      && k < |IncludePayloads(args)|
      && IncludePayloads(args)[..k] == IncludePayloads(args[..i])
      && IncludePayloads(args)[k] == args[i][2..]
  {
    var upto := args[..i] + [args[i]];
    assert args == upto + args[i + 1..];
    assert upto[..|upto| - 1] == args[..i];
    IncludePayloadsAppend(upto, args[i + 1..]);
  }

  /** A list without `-I` arguments is kept whole. */
  lemma {:induction false} NonIncludesPlain(args: seq<string>)
    requires forall i :: 0 <= i < |args| ==> !IsIncludeArg(args[i])
    ensures NonIncludes(args) == args
  {
    if args != [] {
      var init := args[..|args| - 1];
      assert forall i :: 0 <= i < |init| ==> init[i] == args[i];
      NonIncludesPlain(init);
      assert init + [args[|args| - 1]] == args;
    }
  }

  /** An `-I` argument is never among the kept arguments. */
  lemma {:induction false} IncludeNotKept(args: seq<string>, x: string)
    requires IsIncludeArg(x)
    ensures x !in NonIncludes(args)
  {
    if args != [] {
      IncludeNotKept(args[..|args| - 1], x);
    }
  }

  /** `list.remove(x)`: drops the first occurrence (the source raises when `x` is absent). */
  function RemoveFirst(s: seq<string>, x: string): seq<string>
    requires x in s
  {
    if s[0] == x then s[1..] else [s[0]] + RemoveFirst(s[1..], x)
  }

  lemma {:induction false} RemoveFirstSkips(a: seq<string>, b: seq<string>, x: string)
    requires x !in a && |b| > 0 && b[0] == x
    ensures RemoveFirst(a + b, x) == a + b[1..]
  {
    if a != [] {
      assert (a + b)[1..] == a[1..] + b;
      RemoveFirstSkips(a[1..], b, x);
    }
  }

  /** One language's list: every `-I` argument is removed from it (by
      `remove`, while iterating over a copy) and its directory is appended to
      the header directories unless already there. */
  method StripIncludes(args: seq<string>, headerdirs: seq<string>)
    returns (rest: seq<string>, dirs: seq<string>)
    ensures rest == NonIncludes(args)
    ensures dirs == AppendUnique(headerdirs, IncludePayloads(args))
  {
    rest, dirs := args, headerdirs;
    for i := 0 to |args|
      invariant rest == NonIncludes(args[..i]) + args[i..]
      invariant dirs == AppendUnique(headerdirs, IncludePayloads(args[..i]))
    {
      var arg := args[i];
      StripStep(args, i, headerdirs, rest, dirs);
      if IsIncludeArg(arg) {
        rest := RemoveFirst(rest, arg);
        var incDir := arg[2..];
        if incDir !in dirs {
          dirs := dirs + [incDir];
        }
      }
    }
    assert args[..|args|] == args;
  }

  /** One iteration of the extraction keeps its two loop invariants. */
  lemma StripStep(args: seq<string>, i: nat, headerdirs: seq<string>, rest: seq<string>, dirs: seq<string>)
    requires i < |args|
    requires rest == NonIncludes(args[..i]) + args[i..]
    requires dirs == AppendUnique(headerdirs, IncludePayloads(args[..i]))
    ensures IsIncludeArg(args[i]) ==>
      && args[i] in rest
      && RemoveFirst(rest, args[i]) == NonIncludes(args[..i + 1]) + args[i + 1..]
      && AddUnique(dirs, args[i][2..]) == AppendUnique(headerdirs, IncludePayloads(args[..i + 1]))
    ensures !IsIncludeArg(args[i]) ==>
      && rest == NonIncludes(args[..i + 1]) + args[i + 1..]
      && dirs == AppendUnique(headerdirs, IncludePayloads(args[..i + 1]))
  {
    var arg := args[i];
    var prefix := args[..i + 1];
    assert prefix[..i] == args[..i] && prefix[i] == arg && |prefix| == i + 1;
    assert args[i..] == [arg] + args[i + 1..];
    var kept := NonIncludes(args[..i]);
    var found := IncludePayloads(args[..i]);
    if IsIncludeArg(arg) {
      IncludeNotKept(args[..i], arg);
      RemoveFirstSkips(kept, args[i..], arg);
      assert NonIncludes(prefix) == kept;
      assert IncludePayloads(prefix) == found + [arg[2..]];
      assert (found + [arg[2..]])[..|found|] == found;
      assert AppendUnique(headerdirs, found + [arg[2..]]) == AddUnique(dirs, arg[2..]);
    } else {
      assert NonIncludes(prefix) == kept + [arg];
      assert IncludePayloads(prefix) == found;
    }
  }

  /** The `-I` directories of every language list, languages in dictionary order. */
  function AllIncludePayloads(keys: seq<string>, items: map<string, seq<string>>): seq<string>
    requires forall i :: 0 <= i < |keys| ==> keys[i] in items
  {
    if keys == [] then []
    else AllIncludePayloads(keys[..|keys| - 1], items) + IncludePayloads(items[keys[|keys| - 1]])
  }

  /** `stripped` is `file_args` with every `-I` argument gone. */
  ghost predicate StrippedAs(stripped: Dict<string, seq<string>>, fa: Dict<string, seq<string>>)
  {
    && stripped.Valid() && stripped.keys == fa.keys && stripped.items.Keys == fa.items.Keys
    && forall l :: l in fa.items ==> stripped.items[l] == NonIncludes(fa.items[l])
  }

  /** The first `i` languages are stripped, the others untouched. */
  ghost predicate StrippedUpTo(fa: Dict<string, seq<string>>, i: nat, stripped: Dict<string, seq<string>>)
    requires fa.Valid()
  {
    && i <= |fa.keys|
    && stripped.keys == fa.keys && stripped.items.Keys == fa.items.Keys
    && forall j :: 0 <= j < |fa.keys| ==>
         stripped.items[fa.keys[j]] == (if j < i then NonIncludes(fa.items[fa.keys[j]]) else fa.items[fa.keys[j]])
  }

  /** The extraction over all languages of `file_args`, in dictionary order. */
  method ExtractIncludes(fa: Dict<string, seq<string>>, headerdirs: seq<string>)
    returns (stripped: Dict<string, seq<string>>, dirs: seq<string>)
    requires fa.Valid()
    ensures StrippedAs(stripped, fa)
    ensures dirs == AppendUnique(headerdirs, AllIncludePayloads(fa.keys, fa.items))
  {
    stripped, dirs := fa, headerdirs;
    for i := 0 to |fa.keys|
      invariant StrippedUpTo(fa, i, stripped)
      invariant dirs == AppendUnique(headerdirs, AllIncludePayloads(fa.keys[..i], fa.items))
    {
      var l := fa.keys[i];
      var rest, dirs' := StripIncludes(stripped.items[l], dirs);
      ExtractStep(fa, i, headerdirs, stripped, dirs, rest, dirs');
      stripped := stripped.Update(l, rest);
      dirs := dirs';
    }
    ExtractDone(fa, stripped);
    assert fa.keys[..|fa.keys|] == fa.keys;
  }

  lemma ExtractStep(fa: Dict<string, seq<string>>, i: nat, headerdirs: seq<string>,
                    stripped: Dict<string, seq<string>>, dirs: seq<string>, rest: seq<string>, dirs': seq<string>)
    requires fa.Valid() && i < |fa.keys| && StrippedUpTo(fa, i, stripped)
    requires dirs == AppendUnique(headerdirs, AllIncludePayloads(fa.keys[..i], fa.items))
    requires rest == NonIncludes(stripped.items[fa.keys[i]])
    requires dirs' == AppendUnique(dirs, IncludePayloads(stripped.items[fa.keys[i]]))
    ensures StrippedUpTo(fa, i + 1, stripped.Update(fa.keys[i], rest))
    ensures dirs' == AppendUnique(headerdirs, AllIncludePayloads(fa.keys[..i + 1], fa.items))
  {
    var l := fa.keys[i];
    assert fa.keys[..i + 1][..i] == fa.keys[..i];
    AppendUniqueConcat(headerdirs, AllIncludePayloads(fa.keys[..i], fa.items), IncludePayloads(fa.items[l]));
    StrippedNext(fa, i, stripped, rest);
  }

  lemma StrippedNext(fa: Dict<string, seq<string>>, i: nat, stripped: Dict<string, seq<string>>, rest: seq<string>)
    requires fa.Valid() && i < |fa.keys| && StrippedUpTo(fa, i, stripped)
    requires rest == NonIncludes(stripped.items[fa.keys[i]])
    ensures StrippedUpTo(fa, i + 1, stripped.Update(fa.keys[i], rest))
  {
    var l := fa.keys[i];
    var next := stripped.Update(l, rest);
    forall j | 0 <= j < |fa.keys|
      ensures next.items[fa.keys[j]] == (if j < i + 1 then NonIncludes(fa.items[fa.keys[j]]) else fa.items[fa.keys[j]])
    {
      if j < i {
        assert fa.keys[j] != l;
      } else if j > i {
        assert fa.keys[j] != l;
      }
    }
  }

  lemma ExtractDone(fa: Dict<string, seq<string>>, stripped: Dict<string, seq<string>>)
    requires fa.Valid() && StrippedUpTo(fa, |fa.keys|, stripped)
    ensures StrippedAs(stripped, fa)
  {
    forall l | l in fa.items
      ensures stripped.items[l] == NonIncludes(fa.items[l])
    {
      var j :| 0 <= j < |fa.keys| && fa.keys[j] == l;
    }
    SameKeysValid(fa, stripped);
  }

  // ---------------------------------------------------------------------
  // External dependencies

  /** The dependencies' argument lists concatenated in reverse declaration order. */
  function VisitOrder(deps: seq<seq<string>>): seq<string>
  {
    if deps == [] then [] else VisitOrder(deps[1..]) + deps[0]
  }

  /** The non-include arguments of the dependencies that pass the membership
      test against `file_args`, which looks at its language keys. */
  function DepFlagArgs(args: seq<string>, langs: set<string>): seq<string>
  {
    if args == [] then []
    else
      var a := args[|args| - 1];
      DepFlagArgs(args[..|args| - 1], langs) + (if IsIncludeArg(a) || a in langs then [] else [a])
  }

  /** No argument collected for the target is an `-I` argument or a language name. */
  lemma {:induction false} DepFlagArgsFiltered(args: seq<string>, langs: set<string>)
    ensures forall i :: 0 <= i < |DepFlagArgs(args, langs)| ==>
      !IsIncludeArg(DepFlagArgs(args, langs)[i]) && DepFlagArgs(args, langs)[i] !in langs
  {
    if args != [] {
      DepFlagArgsFiltered(args[..|args| - 1], langs);
    }
  }

  /** What one more dependency argument does to the header list and to `target_args`. */
  lemma PushDepArg(seen: seq<string>, arg: string, langs: set<string>, headerdirs: seq<string>)
    ensures (seen + [arg])[..|seen|] == seen
    ensures AppendUnique(headerdirs, IncludePayloads(seen + [arg])) ==
      if IsIncludeArg(arg) then AddUnique(AppendUnique(headerdirs, IncludePayloads(seen)), arg[2..])
      else AppendUnique(headerdirs, IncludePayloads(seen))
    ensures DepFlagArgs(seen + [arg], langs) ==
      DepFlagArgs(seen, langs) + (if IsIncludeArg(arg) || arg in langs then [] else [arg])
  {
    var found := IncludePayloads(seen);
    var longer := seen + [arg];
    assert longer[..|longer| - 1] == seen && longer[|longer| - 1] == arg;
    if IsIncludeArg(arg) {
      assert IncludePayloads(longer) == found + [arg[2..]];
      assert (found + [arg[2..]])[..|found|] == found;
    } else {
      assert IncludePayloads(longer) == found;
    }
  }

  lemma DepArgStep(done: seq<string>, d: seq<string>, i: nat, langs: set<string>, headerdirs: seq<string>)
    requires i < |d|
    ensures AppendUnique(headerdirs, IncludePayloads(done + d[..i + 1])) ==
      if IsIncludeArg(d[i]) then AddUnique(AppendUnique(headerdirs, IncludePayloads(done + d[..i])), d[i][2..])
      else AppendUnique(headerdirs, IncludePayloads(done + d[..i]))
    ensures DepFlagArgs(done + d[..i + 1], langs) ==
      DepFlagArgs(done + d[..i], langs) + (if IsIncludeArg(d[i]) || d[i] in langs then [] else [d[i]])
  {
    assert done + d[..i + 1] == (done + d[..i]) + [d[i]];
    PushDepArg(done + d[..i], d[i], langs, headerdirs);
  }

  /** Visits the external dependencies in reverse order: `-I` directories go to
      the header list unless present, other arguments to `target_args`
      (a list nothing reads afterwards). */
  method AddExternalDepArgs(deps: seq<seq<string>>, langs: set<string>, headerdirs: seq<string>)
    returns (dirs: seq<string>, targetArgs: seq<string>)
    ensures dirs == AppendUnique(headerdirs, IncludePayloads(VisitOrder(deps)))
    ensures targetArgs == DepFlagArgs(VisitOrder(deps), langs)
  {
    dirs, targetArgs := headerdirs, [];
    var k := |deps|;
    while k > 0
      invariant 0 <= k <= |deps|
      invariant dirs == AppendUnique(headerdirs, IncludePayloads(VisitOrder(deps[k..])))
      invariant targetArgs == DepFlagArgs(VisitOrder(deps[k..]), langs)
    {
      k := k - 1;
      assert deps[k..][1..] == deps[k + 1..];
      dirs, targetArgs := AddDepArgs(VisitOrder(deps[k + 1..]), deps[k], langs, headerdirs, dirs, targetArgs);
    }
    assert deps[0..] == deps;
  }

  /** The loop over the arguments of one dependency, `done` being the
      arguments of the dependencies visited before. */
  method AddDepArgs(ghost done: seq<string>, d: seq<string>, langs: set<string>, ghost headerdirs: seq<string>,
                    dirs0: seq<string>, targetArgs0: seq<string>)
    returns (dirs: seq<string>, targetArgs: seq<string>)
    requires dirs0 == AppendUnique(headerdirs, IncludePayloads(done))
    requires targetArgs0 == DepFlagArgs(done, langs)
    ensures dirs == AppendUnique(headerdirs, IncludePayloads(done + d))
    ensures targetArgs == DepFlagArgs(done + d, langs)
  {
    dirs, targetArgs := dirs0, targetArgs0;
    assert done + d[..0] == done;
    for i := 0 to |d|
      invariant dirs == AppendUnique(headerdirs, IncludePayloads(done + d[..i]))
      invariant targetArgs == DepFlagArgs(done + d[..i], langs)
    {
      var arg := d[i];
      DepArgStep(done, d, i, langs, headerdirs);
      if IsIncludeArg(arg) {
        var incDir := arg[2..];
        if incDir !in dirs {
          dirs := dirs + [incDir];
        }
      } else if arg !in langs {
        targetArgs := targetArgs + [arg];
      }
    }
    assert d[..|d|] == d;
  }

  // ---------------------------------------------------------------------
  // Header directories

  /** The directories of one include specification: its include directories
      in the source tree, then its extra directories in the build tree. */
  function SpecDirs(sourceDir: string, buildDir: string, spec: IncludeDirs): seq<string>
  {
    RootedDirs(sourceDir, spec.curdir, spec.incdirs) + RootedDirs(buildDir, spec.curdir, spec.extraBuildDirs)
  }

  /** Each directory joined below `curdir` and then below `root`. */
  function RootedDirs(root: string, curdir: string, hs: seq<string>): (r: seq<string>)
    ensures |r| == |hs|
  {
    if hs == [] then []
    else RootedDirs(root, curdir, hs[..|hs| - 1]) + [JoinPath(root, JoinPath(curdir, hs[|hs| - 1]))]
  }

  /** Directory `i` of the list is the `i`-th directory joined below `curdir` and `root`. */
  lemma {:induction false} RootedDirsAt(root: string, curdir: string, hs: seq<string>, i: nat)
    requires i < |hs|
    ensures RootedDirs(root, curdir, hs)[i] == JoinPath(root, JoinPath(curdir, hs[i]))
  {
    var prev := hs[..|hs| - 1];
    var r := RootedDirs(root, curdir, hs);
    assert r == RootedDirs(root, curdir, prev) + [JoinPath(root, JoinPath(curdir, hs[|hs| - 1]))];
    if i < |prev| {
      RootedDirsAt(root, curdir, prev, i);
      assert r[i] == RootedDirs(root, curdir, prev)[i];
      assert hs[i] == prev[i];
    } else {
      assert i == |prev| && r[i] == JoinPath(root, JoinPath(curdir, hs[|hs| - 1]));
    }
  }

  /** `for i in hs: headerdirs.append(os.path.join(root, curdir, i))` */
  method AppendRooted(dirs: seq<string>, root: string, curdir: string, hs: seq<string>) returns (r: seq<string>)
    ensures r == dirs + RootedDirs(root, curdir, hs)
  {
    r := dirs;
    for i := 0 to |hs|
      invariant r == dirs + RootedDirs(root, curdir, hs[..i])
    {
      assert hs[..i + 1][..i] == hs[..i];
      r := r + [JoinPath(root, JoinPath(curdir, hs[i]))];
    }
    assert hs[..|hs|] == hs;
  }

  /** The include specifications visited in reverse order. */
  function ReversedSpecDirs(sourceDir: string, buildDir: string, specs: seq<IncludeDirs>): seq<string>
  {
    if specs == [] then [] else ReversedSpecDirs(sourceDir, buildDir, specs[1..]) + SpecDirs(sourceDir, buildDir, specs[0])
  }

  /** `get_target_dir`: the target's sub-directory joined with the configured build type. */
  function TargetDir(env: Environment, t: Target): string
  {
    JoinPath(t.subdir, env.buildtypeOption)
  }

  /** The header directories before any `-I` argument is looked at: the build
      directory, then the custom target's directory or the include directories. */
  function InitialHeaderDirs(env: Environment, t: Target): (r: seq<string>)
    ensures |r| >= 1 && r[0] == env.buildDir
  {
    [env.buildDir] +
      if t.kind == CustomTarget then [JoinPath(env.sourceDir, TargetDir(env, t))]
      else ReversedSpecDirs(env.sourceDir, env.buildDir, t.includeDirs)
  }

  /** The header-directory appends of the source, loop by loop. */
  method CollectHeaderDirs(env: Environment, t: Target) returns (headerdirs: seq<string>)
    ensures headerdirs == InitialHeaderDirs(env, t)
  {
    headerdirs := [env.buildDir];
    if t.kind == CustomTarget {
      headerdirs := headerdirs + [JoinPath(env.sourceDir, TargetDir(env, t))];
      return;
    }
    headerdirs := AppendReversedSpecs(headerdirs, env.sourceDir, env.buildDir, t.includeDirs);
  }

  /** `for i in reversed(target.get_include_dirs()): ...` */
  method AppendReversedSpecs(dirs: seq<string>, sourceDir: string, buildDir: string, specs: seq<IncludeDirs>)
    returns (r: seq<string>)
    ensures r == dirs + ReversedSpecDirs(sourceDir, buildDir, specs)
  {
    r := dirs;
    var k := |specs|;
    while k > 0
      invariant 0 <= k <= |specs|
      invariant r == dirs + ReversedSpecDirs(sourceDir, buildDir, specs[k..])
    {
      k := k - 1;
      r := AppendSpec(r, sourceDir, buildDir, specs[k]);
      ReversedSpecStep(dirs, sourceDir, buildDir, specs, k);
    }
    assert specs[0..] == specs;
  }

  /** The body of the loop over one include specification. */
  method AppendSpec(dirs: seq<string>, sourceDir: string, buildDir: string, spec: IncludeDirs)
    returns (r: seq<string>)
    ensures r == dirs + SpecDirs(sourceDir, buildDir, spec)
  {
    r := AppendRooted(dirs, sourceDir, spec.curdir, spec.incdirs);
    r := AppendRooted(r, buildDir, spec.curdir, spec.extraBuildDirs);
  }

  lemma ReversedSpecStep(dirs: seq<string>, sourceDir: string, buildDir: string, specs: seq<IncludeDirs>, k: nat)
    requires k < |specs|
    ensures dirs + ReversedSpecDirs(sourceDir, buildDir, specs[k + 1..]) + SpecDirs(sourceDir, buildDir, specs[k])
         == dirs + ReversedSpecDirs(sourceDir, buildDir, specs[k..])
  {
    assert specs[k..][1..] == specs[k + 1..];
  }

  // ---------------------------------------------------------------------
  // Compile settings of a compiled target

  datatype CompileArgs = CompileArgs(
    fileArgs: Dict<string, seq<string>>,  // per-language flags without `-I` arguments
    headerdirs: seq<string>,
    targetArgs: seq<string>               // collected and never read
  )

  predicate ClCompilerMissing(t: Target, env: Environment)
  {
    !HasCl(t.compilers) && (|t.objects| == 0 || !HasCl(env.compilers))
  }

  /** The `-I` directories of the merged lists, languages in compiler order. */
  function MergedPayloads(env: Environment, g: BuildGraph, t: Target, keys: seq<string>): seq<string>
    requires forall i :: 0 <= i < |keys| ==> keys[i] in t.compilers.items
  {
    if keys == [] then []
    else MergedPayloads(env, g, t, keys[..|keys| - 1]) + IncludePayloads(MergedArgs(env, g, t, keys[|keys| - 1]))
  }

  lemma {:induction false} PayloadsOfMerged(fa: Dict<string, seq<string>>, env: Environment, g: BuildGraph, t: Target, keys: seq<string>)
    requires MergedAs(fa, env, g, t)
    requires forall i :: 0 <= i < |keys| ==> keys[i] in t.compilers.items
    ensures AllIncludePayloads(keys, fa.items) == MergedPayloads(env, g, t, keys)
  {
    if keys != [] {
      PayloadsOfMerged(fa, env, g, t, keys[..|keys| - 1]);
    }
  }

  /** What the compiled-target branch computes: the stripped per-language
      flags, the header directories after the target's own and its
      dependencies' `-I` arguments, and the arguments kept for the target. */
  ghost predicate CompiledAs(c: CompileArgs, env: Environment, g: BuildGraph, t: Target, headerdirs: seq<string>)
  {
    && t.compilers.Valid()
    && c.fileArgs.Valid() && c.fileArgs.keys == t.compilers.keys && c.fileArgs.items.Keys == t.compilers.items.Keys
    && (forall l :: l in c.fileArgs.items ==> c.fileArgs.items[l] == NonIncludes(MergedArgs(env, g, t, l)))
    && c.headerdirs == AppendUnique(AppendUnique(headerdirs, MergedPayloads(env, g, t, t.compilers.keys)),
                                    IncludePayloads(VisitOrder(t.externalDeps)))
    && c.targetArgs == DepFlagArgs(VisitOrder(t.externalDeps), t.compilers.items.Keys)
  }

  /** The one value `CompiledAs` allows for a target and its starting header directories. */
  function CompiledArgs(env: Environment, g: BuildGraph, t: Target, headerdirs: seq<string>): CompileArgs
    requires t.compilers.Valid()
  {
    CompileArgs(
      Dict(t.compilers.keys, map l | l in t.compilers.items :: NonIncludes(MergedArgs(env, g, t, l))),
      AppendUnique(AppendUnique(headerdirs, MergedPayloads(env, g, t, t.compilers.keys)),
                   IncludePayloads(VisitOrder(t.externalDeps))),
      DepFlagArgs(VisitOrder(t.externalDeps), t.compilers.items.Keys))
  }

  /** The compiled-target branch is deterministic: whatever satisfies
      `CompiledAs` is `CompiledArgs`. */
  lemma CompiledAsUnique(c: CompileArgs, env: Environment, g: BuildGraph, t: Target, headerdirs: seq<string>)
    requires CompiledAs(c, env, g, t, headerdirs)
    ensures c == CompiledArgs(env, g, t, headerdirs)
  {
    assert c.fileArgs.items == CompiledArgs(env, g, t, headerdirs).fileArgs.items;
  }

  /** The compiled-target branch of the build-configuration emitter: it fails
      exactly when no C or C++ compiler can be found. */
  method ProjectCompileArgs(env: Environment, g: BuildGraph, t: Target, headerdirs: seq<string>)
    returns (r: Result<CompileArgs>)
    requires t.compilers.Valid() && env.compilers.Valid()
    ensures r.Err? <==> ClCompilerMissing(t, env)
    ensures r.Err? ==> r.error == NoClCompiler
    ensures r.Ok? ==> CompiledAs(r.value, env, g, t, headerdirs)
  {
    var fa := MergeCompileArgs(env, g, t);
    var stripped, dirs := ExtractIncludes(fa, headerdirs);
    var compiler := GetClCompiler(t, env);
    if compiler.Err? {
      return Err(compiler.error);
    }
    var dirs', targetArgs := AddExternalDepArgs(t.externalDeps, fa.items.Keys, dirs);
    r := Ok(CompileArgs(stripped, dirs', targetArgs));
    CompiledFromParts(fa, r.value, env, g, t, headerdirs, dirs);
  }

  /** The pieces the compiled-target branch computes make up `CompiledAs`. */
  lemma CompiledFromParts(fa: Dict<string, seq<string>>, c: CompileArgs, env: Environment, g: BuildGraph, t: Target,
                          headerdirs: seq<string>, dirs: seq<string>)
    requires t.compilers.Valid() && MergedAs(fa, env, g, t) && StrippedAs(c.fileArgs, fa)
    requires dirs == AppendUnique(headerdirs, AllIncludePayloads(fa.keys, fa.items))
    requires c.headerdirs == AppendUnique(dirs, IncludePayloads(VisitOrder(t.externalDeps)))
    requires c.targetArgs == DepFlagArgs(VisitOrder(t.externalDeps), fa.items.Keys)
    ensures CompiledAs(c, env, g, t, headerdirs)
  {
    PayloadsOfMerged(fa, env, g, t, fa.keys);
  }

  /** After the projection no language list holds an `-I` argument. */
  lemma ProjectionDropsIncludes(c: CompileArgs, env: Environment, g: BuildGraph, t: Target, headerdirs: seq<string>)
    requires CompiledAs(c, env, g, t, headerdirs)
    ensures forall l, i :: l in c.fileArgs.items && 0 <= i < |c.fileArgs.items[l]| ==> !IsIncludeArg(c.fileArgs.items[l][i])
  {
    forall l | l in c.fileArgs.items
      ensures forall i :: 0 <= i < |c.fileArgs.items[l]| ==> !IsIncludeArg(c.fileArgs.items[l][i])
    {
      IncludesSeparated(MergedArgs(env, g, t, l));
    }
  }

  /** The header list starts with what was there before, and it gains no duplicate. */
  lemma ProjectionKeepsHeaderDirs(c: CompileArgs, env: Environment, g: BuildGraph, t: Target, headerdirs: seq<string>)
    requires CompiledAs(c, env, g, t, headerdirs)
    ensures |headerdirs| <= |c.headerdirs| && c.headerdirs[..|headerdirs|] == headerdirs
    ensures Distinct(headerdirs) ==> Distinct(c.headerdirs)
  {
    AppendUniqueTwice(headerdirs, MergedPayloads(env, g, t, t.compilers.keys), IncludePayloads(VisitOrder(t.externalDeps)));
  }

  /** Two rounds of unique appends keep the original list in front. */
  lemma AppendUniqueTwice(dirs: seq<string>, xs: seq<string>, ys: seq<string>)
    ensures var r := AppendUnique(AppendUnique(dirs, xs), ys);
      && |dirs| <= |r| && r[..|dirs|] == dirs
      && (Distinct(dirs) ==> Distinct(r))
  {
    var mid := AppendUnique(dirs, xs);
    var r := AppendUnique(mid, ys);
    AppendUniqueShape(dirs, xs);
    AppendUniqueShape(mid, ys);
    assert r[..|dirs|] == r[..|mid|][..|dirs|];
  }

  // ---------------------------------------------------------------------
  // Link arguments, install path, product name

  const SearchPathFlags: seq<string> := ["-Wl,-search_paths_first", "-Wl,-headerpad_max_install_names"]
  const DylibFlags: seq<string> := ["-dynamiclib", "-Wl,-headerpad_max_install_names"]

  /** The built artifact of a link target: `<build>/<subdir>/<buildtype>/<filename>`. */
  function LinkPath(buildDir: string, l: LinkRef, buildtype: string): string
  {
    JoinPath(JoinPath(JoinPath(buildDir, l.subdir), buildtype), l.filename)
  }

  function Quoted(s: string): string
  {
    "'" + s + "'"
  }

  /** One single-quoted artifact path per link target, in order. */
  function DepLibs(buildDir: string, links: seq<LinkRef>, buildtype: string): (r: seq<string>)
    ensures |r| == |links|
  {
    if links == [] then []
    else DepLibs(buildDir, links[..|links| - 1], buildtype) + [Quoted(LinkPath(buildDir, links[|links| - 1], buildtype))]
  }

  /** Entry `i` is the quoted artifact path of link target `i`. */
  lemma {:induction false} DepLibsAt(buildDir: string, links: seq<LinkRef>, buildtype: string, i: nat)
    requires i < |links|
    ensures DepLibs(buildDir, links, buildtype)[i] == Quoted(LinkPath(buildDir, links[i], buildtype))
  {
    var prev := links[..|links| - 1];
    var r := DepLibs(buildDir, links, buildtype);
    assert r == DepLibs(buildDir, prev, buildtype) + [Quoted(LinkPath(buildDir, links[|links| - 1], buildtype))];
    if i < |prev| {
      DepLibsAt(buildDir, prev, buildtype, i);
      assert r[i] == DepLibs(buildDir, prev, buildtype)[i];
      assert links[i] == prev[i];
    } else {
      assert i == |prev| && r[i] == Quoted(LinkPath(buildDir, links[|links| - 1], buildtype));
    }
  }

  /** `links_dylib` after the loop: decided one link target at a time, true
      once a shared library has been seen. */
  predicate LinksDylib(links: seq<LinkRef>)
  {
    links != [] && (LinksDylib(links[..|links| - 1]) || links[|links| - 1].kind == SharedLibrary)
  }

  /** The flag is set exactly when some link target is a shared library. */
  lemma {:induction false} LinksDylibSome(links: seq<LinkRef>)
    ensures LinksDylib(links) <==> exists i :: 0 <= i < |links| && links[i].kind == SharedLibrary
  {
    if links != [] {
      var prev := links[..|links| - 1];
      LinksDylibSome(prev);
      if LinksDylib(prev) {
        var i :| 0 <= i < |prev| && prev[i].kind == SharedLibrary;
        assert links[i] == prev[i];
      }
      if exists i :: 0 <= i < |links| && links[i].kind == SharedLibrary {
        var i :| 0 <= i < |links| && links[i].kind == SharedLibrary;
        if i < |prev| {
          assert prev[i] == links[i];
        }
      }
    }
  }

  /** The link targets the emitter walks: none for a custom target. */
  function LinkTargetsOf(t: Target): seq<LinkRef>
  {
    if t.kind == CustomTarget then [] else t.linkTargets
  }

  /** The `dep_libs.append` loop and the `links_dylib` flag. */
  method CollectLinkInputs(buildDir: string, links: seq<LinkRef>, buildtype: string)
    returns (depLibs: seq<string>, linksDylib: bool)
    ensures depLibs == DepLibs(buildDir, links, buildtype)
    ensures linksDylib == LinksDylib(links)
  {
    depLibs, linksDylib := [], false;
    for i := 0 to |links|
      invariant depLibs == DepLibs(buildDir, links[..i], buildtype)
      invariant linksDylib == LinksDylib(links[..i])
    {
      LinkInputStep(buildDir, links, buildtype, i);
      depLibs := depLibs + [Quoted(LinkPath(buildDir, links[i], buildtype))];
      if links[i].kind == SharedLibrary {
        linksDylib := true;
      }
    }
    assert links[..|links|] == links;
  }

  lemma LinkInputStep(buildDir: string, links: seq<LinkRef>, buildtype: string, i: nat)
    requires i < |links|
    ensures DepLibs(buildDir, links[..i + 1], buildtype) == DepLibs(buildDir, links[..i], buildtype) + [Quoted(LinkPath(buildDir, links[i], buildtype))]
    ensures LinksDylib(links[..i + 1]) == (LinksDylib(links[..i]) || links[i].kind == SharedLibrary)
  {
    assert links[..i + 1][..i] == links[..i];
  }

  /** `OTHER_LDFLAGS` as a list: the dynamic-library flags of a shared
      library, the search-path flags when a shared library is linked, the
      link targets' artifacts, and the target's own link arguments last. */
  function LdArgs(env: Environment, t: Target, buildtype: string): seq<string>
  {
    LinkHead(t.kind == SharedLibrary, LinksDylib(LinkTargetsOf(t)))
      + DepLibs(env.buildDir, LinkTargetsOf(t), buildtype)
      + (if t.kind == CustomTarget then [] else t.linkArgs)
  }

  /** The flags in front of the artifacts: the dynamic-library flags of a
      shared library, then the search-path flags when a shared library is linked. */
  function LinkHead(isShared: bool, linksDylib: bool): seq<string>
  {
    if isShared && linksDylib then DylibFlags + SearchPathFlags
    else if isShared then DylibFlags
    else if linksDylib then SearchPathFlags
    else []
  }

  lemma Assoc(a: seq<string>, b: seq<string>, c: seq<string>)
    ensures a + (b + c) == a + b + c
  {
  }

  lemma EmptyLeft(a: seq<string>)
    ensures [] + a == a
  {
  }

  lemma EmptyRight(a: seq<string>)
    ensures a + [] == a
  {
  }

  /** The three parts of a concatenation, read back by slicing. */
  lemma SliceParts(a: seq<string>, b: seq<string>, c: seq<string>)
    ensures var s := a + b + c;
      && |s| == |a| + |b| + |c|
      && s[..|a|] == a && s[|a|..|a| + |b|] == b && s[|a| + |b|..] == c
  {
    var s := a + b + c;
    assert s[..|a|] == a;
    assert s[|a|..|a| + |b|] == b;
    assert s[|a| + |b|..] == c;
  }
  /** The head flags: their number and where each group sits. */
  lemma HeadOf(isShared: bool, linksDylib: bool)
    ensures var head, pre := LinkHead(isShared, linksDylib), (if isShared then 2 else 0) + (if linksDylib then 2 else 0);
      && |head| == pre
      && (isShared ==> head[..2] == DylibFlags)
      && (linksDylib ==> head[pre - 2..] == SearchPathFlags)
  {
    if isShared && linksDylib {
      var head := DylibFlags + SearchPathFlags;
      assert head[..2] == DylibFlags;
      assert head[2..] == SearchPathFlags;
    }
  }
  /** Where the parts of a head-artifacts-own list sit. */
  lemma HeadLayout(isShared: bool, linksDylib: bool, mid: seq<string>, own: seq<string>)
    ensures var r, pre := LinkHead(isShared, linksDylib) + mid + own, (if isShared then 2 else 0) + (if linksDylib then 2 else 0);
      && |r| == pre + |mid| + |own|
      && (isShared ==> r[..2] == DylibFlags)
      && (linksDylib ==> r[pre - 2..pre] == SearchPathFlags)
      && r[pre..pre + |mid|] == mid
      && r[|r| - |own|..] == own
  {
    var head := LinkHead(isShared, linksDylib);
    var r := head + mid + own;
    SliceParts(head, mid, own);
    HeadOf(isShared, linksDylib);
    var pre := |head|;
    assert r[..pre] == head;
    if isShared {
      assert r[..2] == r[..pre][..2];
    }
    if linksDylib {
      assert r[pre - 2..pre] == r[..pre][pre - 2..];
    }
  }

  /** Where each part of the link-argument list sits. */
  lemma LdArgsLayout(env: Environment, t: Target, buildtype: string)
    ensures var pre := (if t.kind == SharedLibrary then 2 else 0) + (if LinksDylib(LinkTargetsOf(t)) then 2 else 0);
      var r, links := LdArgs(env, t, buildtype), LinkTargetsOf(t);
      var own := if t.kind == CustomTarget then [] else t.linkArgs;
      |r| == pre + |links| + |own|
    ensures t.kind == SharedLibrary ==> LdArgs(env, t, buildtype)[..2] == DylibFlags
    ensures var pre := (if t.kind == SharedLibrary then 2 else 0) + 2;
      LinksDylib(LinkTargetsOf(t)) ==> LdArgs(env, t, buildtype)[pre - 2..pre] == SearchPathFlags
    ensures var pre := (if t.kind == SharedLibrary then 2 else 0) + (if LinksDylib(LinkTargetsOf(t)) then 2 else 0);
      var r, links := LdArgs(env, t, buildtype), LinkTargetsOf(t);
      pre + |links| <= |r| && r[pre..pre + |links|] == DepLibs(env.buildDir, links, buildtype)
    ensures var r, own := LdArgs(env, t, buildtype), if t.kind == CustomTarget then [] else t.linkArgs;
      r[|r| - |own|..] == own
  {
    var links := LinkTargetsOf(t);
    var depLibs := DepLibs(env.buildDir, links, buildtype);
    var own := if t.kind == CustomTarget then [] else t.linkArgs;
    HeadLayout(t.kind == SharedLibrary, LinksDylib(links), depLibs, own);
  }

  /** The link-argument list, built as the source builds it. */
  method LinkArguments(env: Environment, t: Target, buildtype: string) returns (ldargs: seq<string>)
    ensures ldargs == LdArgs(env, t, buildtype)
  {
    var depLibs, linksDylib := CollectLinkInputs(env.buildDir, LinkTargetsOf(t), buildtype);
    ghost var quoted := depLibs;
    if linksDylib {
      depLibs := SearchPathFlags + depLibs;
    }
    if t.kind == SharedLibrary {
      ldargs := DylibFlags + depLibs;
      if linksDylib {
        Assoc(DylibFlags, SearchPathFlags, quoted);
      }
    } else {
      ldargs := depLibs;
      if !linksDylib {
        EmptyLeft(quoted);
      }
    }
    assert ldargs == LinkHead(t.kind == SharedLibrary, linksDylib) + quoted;
    if t.kind != CustomTarget {
      ldargs := ldargs + t.linkArgs;
    } else {
      EmptyRight(ldargs);
    }
  }

  /** The search-path flags appear at their place exactly when some link target
      is a shared library (quoted paths start with a quote, so they cannot be
      mistaken for the flag). */
  lemma SearchFlagsIffDylib(env: Environment, t: Target, buildtype: string)
    requires |LinkTargetsOf(t)| > 0
    ensures var p := if t.kind == SharedLibrary then 2 else 0;
      LdArgs(env, t, buildtype)[p] == SearchPathFlags[0] <==> LinksDylib(LinkTargetsOf(t))
  {
    var p := if t.kind == SharedLibrary then 2 else 0;
    LdArgsLayout(env, t, buildtype);
    var r := LdArgs(env, t, buildtype);
    if !LinksDylib(LinkTargetsOf(t)) {
      var links := LinkTargetsOf(t);
      DepLibsAt(env.buildDir, links, buildtype, 0);
      var q := Quoted(LinkPath(env.buildDir, links[0], buildtype));
      assert r[p] == r[p..p + |links|][0] == q;
      assert q[0] == '\'' && SearchPathFlags[0][0] == '-';
    }
  }

  /** `INSTALL_PATH`: the shared library's own build directory, empty otherwise. */
  function InstallPath(env: Environment, t: Target, buildtype: string): (r: string)
    ensures t.kind != SharedLibrary ==> r == ""
    ensures t.kind == SharedLibrary ==> EndsWith(r, buildtype)
    ensures t.kind == SharedLibrary && buildtype != "" ==> r != ""
  {
    if t.kind == SharedLibrary then
      var dir := JoinPath(env.buildDir, t.subdir);
      JoinPathShape(dir, buildtype);
      JoinPath(dir, buildtype)
    else ""
  }

  /** The version written as `DYLIB_CURRENT_VERSION`: a shared library's soversion. */
  function DylibVersion(t: Target): (v: Option<string>)
    ensures v.Some? <==> t.kind == SharedLibrary && t.soversion.Some?
  {
    if t.kind == SharedLibrary then t.soversion else None
  }

  /** `PRODUCT_NAME`: the basename, with `.<soversion>` for a versioned shared library. */
  function ProductName(t: Target): (name: string)
    ensures StartsWith(name, t.basename)
    ensures name != t.basename <==> t.kind == SharedLibrary && t.soversion.Some?
    ensures name != t.basename ==> name == t.basename + "." + t.soversion.value
  {
    match DylibVersion(t)
    case Some(v) => t.basename + "." + v
    case None => t.basename
  }

  /** `EXECUTABLE_SUFFIX`: `.<suffix>` for a target that has a non-empty suffix attribute. */
  function ExecutableSuffix(t: Target): (s: string)
    ensures s == "" <==> t.prefix.None? || t.suffix == ""
    ensures s != "" ==> s == "." + t.suffix
  {
    if t.prefix.Some? then (if t.suffix == "" then "" else "." + t.suffix) else ""
  }

  // ---------------------------------------------------------------------
  // Flag strings

  /** What each double quote of the C flag string becomes: `\\\"`. */
  const EscapedQuote: string := ['\\', '\\', '\\', '"']

  /** `.replace('"', '\\\\\\"')` */
  function EscapeQuotes(s: string): (r: string)
    ensures forall i :: 0 <= i < |r| && r[i] == '"' ==> i >= 3 && r[i - 3..i] == EscapedQuote[..3]
  {
    if s == [] then []
    else (if s[0] == '"' then EscapedQuote else [s[0]]) + EscapeQuotes(s[1..])
  }

  /** Reads an escaped string back: each `\\\"` group is one double quote. */
  function UnescapeQuotes(r: string): string
  {
    if |r| >= 4 && r[..4] == EscapedQuote then "\"" + UnescapeQuotes(r[4..])
    else if r == [] then []
    else [r[0]] + UnescapeQuotes(r[1..])
  }

  /** The escaped string has no double quote among its first three characters. */
  lemma {:induction false} EscapedStart(s: string, i: nat)
    requires i < 3 && i < |EscapeQuotes(s)|
    ensures EscapeQuotes(s)[i] != '"'
  {
  }

  /** Escaping loses nothing: unescaping gives the flag string back. */
  lemma {:induction false} UnescapeEscape(s: string)
    ensures UnescapeQuotes(EscapeQuotes(s)) == s
  {
    if s != [] {
      var tail := EscapeQuotes(s[1..]);
      UnescapeEscape(s[1..]);
      if s[0] == '"' {
        assert EscapeQuotes(s) == EscapedQuote + tail;
        assert (EscapedQuote + tail)[4..] == tail;
      } else {
        var r := [s[0]] + tail;
        assert EscapeQuotes(s) == r;
        if |r| >= 4 {
          EscapedStart(s[1..], 2);
          assert r[..4][3] == tail[2] != EscapedQuote[3];
        }
        assert r[1..] == tail;
        assert [s[0]] + s[1..] == s;
      }
    }
  }

  /** `OTHER_CFLAGS`, when the target has a C entry in `file_args`. */
  function CFlagsValue(fileArgs: Dict<string, seq<string>>): Option<string>
  {
    if "c" in fileArgs.items then Some(EscapeQuotes(Join(fileArgs.items["c"], ' '))) else None
  }

  /** One header directory inside the quoted list: `"\"dir\""`. */
  function QuoteHeaderDir(d: string): (q: string)
    ensures |q| == |d| + 6 && q[3..|q| - 3] == d
  {
    "\"\\\"" + d + "\\\"\""
  }

  function QuoteAll(dirs: seq<string>): (r: seq<string>)
    ensures |r| == |dirs|
  {
    if dirs == [] then [] else [QuoteHeaderDir(dirs[0])] + QuoteAll(dirs[1..])
  }

  /** The `i`-th quoted entry is the `i`-th directory, quoted. */
  lemma {:induction false} QuoteAllAt(dirs: seq<string>, i: nat)
    requires i < |dirs|
    ensures QuoteAll(dirs)[i] == QuoteHeaderDir(dirs[i])
  {
    if i > 0 {
      QuoteAllAt(dirs[1..], i - 1);
    }
  }

  /** The value of `HEADER_SEARCH_PATHS`: the quoted directories joined by commas. */
  function HeaderSearchPaths(dirs: seq<string>): string
  {
    Join(QuoteAll(dirs), ',')
  }

  /** The list can be read back: splitting on commas and unquoting gives the
      directories, as long as none contains a comma. */
  lemma HeaderSearchPathsReadBack(dirs: seq<string>)
    requires |dirs| >= 1
    requires forall i :: 0 <= i < |dirs| ==> ',' !in dirs[i]
    ensures Split(HeaderSearchPaths(dirs), ',') == QuoteAll(dirs)
  {
    var q := QuoteAll(dirs);
    forall i | 0 <= i < |q|
      ensures ',' !in q[i]
    {
      QuoteAllAt(dirs, i);
      QuoteNoComma(dirs[i]);
    }
    SplitJoin(q, ',');
  }

  /** Quoting adds no comma. */
  lemma QuoteNoComma(d: string)
    requires ',' !in d
    ensures ',' !in QuoteHeaderDir(d)
  {
    var open, close := "\"\\\"", "\\\"\"";
    assert QuoteHeaderDir(d) == open + d + close;
    assert ',' !in open && ',' !in close;
  }

  // ---------------------------------------------------------------------
  // OTHER_<LANG>FLAGS

  const LangNameMap: map<string, string> :=
    map["c" := "C", "cpp" := "CPLUSPLUS", "objc" := "OBJC", "objcpp" := "OBJCPLUSPLUS"]

  /** Global arguments of a language followed by the target's own (none for a custom target). */
  function LangArgsOf(g: BuildGraph, t: Target, lang: string): seq<string>
  {
    ArgsFor(g.globalArgs, lang) + (if t.kind == CustomTarget then [] else ArgsFor(t.extraArgs, lang))
  }

  /** `langargs`, built over the configuration's languages in order. */
  function LangArgs(g: BuildGraph, t: Target, langs: seq<string>): (d: Dict<string, seq<string>>)
    ensures d.Valid()
  {
    if langs == [] then EmptyDict()
    else
      var d := LangArgs(g, t, langs[..|langs| - 1]);
      var l := langs[|langs| - 1];
      if l !in LangNameMap || |LangArgsOf(g, t, l)| == 0 then d
      else d.Put(LangNameMap[l], LangArgsOf(g, t, l))
  }

  /** The `langargs` loop. */
  method CollectLangArgs(g: BuildGraph, t: Target, langs: seq<string>) returns (la: Dict<string, seq<string>>)
    ensures la == LangArgs(g, t, langs)
  {
    la := EmptyDict();
    for i := 0 to |langs|
      invariant la == LangArgs(g, t, langs[..i])
    {
      assert langs[..i + 1][..i] == langs[..i];
      var lang := langs[i];
      if lang in LangNameMap {
        var args := LangArgsOf(g, t, lang);
        if |args| > 0 {
          la := la.Put(LangNameMap[lang], args);
        }
      }
    }
    assert langs[..|langs|] == langs;
  }

  /** A language contributes an `OTHER_<NAME>FLAGS` entry exactly when it is one
      of the four known languages, the configuration has it, and its arguments
      are not empty; the entry holds those arguments. */
  lemma {:induction false} LangArgsEntries(g: BuildGraph, t: Target, langs: seq<string>, lang: string)
    requires lang in LangNameMap
    ensures LangNameMap[lang] in LangArgs(g, t, langs).items <==> lang in langs && |LangArgsOf(g, t, lang)| > 0
    ensures LangNameMap[lang] in LangArgs(g, t, langs).items ==>
      LangArgs(g, t, langs).items[LangNameMap[lang]] == LangArgsOf(g, t, lang)
  {
    if langs != [] {
      var init := langs[..|langs| - 1];
      var l := langs[|langs| - 1];
      LangArgsEntries(g, t, init, lang);
      assert langs == init + [l];
      assert lang in langs <==> lang in init || lang == l;
      if l != lang && l in LangNameMap {
        LangNamesDistinct(l, lang);
      }
    }
  }

  /** The four languages have four different setting names. */
  lemma LangNamesDistinct(a: string, b: string)
    requires a in LangNameMap && b in LangNameMap && a != b
    ensures LangNameMap[a] != LangNameMap[b]
  {
    assert |LangNameMap["c"]| == 1 && |LangNameMap["cpp"]| == 9 && |LangNameMap["objc"]| == 4 && |LangNameMap["objcpp"]| == 12;
  }
}
