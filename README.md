# A verified model of meson's Xcode backend

This project models the core of meson's Xcode project generator
(`mesonbuild/backend/xcodebackend.py`) in Dafny and proves properties of it.
The generator turns a resolved build graph into one `project.pbxproj` file.
The model covers the same steps.

- **Identifier registry** (`Ids`, `Registry`). `gen_id` becomes a counter that
  is rendered as 24 upper-case hex digits.
  - Ids are proved well formed and to read back as their serial.
  - Distinct serials give distinct ids.
  - Each map builder draws its ids from its own window of consecutive
    serials, and the windows follow one another in the order `generate`
    runs the builders. So two tables built in one pass share no id, and
    within the 16^24 ids no two of their ids are written alike
    (`TablesApart`); none of them is one of the seven ids the constructor
    draws (`FixedIdsApart`, concluded for a constructed and run backend by
    `ConstructAndGenerate`).
- **Reference maps** (`FileMaps`, `Registry`, the `Generate…Map` methods of
  `Backend.XcodeBackend`).
  - The maps are modelled as insertion-ordered dictionaries (`Dicts`): a key
    sequence plus a map.
  - `GenerateMaps` states, table by table, the window each table drew
    from and how its ids sit in it (consecutive per target, one
    `{'debug': id}`, or fresh per path).
  - It also proves the key set of each table: one entry per target,
    `'debug'` alone, one per source or object path, and one per
    (target, dependency) pair.
  - `filemap` lists its paths in the order the build graph first names them
    (`AppendUnique` of the graph's paths), which is the order of the
    `PBXFileReference` records.
- **Indentation-scoped writer** (`Writer`, `Sections`, the emitter methods).
  - `write_line` is a method on the `OutputWriter` class. That class holds
    the `ofile` list, one element per `write` or `write_line` call, and the
    `indent_level` field.
  - Every section emitter is proved to:
    - write exactly the rendered lines of the records it promises;
    - leave `indent_level` as it found it;
    - fail only with the `KeyError`, `NameError`, `TypeError` or
      `MesonException` that the source raises at the lookup or join that
      fails.
  - `generate_prefix` raises `indent_level` by two and `generate_suffix`
    lowers it by two.
- **Flag and link-argument projector** (`Flags`, `Settings`, `Compilers`).
  This is the per-target part of `generate_xc_build_configuration`. It covers:
  - the five argument layers per compiler language;
  - `-I` extraction into an order-preserving, duplicate-free header list,
    both from `file_args` and from the external dependencies;
  - the link arguments with the dylib flags;
  - install path, product name and executable suffix;
  - the escaping of double quotes in `OTHER_CFLAGS`;
  - the quoting of `HEADER_SEARCH_PATHS`;
  - the `langargs` table;
  - the `_get_cl_compiler` search.
- **Small mappings**:
  - `get_type_for_filename` (`FileTypes`);
  - `target_to_build_root` (`Paths`);
  - the target kind to `isa` and product type choice (`NativeTargets`).

Some behaviour of the code is reproduced as it is, not corrected:

- `generate_filemap` stores a target's product id inside the per-source loop.
  So a target without sources gets no product id, and its objects are only
  filed when it has a source.
- `generate_pbx_build_file` looks a file reference up under the target's
  sub-directory, while the maps file it under its own.
- Non-include arguments of external dependencies go to `target_args`. That
  list is never read. The membership test is against the language keys of
  `file_args`.
- An object entry that is not a path string is skipped by
  `generate_filemap` (line 136), but `generate_buildmap` joins it onto the
  directory before testing its type and so raises `TypeError` (lines
  155-157), as does `generate_pbx_build_file` (line 272).
- `OTHER_CFLAGS` can be written twice (`Settings.CFlagsCount`).
- A custom target before any compiled target raises `NameError` on
  `file_args`. A later custom target reuses the `file_args` of the last
  compiled target before it.
- The group section reuses `source_path` from an earlier source when a source
  entry has neither shape, and raises `NameError` when there is none.

A few orderings of the code are worth stating, since the model keeps them:

- `_get_cl_compiler` (lines 924-934) fails when the target has no C or C++
  compiler and either has no objects or the configuration has no C or C++
  compiler either.
- The layers are merged as base and option arguments, then subproject,
  global, environment (not for cross builds) and per-target arguments
  (lines 761-783).
- `-I` payloads from `file_args` are added to the header list before those
  of the external dependencies (lines 787-802).
## Model

| member | source | states |
|---|---|---|
| Strings.Split | mesonbuild/backend/xcodebackend.py:99 | a split always has at least one part |
| Strings.SplitShape | mesonbuild/backend/xcodebackend.py:99 | a split has one part more than there are separators, and no part holds the separator |
| Strings.SplitPlain | mesonbuild/backend/xcodebackend.py:99 | a string without the separator splits into itself alone |
| Strings.SplitAfterPart | mesonbuild/backend/xcodebackend.py:99 | a separator-free part followed by the separator splits off as the first part |
| Strings.SplitJoin | mesonbuild/backend/xcodebackend.py:820 | joining, then splitting on the same character, gives the parts back when no part holds it |
| Strings.JoinSplit | mesonbuild/backend/xcodebackend.py:99 | splitting, then joining on the same character, gives the string back |
| Strings.Repeat | mesonbuild/backend/xcodebackend.py:596 | `[x] * n` has length `n` and every element is `x` |
| Ids.ToHex | mesonbuild/backend/xcodebackend.py:108 | the rendering has exactly `width` characters, all upper-case hex digits |
| Ids.IdOf | mesonbuild/backend/xcodebackend.py:107-108 | every issued id is 24 upper-case hex characters |
| Ids.DigitValue | mesonbuild/backend/xcodebackend.py:108 | a hex digit's value is below 16 and names that digit |
| Ids.DigitOfHex | mesonbuild/backend/xcodebackend.py:108 | each digit character reads back as its own value |
| Ids.FromToHex | mesonbuild/backend/xcodebackend.py:108 | decoding the rendered digits gives the number modulo 16^width |
| Ids.SerialOfId | mesonbuild/backend/xcodebackend.py:107-108 | an id issued for a serial below 16^24 reads back as that serial |
| Ids.IdOfInjective | mesonbuild/backend/xcodebackend.py:107-108 | distinct serials below 16^24 give distinct ids |
| Registry.Text | mesonbuild/backend/xcodebackend.py:108 | an id is written as a well-formed 24-digit object id |
| Registry.TextInjective | mesonbuild/backend/xcodebackend.py:107-108 | two different ids drawn within the id space are written differently |
| Registry.IdRegistry.constructor | mesonbuild/backend/xcodebackend.py:107-108 | a new registry starts at serial 0 |
| Registry.IdRegistry.GenId | mesonbuild/backend/xcodebackend.py:107-108 | `gen_id` returns the id of the current serial and advances the counter by one |
| Registry.PutFresh | mesonbuild/backend/xcodebackend.py:127-139 | storing the next fresh id keeps a table injective, inside its window and apart from its partner table |
| Registry.PutFirst | mesonbuild/backend/xcodebackend.py:127-130 | a fresh id stored in the first of two tables filled together keeps them injective and disjoint |
| Registry.PutSecond | mesonbuild/backend/xcodebackend.py:139 | the same for a fresh id stored in the second table |
| Registry.DisjointWindows | mesonbuild/backend/xcodebackend.py:44-57 | tables drawn from non-overlapping serial windows share no id |
| Registry.ConsecutiveIds | mesonbuild/backend/xcodebackend.py:163-216 | a table giving the i-th key the i-th serial of a window is injective and stays in that window |
| Registry.WindowedFourteen | mesonbuild/backend/xcodebackend.py:44-57 | fourteen id sets, each in the window after the one before, lie in windows that follow one another |
| Registry.WindowsApart | mesonbuild/backend/xcodebackend.py:44-57 | sets drawn from windows that follow one another share no id, and within the id space no two of their ids are written alike |
| Registry.TabulateShape | mesonbuild/backend/xcodebackend.py:163-216 | a per-name table is a valid dictionary with exactly the names as keys, in order, holding the i-th value under the i-th name |
| Registry.TabulateSnoc | mesonbuild/backend/xcodebackend.py:165-166 | storing one more name after the table of the others gives the table of all of them |
| Registry.TabulateNext | mesonbuild/backend/xcodebackend.py:165-166 | one loop iteration turns the table of the first i names into that of the first i + 1 |
| Registry.Serials | mesonbuild/backend/xcodebackend.py:163-216 | the n ids drawn from a serial on are that serial's id and the next n - 1 |
| Registry.DebugSerials | mesonbuild/backend/xcodebackend.py:168-172 | the n `{'debug': id}` tables drawn from a serial on hold the consecutive ids |
| Registry.PerNameIds | mesonbuild/backend/xcodebackend.py:163-166 | the per-name loop gives each name, in order, the next serial, and draws exactly one id per name |
| Registry.DebugOnlyShape | mesonbuild/backend/xcodebackend.py:161 | a `{'debug': id}` table has the one key `'debug'` holding the id |
| Registry.DebugIds | mesonbuild/backend/xcodebackend.py:174-181 | a build-type table is `{'debug': <next id>}` and draws one id |
| Registry.PerNameDebugIds | mesonbuild/backend/xcodebackend.py:168-172 | `buildconfmap` holds for each name, in order, a `{'debug': id}` table with the next serial |
| Registry.ConfWindow | mesonbuild/backend/xcodebackend.py:168-172 | the per-target `{'debug': id}` tables take consecutive serials: each keeps to the window and different targets get different ids |
| Writer.Indentation | mesonbuild/backend/xcodebackend.py:31-32 | the indentation is seven characters per level and empty at level zero or below |
| Writer.IndentationBlank | mesonbuild/backend/xcodebackend.py:31 | the indentation consists of spaces only |
| Writer.RenderLineShape | mesonbuild/backend/xcodebackend.py:115-118 | a written line is the indentation, then the text, then a newline added exactly when the text has none |
| Writer.RenderLine | mesonbuild/backend/xcodebackend.py:115-118 | (reference) the text `write_line` writes: the indentation of the level, the text, and a newline unless the text ends with one |
| Writer.ContentsAppend | mesonbuild/backend/xcodebackend.py:116-118 | the file's contents after two runs of writes are the two contents in order |
| Writer.OutputWriter.constructor | mesonbuild/backend/xcodebackend.py:31-32 | the writer starts with an empty file at indentation level 0 |
| Writer.OutputWriter.Write | mesonbuild/backend/xcodebackend.py:219 | `ofile.write` appends its text and leaves the level alone |
| Writer.OutputWriter.WriteLine | mesonbuild/backend/xcodebackend.py:115-118 | `write_line` appends the rendered line at the current level and leaves the level alone |
| Dicts.Get | mesonbuild/backend/xcodebackend.py:264-266 | a lookup succeeds exactly for a present key and returns its value |
| Dicts.Update | mesonbuild/backend/xcodebackend.py:790 | overwriting a present key changes its value and not the key order |
| Dicts.Put | mesonbuild/backend/xcodebackend.py:127 | a new key goes to the end, an existing key keeps its place (the key order is `AddUnique` of the old one), and the dictionary stays valid |
| Dicts.EmptyDict | mesonbuild/backend/xcodebackend.py:121 | the empty dictionary is valid and has no keys |
| Dicts.SameKeysValid | mesonbuild/backend/xcodebackend.py:790 | overwriting values under the same keys keeps a dictionary valid |
| Dicts.GetAfterPut | mesonbuild/backend/xcodebackend.py:127 | reading a key after writing it gives the written value, and other keys are unaffected |
| Dicts.PutKeepsOrder | mesonbuild/backend/xcodebackend.py:127 | writing never moves a key in the iteration order |
| FileTypes.Extension | mesonbuild/backend/xcodebackend.py:99 | the extension holds no dot, ends the name, and is either the whole name or preceded by a dot |
| FileTypes.SplitLastIsSuffix | mesonbuild/backend/xcodebackend.py:99 | the last part of a split ends the string: the whole string when there is one part, otherwise preceded by the separator |
| FileTypes.SplitLastStep | mesonbuild/backend/xcodebackend.py:99 | the last part of a split is unchanged by a leading character unless that character starts the only part |
| FileTypes.TypeForFilename | mesonbuild/backend/xcodebackend.py:78-105 | the table entry of the extension, or `'compiled'` with a warning exactly when the extension is not in the table, never an error |
| FileTypes.ExtensionIsLastDot | mesonbuild/backend/xcodebackend.py:99 | no character of the extension is a dot, so it starts after the last dot |
| FileTypes.NoDotExtension | mesonbuild/backend/xcodebackend.py:99 | a name without a dot is its own extension |
| FileTypes.ExtensionAfterDot | mesonbuild/backend/xcodebackend.py:99 | the extension of `stem.ext` is `ext` for a dot-free `ext` |
| FileTypes.ExtensionDecides | mesonbuild/backend/xcodebackend.py:99-105 | the type of `stem.ext` is the table entry of `ext`, or the fallback with a warning for an unlisted `ext` |
| FileTypes.CaseSensitiveTable | mesonbuild/backend/xcodebackend.py:80-97 | lookups are case-sensitive: `S` is assembly, while `s` and `C` are unknown |
| Paths.JoinPathShape | mesonbuild/backend/xcodebackend.py:126 | a join ends with its second part, and a relative part goes under the first with one separator |
| Paths.JoinPath | mesonbuild/backend/xcodebackend.py:127 | (reference) `os.path.join` on two components: an absolute second component replaces the first, otherwise they are joined with one `/` |
| Paths.TargetToBuildRoot | mesonbuild/backend/xcodebackend.py:591-596 | `''` exactly for the top directory, otherwise one `..` per component of the sub-directory, joined by the separator |
| NativeTargets.Isa | mesonbuild/backend/xcodebackend.py:447-450 | `PBXLegacyTarget` exactly for a custom target, `PBXNativeTarget` otherwise |
| NativeTargets.ProductType | mesonbuild/backend/xcodebackend.py:475-484 | no product type for a custom target, the fixed tag for each compiled kind, and `MesonException` exactly for any other kind |
| NativeTargets.ProductTypeIdentifiesKind | mesonbuild/backend/xcodebackend.py:476-483 | two kinds with the same successful product type are the same kind |
| Compilers.FirstClIndex | mesonbuild/backend/xcodebackend.py:925-927 | the position of the first C or C++ language, with none before it |
| Compilers.GetClCompiler | mesonbuild/backend/xcodebackend.py:924-934 | the target's first C/C++ compiler, or else the configuration's when the target has objects; it fails exactly when neither applies |
| FileMaps.ObjectPaths | mesonbuild/backend/xcodebackend.py:134-138 | one path per object entry that is a path string, under the target's directory; entries of other types are passed over, as `generate_filemap` does |
| FileMaps.ObjectPathsAt | mesonbuild/backend/xcodebackend.py:134-138 | when every entry is a path, object path k is entry k under the target's directory |
| FileMaps.ObjectPathsMembers | mesonbuild/backend/xcodebackend.py:134-138 | a path is an object path exactly when some entry is a path string that joins to it |
| FileMaps.GraphPaths | mesonbuild/backend/xcodebackend.py:120-139 | (reference) the paths the file tables are keyed by: per target in order, each source's path followed by the object paths |
| FileMaps.WithSources | mesonbuild/backend/xcodebackend.py:139 | (reference) the targets that get a product id: those with at least one source, in target order |
| FileMaps.FilePut | mesonbuild/backend/xcodebackend.py:127-130 | storing a path adds it to the key set, appends it to the key order unless already there, and keeps the two tables injective and disjoint |
| FileMaps.AddObjects | mesonbuild/backend/xcodebackend.py:134-138 | the object loop of `generate_filemap` adds exactly the object paths (entries that are not paths are skipped) with fresh ids, new ones at the end in encounter order, keeping both tables injective and disjoint |
| FileMaps.ObjectPathsNext | mesonbuild/backend/xcodebackend.py:134-138 | one object entry adds its joined path to the key set and, unless present, to the end of the key order; an entry that is not a path adds nothing |
| FileMaps.FilemapStep | mesonbuild/backend/xcodebackend.py:124-139 | one source's iteration adds its path and the object paths, new ones at the end in that order, and gives the target a (new) product id |
| FileMaps.FilemapTarget | mesonbuild/backend/xcodebackend.py:124-139 | a target's loop files its paths, new ones at the end in encounter order, and gives it a product id only when it owns a source |
| FileMaps.GenerateFilemap | mesonbuild/backend/xcodebackend.py:120-139 | `filemap` keys are exactly the graph's source and object paths, listed in the order of their first occurrence in the graph; `target_filemap` lists, in order, exactly the targets with a source; all ids are fresh and no id is in both tables |
| FileMaps.AddBuildObjects | mesonbuild/backend/xcodebackend.py:154-157 | the object loop of `generate_buildmap` succeeds exactly when every entry is a path, then adds exactly their paths with fresh ids; otherwise it raises `TypeError` for the first entry that is not a path |
| FileMaps.FilemapNext | mesonbuild/backend/xcodebackend.py:123-139 | the loop invariants of `generate_filemap` carry over to the next target |
| FileMaps.FilemapOrderNext | mesonbuild/backend/xcodebackend.py:123-139 | the first-occurrence key order of `filemap` carries over to the next target |
| FileMaps.WithSourcesMembers | mesonbuild/backend/xcodebackend.py:139 | a target is in `target_filemap` exactly when it owns a source |
| FileMaps.BuildmapTarget | mesonbuild/backend/xcodebackend.py:144-158 | a target's loop of `generate_buildmap` succeeds exactly when it has no source or only path objects, then adds exactly its paths with fresh ids; otherwise `TypeError` for one of its object entries |
| FileMaps.GenerateBuildmap | mesonbuild/backend/xcodebackend.py:141-158 | succeeds exactly when every target with a source has only path objects, else `TypeError` for an entry of some target; on success `buildmap` has exactly the paths `filemap` has, each with its own fresh id |
| FileMaps.BuildmapNext | mesonbuild/backend/xcodebackend.py:143-158 | after a target whose objects could be joined, `buildmap` holds the paths of the targets so far and they all joined |
| FileMaps.DependencyKeys | mesonbuild/backend/xcodebackend.py:196-201 | one (target, basename) key per dependency |
| FileMaps.DependencyTarget | mesonbuild/backend/xcodebackend.py:196-201 | one target's loop adds exactly its keys with fresh ids |
| FileMaps.GenerateTargetDependencyMap | mesonbuild/backend/xcodebackend.py:193-201 | one key per (target, dependency basename) pair, custom targets by their dependencies and others by their link targets, with fresh distinct ids |
| Flags.AddLayer | mesonbuild/backend/xcodebackend.py:761-783 | one layer appends its arguments to each compiler language's list, ignoring other languages and keeping the keys |
| Flags.EmptyArgs | mesonbuild/backend/xcodebackend.py:756 | `file_args` starts with one empty list per compiler language, in the compilers' order |
| Flags.CompilerLayer | mesonbuild/backend/xcodebackend.py:761-764 | the base and option layer has exactly the compiler languages as keys |
| Flags.MergeCompileArgs | mesonbuild/backend/xcodebackend.py:756-783 | every language's list is base and option args, then subproject, global, environment (not when cross) and per-target args |
| Flags.MergedArgs | mesonbuild/backend/xcodebackend.py:756-783 | (reference) one language's merged `file_args`: base and option arguments, subproject, global, environment unless cross, then per-target |
| Flags.MergeAll | mesonbuild/backend/xcodebackend.py:756-783 | the five layers applied in turn give the merged lists |
| Flags.MergeAt | mesonbuild/backend/xcodebackend.py:756-783 | the per-language values of the layers, in order, end in the merged list |
| Flags.TargetArgsComeLast | mesonbuild/backend/xcodebackend.py:779-783 | the per-target arguments end the merged list, and a cross build takes nothing from the environment |
| Flags.IncludesSeparated | mesonbuild/backend/xcodebackend.py:787-794 | no `-I` argument survives, every other argument does, and every `-I` payload is collected |
| Flags.NonIncludesAppend | mesonbuild/backend/xcodebackend.py:788-791 | the arguments that are kept keep their relative order: filtering a concatenation filters each part in turn |
| Flags.NonIncludesPlain | mesonbuild/backend/xcodebackend.py:788-791 | a list without `-I` arguments is kept whole |
| Flags.IncludeNotKept | mesonbuild/backend/xcodebackend.py:788-791 | an `-I` argument is never among the arguments kept |
| Flags.IncludePayloadsAppend | mesonbuild/backend/xcodebackend.py:787-794 | the directories of two argument runs are those of the first, then those of the second |
| Flags.IncludePayloadAt | mesonbuild/backend/xcodebackend.py:787-794 | the directories are collected in the order the `-I` arguments occur: argument i's directory comes right after those of the arguments before it |
| Dicts.AppendUnique | mesonbuild/backend/xcodebackend.py:792-794 | (reference) the de-duplicating append: each element is added once, in order, unless already listed; also the key order of a dictionary filled key by key |
| Dicts.AppendUniqueShape | mesonbuild/backend/xcodebackend.py:792-794 | the list keeps its old entries as a prefix, gains exactly the new elements, and gains no duplicate |
| Dicts.AppendUniqueConcat | mesonbuild/backend/xcodebackend.py:787-804 | adding two lists in turn equals adding their concatenation |
| Flags.RemoveFirst | mesonbuild/backend/xcodebackend.py:790 | (reference) `list.remove`: the first occurrence goes, the rest stays in order |
| Flags.RemoveFirstSkips | mesonbuild/backend/xcodebackend.py:790 | `list.remove` drops the first occurrence, after any prefix that does not hold it |
| Flags.StripIncludes | mesonbuild/backend/xcodebackend.py:788-794 | iterating over a copy and removing in place leaves the non-`-I` arguments, and adds the payloads uniquely |
| Flags.StripStep | mesonbuild/backend/xcodebackend.py:788-794 | one iteration of the removal loop keeps both loop invariants |
| Flags.ExtractIncludes | mesonbuild/backend/xcodebackend.py:787-794 | over all languages in order, each list is stripped of `-I` arguments and the header list gains their payloads |
| Flags.ExtractStep | mesonbuild/backend/xcodebackend.py:787-794 | one language of the extraction keeps the loop invariants |
| Flags.StrippedNext | mesonbuild/backend/xcodebackend.py:787-791 | stripping one more language leaves the others as they were |
| Flags.ExtractDone | mesonbuild/backend/xcodebackend.py:787-794 | after the last language every list is stripped |
| Flags.DepFlagArgsFiltered | mesonbuild/backend/xcodebackend.py:805-807 | no collected dependency argument is an `-I` argument or a language name |
| Flags.PushDepArg | mesonbuild/backend/xcodebackend.py:799-807 | one dependency argument adds its payload uniquely when it is `-I`, and otherwise goes to `target_args` unless it is a language key |
| Flags.DepArgStep | mesonbuild/backend/xcodebackend.py:799-807 | one iteration of the dependency-argument loop keeps its invariants |
| Flags.AddExternalDepArgs | mesonbuild/backend/xcodebackend.py:796-807 | the dependencies, visited in reverse, add their `-I` payloads uniquely and their other arguments to `target_args` |
| Flags.AddDepArgs | mesonbuild/backend/xcodebackend.py:798-807 | one dependency's arguments extend both results as if appended to those visited before |
| Flags.RootedDirs | mesonbuild/backend/xcodebackend.py:688-696 | one directory per entry |
| Flags.RootedDirsAt | mesonbuild/backend/xcodebackend.py:689-691 | entry i is the i-th directory joined below the current directory and the root |
| Flags.AppendRooted | mesonbuild/backend/xcodebackend.py:688-696 | the append loop extends the list by the rooted directories in order |
| Flags.InitialHeaderDirs | mesonbuild/backend/xcodebackend.py:681-696 | the header list starts with the build directory |
| Flags.CollectHeaderDirs | mesonbuild/backend/xcodebackend.py:681-696 | the append loops give the build directory, then the custom target's directory or the include directories in reverse |
| Flags.AppendReversedSpecs | mesonbuild/backend/xcodebackend.py:687-696 | the loop over reversed include specs appends each spec's source, then build directories |
| Flags.AppendSpec | mesonbuild/backend/xcodebackend.py:688-696 | one include spec appends its source-rooted, then its build-rooted directories |
| Flags.ReversedSpecStep | mesonbuild/backend/xcodebackend.py:687 | visiting spec k after the later ones extends the reversed list by one spec |
| Flags.PayloadsOfMerged | mesonbuild/backend/xcodebackend.py:787-794 | the payloads collected from the merged lists are those of the merged layer arguments |
| Flags.CompiledAsUnique | mesonbuild/backend/xcodebackend.py:755-807 | the compiled-target projection is determined by its inputs |
| Flags.ProjectCompileArgs | mesonbuild/backend/xcodebackend.py:755-807 | the compiled-target branch fails exactly when no C or C++ compiler is found, and otherwise gives the merged, stripped lists and the extended header list |
| Flags.CompiledFromParts | mesonbuild/backend/xcodebackend.py:755-807 | merge, extraction and dependency pass together make up the projection |
| Flags.ProjectionDropsIncludes | mesonbuild/backend/xcodebackend.py:787-791 | after the projection no language list holds an `-I` argument |
| Flags.ProjectionKeepsHeaderDirs | mesonbuild/backend/xcodebackend.py:792-804 | the header list keeps its initial entries as a prefix and gains no duplicate |
| Flags.AppendUniqueTwice | mesonbuild/backend/xcodebackend.py:787-804 | two rounds of unique appends keep the original list in front without duplicates |
| Flags.DepLibs | mesonbuild/backend/xcodebackend.py:698-701 | one entry per link target |
| Flags.DepLibsAt | mesonbuild/backend/xcodebackend.py:699-701 | entry i is the quoted `<build>/<subdir>/<buildtype>/<filename>` of link target i |
| Flags.LinksDylibSome | mesonbuild/backend/xcodebackend.py:702-703 | `links_dylib` holds exactly when some link target is a shared library |
| Flags.CollectLinkInputs | mesonbuild/backend/xcodebackend.py:698-703 | the loop produces `dep_libs` and `links_dylib` as specified |
| Flags.LinkInputStep | mesonbuild/backend/xcodebackend.py:698-703 | one link target appends its path and may set the flag |
| Flags.HeadOf | mesonbuild/backend/xcodebackend.py:704-708 | the head has the dylib flags first for a shared library and the search-path flags last when a dylib is linked |
| Flags.HeadLayout | mesonbuild/backend/xcodebackend.py:704-719 | where each part of a head, artifacts and own-arguments list sits |
| Flags.LdArgs | mesonbuild/backend/xcodebackend.py:698-719 | (reference) `ldargs`: the dylib flags for a shared library, the search flags when a dylib is linked, the quoted link-target paths, then `link_args` except for custom targets |
| Flags.LdArgsLayout | mesonbuild/backend/xcodebackend.py:698-719 | link arguments are the dylib flags (shared library), the search-path flags (a dylib is linked), one path per link target in order, then `link_args` (none for a custom target) |
| Flags.LinkArguments | mesonbuild/backend/xcodebackend.py:698-720 | the in-place list building gives that link-argument list |
| Flags.SearchFlagsIffDylib | mesonbuild/backend/xcodebackend.py:704-705 | for a target with link targets, the argument after the dylib flags is the search-path flag exactly when some link target is a shared library |
| Flags.InstallPath | mesonbuild/backend/xcodebackend.py:707-713 | `''` for every kind but a shared library, whose path ends with the build type |
| Flags.DylibVersion | mesonbuild/backend/xcodebackend.py:706-710 | a version exactly for a shared library with a soversion |
| Flags.ProductName | mesonbuild/backend/xcodebackend.py:714-717 | the basename, extended by `.<soversion>` exactly for a shared library with a soversion |
| Flags.ExecutableSuffix | mesonbuild/backend/xcodebackend.py:746-752 | `.<suffix>` for a target with a prefix attribute and a non-empty suffix, `''` otherwise |
| Flags.EscapeQuotes | mesonbuild/backend/xcodebackend.py:810 | every double quote of the result is preceded by the three escape characters |
| Flags.EscapedStart | mesonbuild/backend/xcodebackend.py:810 | the escaped string has no double quote among its first three characters |
| Flags.UnescapeEscape | mesonbuild/backend/xcodebackend.py:810 | unescaping the escaped C flags gives them back |
| Flags.QuoteHeaderDir | mesonbuild/backend/xcodebackend.py:820 | a quoted directory is the directory inside three characters on each side |
| Flags.QuoteAll | mesonbuild/backend/xcodebackend.py:820 | one quoted entry per directory |
| Flags.QuoteAllAt | mesonbuild/backend/xcodebackend.py:820 | entry i is directory i, quoted |
| Flags.QuoteNoComma | mesonbuild/backend/xcodebackend.py:820 | quoting adds no comma |
| Flags.HeaderSearchPathsReadBack | mesonbuild/backend/xcodebackend.py:819-821 | splitting the written list on commas gives back the quoted directories when none holds a comma |
| Flags.LangArgs | mesonbuild/backend/xcodebackend.py:722-733 | `langargs` is a valid dictionary |
| Flags.CollectLangArgs | mesonbuild/backend/xcodebackend.py:722-733 | the loop over the configuration's languages produces `langargs` |
| Flags.LangArgsEntries | mesonbuild/backend/xcodebackend.py:722-733 | a language's setting name is present exactly when the language is configured and its global and target args are not empty, and it holds them |
| Flags.LangNamesDistinct | mesonbuild/backend/xcodebackend.py:674 | the four languages have four different setting names |
| Settings.LangSettings | mesonbuild/backend/xcodebackend.py:826-828 | one `OTHER_<NAME>FLAGS` setting per `langargs` entry |
| Settings.CFlagsName | mesonbuild/backend/xcodebackend.py:809-828 | only the `C` entry of `langargs` is written as `OTHER_CFLAGS` |
| Settings.LangSettingsCFlags | mesonbuild/backend/xcodebackend.py:826-828 | the language settings write `OTHER_CFLAGS` once if `langargs` has `C`, never otherwise |
| Settings.LeadingCFlags | mesonbuild/backend/xcodebackend.py:740-811 | the opening settings write `OTHER_CFLAGS` once exactly when `file_args` has `c` |
| Settings.MiddleCFlags | mesonbuild/backend/xcodebackend.py:813-825 | the middle settings never write `OTHER_CFLAGS` |
| Settings.TrailingCFlags | mesonbuild/backend/xcodebackend.py:829-835 | the closing settings never write `OTHER_CFLAGS` |
| Settings.CFlagsCount | mesonbuild/backend/xcodebackend.py:809-828 | `OTHER_CFLAGS` is written once for `file_args['c']` plus once for `langargs['C']`, so up to twice |
| Settings.FlagsOf | mesonbuild/backend/xcodebackend.py:754-812 | (reference) a target's compile flags: the leaked `file_args` (or `NameError`) for a custom target, otherwise the projection or the compiler search's error |
| Settings.TargetFlags | mesonbuild/backend/xcodebackend.py:683-807 | a custom target reuses the `file_args` in scope (`NameError` when there are none); a compiled target gets the projection or the compiler error |
| Settings.TargetSettings | mesonbuild/backend/xcodebackend.py:735-835 | (reference) the settings a target's configuration writes, in the order of the source |
| Settings.SettingsFor | mesonbuild/backend/xcodebackend.py:735-840 | a target's settings are built from its flags and header list as the source writes them |
| Settings.ConfigureTarget | mesonbuild/backend/xcodebackend.py:676-835 | the per-target configuration fails exactly as `TargetFlags` says, and otherwise gives its flags and settings |
| Sections.Render | mesonbuild/backend/xcodebackend.py:115-118 | one write per line of a record |
| Sections.RenderSnoc | mesonbuild/backend/xcodebackend.py:115-118 | one more line gives one more write |
| Sections.RenderAppend | mesonbuild/backend/xcodebackend.py:115-118 | two runs of lines write one after the other |
| Sections.RenderRaw | mesonbuild/backend/xcodebackend.py:219 | a raw `ofile.write` line is written as it is |
| Sections.RenderSix | mesonbuild/backend/xcodebackend.py:61-75 | six runs of lines write one after the other |
| Sections.RenderAt | mesonbuild/backend/xcodebackend.py:115-118 | the i-th write is the i-th line at the section's level |
| Sections.FramedRender | mesonbuild/backend/xcodebackend.py:219-251 | a section writes its opening banner, its body and its closing banner |
| Sections.TaggedEntries | mesonbuild/backend/xcodebackend.py:228-229 | one reference per id, in order, with the same comment |
| Sections.NamedEntries | mesonbuild/backend/xcodebackend.py:366-367 | one reference per name, to its id, commented with the name |
| Sections.Lookup | mesonbuild/backend/xcodebackend.py:228-229 | the ids of the keys, in key order |
| Sections.AggregateRender | mesonbuild/backend/xcodebackend.py:218-251 | the aggregate section writes its banner, the `ALL_BUILD` record with one dependency per target, `RUN_TESTS` and its closing banner |
| Sections.AggregateListsEveryTarget | mesonbuild/backend/xcodebackend.py:226-230 | the i-th dependency of `ALL_BUILD` is the i-th target's dependency object |
| Sections.ObjectBuildFiles | mesonbuild/backend/xcodebackend.py:270-277 | one object build file per object, under the target's directory |
| Sections.BuildFileLines | mesonbuild/backend/xcodebackend.py:257-277 | one line per build file, in order |
| Sections.FilesKnownAppend | mesonbuild/backend/xcodebackend.py:264-274 | the files of two lists are known exactly when those of each are |
| Sections.BuildFileStep | mesonbuild/backend/xcodebackend.py:257-277 | the build-file lines of one more target follow those of the first targets |
| Sections.SourceBuildFilesFiled | mesonbuild/backend/xcodebackend.py:258-266 | a local source's build file is among the paths the maps filed |
| Sections.ObjectPathsFiled | mesonbuild/backend/xcodebackend.py:134-138 | every object path is filed once the target has a source |
| Sections.TargetBuildFilesFiled | mesonbuild/backend/xcodebackend.py:257-277 | the build files of a local target are all filed |
| Sections.GraphBuildFilesFiled | mesonbuild/backend/xcodebackend.py:257-277 | when every target is local, every build file of the section is filed |
| Sections.GraphStep | mesonbuild/backend/xcodebackend.py:257-277 | one more target: its build files and filed paths follow those of the targets before it |
| Sections.ForeignFileNotFiled | mesonbuild/backend/xcodebackend.py:259-264 | a file from another directory is filed under `lib/a.c` but looked up as `app/a.c` |
| Sections.BuildFileUsesTargetDir | mesonbuild/backend/xcodebackend.py:259-263 | the build-file section joins a file reference's name under the target's directory, the maps under its own |
| Sections.BuildStyleStep | mesonbuild/backend/xcodebackend.py:282-293 | the records of one more style follow the earlier ones |
| Sections.BuildStyleNamesStyle | mesonbuild/backend/xcodebackend.py:282-293 | seven lines per style; record i opens with the style's id and names the style |
| Sections.ProxyRecords | mesonbuild/backend/xcodebackend.py:298-307 | seven lines per target |
| Sections.ProxyStep | mesonbuild/backend/xcodebackend.py:298-307 | the proxies of one more target follow the earlier ones |
| Sections.ProxyPointsAtNativeTarget | mesonbuild/backend/xcodebackend.py:299-304 | the i-th proxy opens with the target's proxy id and points at its native target |
| Sections.PathTail | mesonbuild/backend/xcodebackend.py:316 | the file name holds no separator and ends the path |
| Sections.FileRefLines | mesonbuild/backend/xcodebackend.py:313-318 | one file reference per `filemap` entry, in order, with its id |
| Sections.ProductRefLines | mesonbuild/backend/xcodebackend.py:320-333 | one product reference per `target_filemap` entry, in order |
| Sections.SharedLibraryProductType | mesonbuild/backend/xcodebackend.py:327-328 | a shared library's product is a dylib whatever its file name |
| Sections.GroupSourcePaths | mesonbuild/backend/xcodebackend.py:404-412 | one listed path per source: its own, or the previous `source_path` for an entry of neither shape |
| Sections.SourceFileEntries | mesonbuild/backend/xcodebackend.py:404-416 | one child per listed path, with its file id |
| Sections.GroupFilesSnoc | mesonbuild/backend/xcodebackend.py:386-422 | one more target's files are known, and `source_path` moves past its sources |
| Sections.GroupFilesExtend | mesonbuild/backend/xcodebackend.py:386-422 | the known files grow by one target |
| Sections.GroupSectionListsTargets | mesonbuild/backend/xcodebackend.py:361-437 | the sources group lists every target's group and the products group every product, in target order |
| Sections.GroupRecordChild | mesonbuild/backend/xcodebackend.py:386-398 | a group record lists its children after its three opening lines |
| Sections.LinkDeps | mesonbuild/backend/xcodebackend.py:464-469 | one dependency object per link target, in order |
| Sections.NativesKnownSnoc | mesonbuild/backend/xcodebackend.py:442-486 | the lookups of one more native target succeed |
| Sections.NativeRecord | mesonbuild/backend/xcodebackend.py:444-486 | (reference) the lines of one `PBXNativeTarget` object |
| Sections.NativeStep | mesonbuild/backend/xcodebackend.py:442-486 | the native-target records of one more target follow the earlier ones |
| Sections.NativeRecordProductType | mesonbuild/backend/xcodebackend.py:475-484 | a native-target record ends with `productType` exactly for a compiled kind, naming its type |
| Sections.ProjectSection | mesonbuild/backend/xcodebackend.py:489-524 | (reference) the lines of the `PBXProject` section |
| Sections.ProjectListsEveryTarget | mesonbuild/backend/xcodebackend.py:514-519 | the project lists `ALL_BUILD`, `RUN_TESTS`, then each target's native target in order |
| Sections.ShellSection | mesonbuild/backend/xcodebackend.py:526-548 | (reference) the lines of the `PBXShellScriptBuildPhase` section |
| Sections.TestCommandWords | mesonbuild/backend/xcodebackend.py:542-543 | splitting the command at spaces gives back its five quoted words when none holds a space |
| Sections.PhaseEntries | mesonbuild/backend/xcodebackend.py:569-570 | one entry per compiled path, with its build id and full path |
| Sections.PhaseStep | mesonbuild/backend/xcodebackend.py:552-575 | the phase records of one more target follow the earlier ones |
| Sections.CompiledSourcesMembers | mesonbuild/backend/xcodebackend.py:560-570 | a phase compiles exactly the sources with a path that are not headers |
| Sections.CompiledSourceFrom | mesonbuild/backend/xcodebackend.py:560-570 | every compiled path is the key of some source and not a header |
| Sections.CompiledSourceAt | mesonbuild/backend/xcodebackend.py:560-570 | the key of every source with a path that is not a header is compiled |
| Sections.DependencyRecord | mesonbuild/backend/xcodebackend.py:578-589 | (reference) the lines of one `PBXTargetDependency` object |
| Sections.DependencyRecords | mesonbuild/backend/xcodebackend.py:580-588 | five lines per target |
| Sections.DependencyStep | mesonbuild/backend/xcodebackend.py:580-588 | the dependency records of one more target follow the earlier ones |
| Sections.DependencyLinksProxy | mesonbuild/backend/xcodebackend.py:585-586 | the i-th dependency names the i-th native target and its proxy |
| Sections.SettingLines | mesonbuild/backend/xcodebackend.py:740-835 | one line per setting, in order |
| Sections.ConfigRecord | mesonbuild/backend/xcodebackend.py:602-615 | (reference) the lines of one `XCBuildConfiguration` object around its settings |
| Sections.ConfigRecordSettings | mesonbuild/backend/xcodebackend.py:735-840 | a configuration record lists its settings after three opening lines |
| Sections.AggregateConfigs | mesonbuild/backend/xcodebackend.py:598-671 | (reference) the project, `ALL_BUILD` and `RUN_TESTS` configurations, in that order |
| Sections.PlanRecordsStep | mesonbuild/backend/xcodebackend.py:675-840 | the records of one more planned target follow the earlier ones |
| Sections.PlansComplete | mesonbuild/backend/xcodebackend.py:675 | once every target is planned, the plans so far are all of them |
| Sections.TargetPlans | mesonbuild/backend/xcodebackend.py:673-840 | (reference) the per-target configuration plans in target order, carrying the leaked `file_args`, or the first error |
| Sections.TargetPlansSucceed | mesonbuild/backend/xcodebackend.py:675-835 | planning succeeds exactly when every target can be configured, counting the `file_args` left by earlier targets |
| Sections.AllConfigurableStep | mesonbuild/backend/xcodebackend.py:675-811 | every target from i on is configurable exactly when target i is and the rest are, with flags in scope after a compiled target |
| Sections.ShiftCompiledBetween | mesonbuild/backend/xcodebackend.py:756 | a compiled target between i and j is target i or one after it |
| Sections.AggregateLists | mesonbuild/backend/xcodebackend.py:843-887 | (reference) the project, `ALL_BUILD` and `RUN_TESTS` configuration lists |
| Sections.TargetList | mesonbuild/backend/xcodebackend.py:889-904 | (reference) one target's configuration list, naming its `'debug'` configuration |
| Sections.ListError | mesonbuild/backend/xcodebackend.py:889-898 | a failing list lookup raises `KeyError` for the target name or for `'debug'` |
| Sections.ListStep | mesonbuild/backend/xcodebackend.py:889-904 | the lists of one more target follow the earlier ones |
| Sections.TargetListsLength | mesonbuild/backend/xcodebackend.py:889-904 | eight lines per target |
| Sections.TargetListsAt | mesonbuild/backend/xcodebackend.py:889-904 | lines 8i to 8i + 8 are the list of the i-th target |
| Sections.TargetListsStep | mesonbuild/backend/xcodebackend.py:889-904 | one more target: its eight-line list follows the eight lines per target of the others |
| Backend.WithoutDashes | mesonbuild/backend/xcodebackend.py:29 | the result has no dash and is no longer than the input |
| Backend.ProjectUid | mesonbuild/backend/xcodebackend.py:29 | the project id is a prefix of the dash-free GUID, dash-free, 24 characters when the GUID has that many digits |
| Backend.ProjectUidOfCanonicalGuid | mesonbuild/backend/xcodebackend.py:29 | for an 8-4-4-4-12 GUID the project id is its first 24 digits |
| Backend.XcodeBackend.constructor | mesonbuild/backend/xcodebackend.py:26-39 | the seven fixed ids are serials 0 to 6 in source order, the project id comes from the GUID, and the file is empty at level 0 |
| Backend.XcodeBackend.NamedFromShape | mesonbuild/backend/xcodebackend.py:163-216 | a table of consecutive serials has one entry per target, the i-th target holding the i-th serial |
| Backend.XcodeBackend.NamedPerTarget | mesonbuild/backend/xcodebackend.py:163-216 | such a table has one entry per target |
| Backend.XcodeBackend.DebugPerTarget | mesonbuild/backend/xcodebackend.py:168-172 | `buildconfmap` has one entry per target, each keyed by `'debug'` alone |
| Backend.XcodeBackend.GenerateFilemap | mesonbuild/backend/xcodebackend.py:120-139 | `filemap` keys are exactly the graph's paths, in the order the graph first names them, `target_filemap` keys the targets with a source, ids fresh and disjoint between the two tables |
| Backend.XcodeBackend.GenerateBuildmap | mesonbuild/backend/xcodebackend.py:141-158 | `buildmap` gets fresh, distinct ids; it succeeds exactly when every target with a source has only path objects, else `TypeError`; on success its keys are exactly the graph's paths |
| Backend.XcodeBackend.GenerateBuildstylemap | mesonbuild/backend/xcodebackend.py:160-161 | `{'debug': <next id>}` |
| Backend.XcodeBackend.GenerateBuildPhaseMap | mesonbuild/backend/xcodebackend.py:163-166 | one consecutive fresh id per target, in order |
| Backend.XcodeBackend.GenerateBuildConfigurationMap | mesonbuild/backend/xcodebackend.py:168-172 | one `{'debug': id}` table per target, with consecutive fresh ids |
| Backend.XcodeBackend.GenerateBuildConfigurationlistMap | mesonbuild/backend/xcodebackend.py:183-186 | one consecutive fresh id per target |
| Backend.XcodeBackend.GenerateProjectConfigurationsMap | mesonbuild/backend/xcodebackend.py:174-175 | `{'debug': <next id>}` |
| Backend.XcodeBackend.GenerateBuildallConfigurationsMap | mesonbuild/backend/xcodebackend.py:177-178 | `{'debug': <next id>}` |
| Backend.XcodeBackend.GenerateTestConfigurationsMap | mesonbuild/backend/xcodebackend.py:180-181 | `{'debug': <next id>}` |
| Backend.XcodeBackend.GenerateNativeTargetMap | mesonbuild/backend/xcodebackend.py:188-191 | one consecutive fresh id per target |
| Backend.XcodeBackend.GenerateSourcePhaseMap | mesonbuild/backend/xcodebackend.py:213-216 | one consecutive fresh id per target |
| Backend.XcodeBackend.GenerateTargetDependencyMap | mesonbuild/backend/xcodebackend.py:193-201 | one fresh id per (target, dependency basename) pair |
| Backend.XcodeBackend.GeneratePbxdepMap | mesonbuild/backend/xcodebackend.py:203-206 | one consecutive fresh id per target |
| Backend.XcodeBackend.GenerateContainerproxyMap | mesonbuild/backend/xcodebackend.py:208-211 | one consecutive fresh id per target |
| Backend.XcodeBackend.GenerateFileMaps | mesonbuild/backend/xcodebackend.py:44-45 | `filemap` and `target_filemap` drawn from one window, `buildmap` from the next, with the key sets of their builders and `filemap`'s first-occurrence key order, and `TypeError` exactly when a target with a source has an object that is not a path |
| Backend.XcodeBackend.GenerateConfigurationMaps | mesonbuild/backend/xcodebackend.py:46-49 | the style table is `{'debug': id}` of the first serial; the phase, configuration and configuration-list tables follow with one consecutive serial per target each |
| Backend.XcodeBackend.GenerateAggregateMaps | mesonbuild/backend/xcodebackend.py:50-52 | the project, `ALL_BUILD` and `RUN_TESTS` tables are `{'debug': id}` of three consecutive serials |
| Backend.XcodeBackend.GenerateTargetMaps | mesonbuild/backend/xcodebackend.py:53-57 | the native-target and source-phase tables give one consecutive serial per target, the dependency table fresh distinct ids per (target, dependency) pair, then the pbxdep and proxy tables one consecutive serial per target |
| Backend.XcodeBackend.GenerateObjectMaps | mesonbuild/backend/xcodebackend.py:46-57 | the tables after the path tables, each drawn from its own window in the order the builders run, with the key sets of their builders |
| Backend.XcodeBackend.GenerateLaterMaps | mesonbuild/backend/xcodebackend.py:50-57 | the aggregate tables, then the per-target object tables, each from its own window in turn |
| Backend.XcodeBackend.GenerateMaps | mesonbuild/backend/xcodebackend.py:44-57 | `TypeError` exactly when building `buildmap` fails; otherwise all fourteen tables are built, each drawn from its own window in source order (from the registry's serial on) and keyed as its builder states, `filemap` in the graph's first-occurrence order; and when the seven fixed ids were drawn first, no table holds one |
| Backend.XcodeBackend.NamedWindow | mesonbuild/backend/xcodebackend.py:163-216 | a table of consecutive serials per target keeps to its window and gives different targets different ids |
| Backend.XcodeBackend.DebugWindow | mesonbuild/backend/xcodebackend.py:160-181 | a `{'debug': id}` table keeps to its one-serial window |
| Backend.XcodeBackend.WithinWindow | mesonbuild/backend/xcodebackend.py:120-158 | a table filled from a window has all its ids in it |
| Backend.XcodeBackend.FilesKeepWindows | mesonbuild/backend/xcodebackend.py:44-45 | after the path builders, their tables keep to their windows, which follow one another |
| Backend.XcodeBackend.ConfigsKeepWindows | mesonbuild/backend/xcodebackend.py:46-49 | the style, phase, configuration and configuration-list tables keep to their windows, which follow one another |
| Backend.XcodeBackend.AggregatesKeepWindows | mesonbuild/backend/xcodebackend.py:50-52 | the three aggregate tables keep to their windows, which follow one another |
| Backend.XcodeBackend.TargetsKeepWindows | mesonbuild/backend/xcodebackend.py:53-57 | the per-target object tables keep to their windows, which follow one another |
| Backend.XcodeBackend.TablesKeepWindows | mesonbuild/backend/xcodebackend.py:44-57 | after `GenerateMaps`, every table keeps to its window and the windows follow one another |
| Backend.XcodeBackend.TablesInWindows | mesonbuild/backend/xcodebackend.py:44-57 | the ids of the fourteen tables lie in windows that follow one another, in build order |
| Backend.XcodeBackend.TablesApart | mesonbuild/backend/xcodebackend.py:44-57 | any two different tables built in one pass share no id, and within the id space no id of one is written like an id of the other |
| Backend.XcodeBackend.TablesInjective | mesonbuild/backend/xcodebackend.py:44-57 | within every table different keys have different ids, the path and product tables share none, and each target's `'debug'` configuration id is its own |
| Backend.XcodeBackend.ConfigTablesInjective | mesonbuild/backend/xcodebackend.py:163-186 | the phase, configuration and configuration-list tables give different targets different ids |
| Backend.XcodeBackend.TargetTablesInjective | mesonbuild/backend/xcodebackend.py:188-216 | the native-target, source-phase, dependency, pbxdep and proxy tables give different keys different ids |
| Backend.XcodeBackend.AllFixedIdsApart | mesonbuild/backend/xcodebackend.py:26-57 | no table built by the map builders holds one of the seven fixed ids, for all fourteen tables |
| Backend.XcodeBackend.FixedIdsApart | mesonbuild/backend/xcodebackend.py:26-57 | no table built by the map builders holds one of the seven ids the constructor drew |
| Backend.XcodeBackend.GeneratePrefix | mesonbuild/backend/xcodebackend.py:907-915 | writes the file's opening and raises the level by 2 |
| Backend.XcodeBackend.GenerateSuffix | mesonbuild/backend/xcodebackend.py:917-922 | lowers the level by 2 and closes the file, naming the project object as the root |
| Backend.XcodeBackend.WriteLines | mesonbuild/backend/xcodebackend.py:115-118 | writing a record's lines appends their rendering and restores the level |
| Backend.XcodeBackend.LookupAll | mesonbuild/backend/xcodebackend.py:228-229 | looks up every name, in order, or raises `KeyError` for a missing one |
| Backend.XcodeBackend.CheckKeys | mesonbuild/backend/xcodebackend.py:228-229 | succeeds exactly when every name is present, else `KeyError` for a missing one |
| Backend.XcodeBackend.GeneratePbxAggregateTarget | mesonbuild/backend/xcodebackend.py:218-251 | writes the aggregate section, or `KeyError` exactly when a target has no dependency id; the level is restored |
| Backend.XcodeBackend.NextBuildStyle | mesonbuild/backend/xcodebackend.py:282-293 | one more style record written |
| Backend.XcodeBackend.GeneratePbxBuildStyle | mesonbuild/backend/xcodebackend.py:280-294 | one record per build style, in table order, at a restored level |
| Backend.XcodeBackend.NextProxy | mesonbuild/backend/xcodebackend.py:298-307 | one more proxy record written |
| Backend.XcodeBackend.GeneratePbxContainerItemProxy | mesonbuild/backend/xcodebackend.py:296-308 | one proxy per target, or `KeyError` exactly for a target missing from either table |
| Backend.XcodeBackend.NextDependency | mesonbuild/backend/xcodebackend.py:580-588 | one more dependency record written |
| Backend.XcodeBackend.GeneratePbxTargetDependency | mesonbuild/backend/xcodebackend.py:578-589 | one dependency per target, or `KeyError` exactly for a target missing from one of the three tables |
| Backend.XcodeBackend.GeneratePbxProject | mesonbuild/backend/xcodebackend.py:489-524 | writes the project object, or `KeyError` exactly for a target without native-target id |
| Backend.XcodeBackend.GeneratePbxShellBuildPhase | mesonbuild/backend/xcodebackend.py:526-548 | writes the test phase with the space-joined, quoted test command |
| Backend.XcodeBackend.CompiledPaths | mesonbuild/backend/xcodebackend.py:560-570 | the paths a phase lists are the non-header sources with a path |
| Backend.XcodeBackend.NextPhase | mesonbuild/backend/xcodebackend.py:552-575 | one more phase record written |
| Backend.XcodeBackend.GeneratePbxSourcesBuildPhase | mesonbuild/backend/xcodebackend.py:550-576 | one phase per source-phase entry, or `KeyError` exactly when a lookup fails |
| Backend.XcodeBackend.LookupLinks | mesonbuild/backend/xcodebackend.py:464-469 | the link targets' dependency ids, or `KeyError` for a missing id |
| Backend.XcodeBackend.CheckNative | mesonbuild/backend/xcodebackend.py:442-484 | a target's lookups succeed, or `KeyError`, or `MesonException` for an unknown kind |
| Backend.XcodeBackend.NextNative | mesonbuild/backend/xcodebackend.py:442-486 | one more native-target record written |
| Backend.XcodeBackend.GeneratePbxNativeTarget | mesonbuild/backend/xcodebackend.py:440-487 | one record per native target, or the first `KeyError`/`MesonException` |
| Backend.XcodeBackend.GeneratePbxFileReference | mesonbuild/backend/xcodebackend.py:310-334 | the file references then the product references, or `KeyError` exactly for an unknown product target |
| Backend.XcodeBackend.CheckFiles | mesonbuild/backend/xcodebackend.py:264-274 | succeeds exactly when every file is in both tables, else `KeyError` for one that is not |
| Backend.XcodeBackend.NextBuildFiles | mesonbuild/backend/xcodebackend.py:257-277 | one more target's build-file lines written |
| Backend.XcodeBackend.GeneratePbxBuildFile | mesonbuild/backend/xcodebackend.py:253-278 | one line per build file, or `KeyError` exactly when a file is missing from a table, or `TypeError` for an object entry that is not a path |
| Backend.XcodeBackend.BuildFilesPrefix | mesonbuild/backend/xcodebackend.py:257-277 | one target with an unknown file makes the whole section fail |
| Backend.XcodeBackend.BuildFileSectionPasses | mesonbuild/backend/xcodebackend.py:253-278 | the section succeeds after the maps when every target's files are local and it has a source whenever it has objects |
| Backend.XcodeBackend.GenerateGroupMaps | mesonbuild/backend/xcodebackend.py:337-341 | two fresh ids per target, for the group and its source group |
| Backend.XcodeBackend.CheckSourcePaths | mesonbuild/backend/xcodebackend.py:404-412 | a target's source paths are found, or `NameError` for `source_path`, or `KeyError` |
| Backend.XcodeBackend.CheckObjectPaths | mesonbuild/backend/xcodebackend.py:413-416 | the object loop of a source group: success exactly when every entry is a path with a file reference; otherwise `TypeError` for an entry that is not a path or `KeyError` for a missing path |
| Backend.XcodeBackend.CheckGroupFiles | mesonbuild/backend/xcodebackend.py:386-416 | every target's group files are found, with `source_path` carried over |
| Backend.XcodeBackend.GeneratePbxGroup | mesonbuild/backend/xcodebackend.py:336-438 | draws 2n + 3 ids and writes the group section, or the `NameError`/`KeyError` of a failing lookup |
| Backend.XcodeBackend.CheckAndWriteGroups | mesonbuild/backend/xcodebackend.py:342-438 | the group lookups and, when they succeed, the section |
| Backend.XcodeBackend.GenerateGroupIds | mesonbuild/backend/xcodebackend.py:337-345 | two ids per target, then the sources, resources and products ids |
| Backend.XcodeBackend.CheckGroupSection | mesonbuild/backend/xcodebackend.py:386-431 | the files of every target's group, then every product, are found |
| Backend.XcodeBackend.WriteGroupSection | mesonbuild/backend/xcodebackend.py:342-438 | writes the main, sources, resources, per-target and products groups |
| Backend.XcodeBackend.PlanTarget | mesonbuild/backend/xcodebackend.py:675-833 | plans one target: its `'debug'` id, its flags and its settings, or the error raised |
| Backend.XcodeBackend.WritePlan | mesonbuild/backend/xcodebackend.py:735-840 | one more configuration record written |
| Backend.XcodeBackend.PlanAndWrite | mesonbuild/backend/xcodebackend.py:675-840 | one iteration of the per-target loop keeps its invariants or stops with the planning error |
| Backend.XcodeBackend.WriteTargetConfigs | mesonbuild/backend/xcodebackend.py:673-840 | one configuration per target in order, failing exactly when planning fails |
| Backend.XcodeBackend.GenerateXcBuildConfiguration | mesonbuild/backend/xcodebackend.py:598-841 | project, `ALL_BUILD` and `RUN_TESTS` configurations then the targets'; `KeyError('debug')` or the planning error otherwise |
| Backend.XcodeBackend.NextList | mesonbuild/backend/xcodebackend.py:889-904 | one more configuration list written |
| Backend.XcodeBackend.WriteTargetLists | mesonbuild/backend/xcodebackend.py:889-904 | one list per target, or the `KeyError` of the first target whose lookup fails |
| Backend.XcodeBackend.GenerateXcConfigurationList | mesonbuild/backend/xcodebackend.py:843-905 | the three fixed lists then one per target, or the first `KeyError` |
| Backend.XcodeBackend.WriteAggregatesAndBuildFiles | mesonbuild/backend/xcodebackend.py:63-64 | on success the level is unchanged and the file only grew |
| Backend.XcodeBackend.WriteStylesAndProxies | mesonbuild/backend/xcodebackend.py:65-66 | the same for the styles and proxies |
| Backend.XcodeBackend.WriteFilesAndGroups | mesonbuild/backend/xcodebackend.py:67-68 | the same for the file references and groups |
| Backend.XcodeBackend.WriteTargetsAndProject | mesonbuild/backend/xcodebackend.py:69-70 | the same for the native targets and the project |
| Backend.XcodeBackend.WritePhaseObjects | mesonbuild/backend/xcodebackend.py:71-73 | the same for the phases and target dependencies |
| Backend.XcodeBackend.WriteConfigurationObjects | mesonbuild/backend/xcodebackend.py:74-75 | the same for the two configuration sections |
| Backend.XcodeBackend.WriteProject | mesonbuild/backend/xcodebackend.py:59-76 | on success the file is the prefix, then what the sections wrote, then the suffix naming the project, and the level is back where it started |
| Backend.XcodeBackend.Generate | mesonbuild/backend/xcodebackend.py:41-76 | builds the maps, then writes the project file: on success it is the prefix, the sections, then the suffix naming the project, and the level is back where it started; when the fixed ids precede the run, no table holds one |
| Backend.ConstructAndGenerate | mesonbuild/backend/xcodebackend.py:26-76 | a backend constructed and run successfully has no table holding one of the seven fixed ids |

## Left out

- File and directory I/O (`open`, `os.makedirs` in `generate` and
  `get_target_dir`) is not modelled. The output is the `ofile` list, one element per
  `write` or `write_line` call (a `write_line` writes its text and its newline
  as one element).
- `uuid.uuid4()` is replaced by a counter. Ids are unique by construction, as
  long as fewer than 16^24 ids are drawn.
- Foreign calls are inputs of the model:
  - `serialize_tests` (the test data is a parameter);
  - `is_header` (a set of header paths);
  - `get_base_compile_args`, `get_option_compile_args` and
    `unix_args_to_native`;
  - `get_include_dirs`, `get_filename`, `get_basename` and `get_id` (fields of
    the target);
  - the `coredata` option lookups;
  - `sys.executable` and the script directory.
- `CompilerArgs` is modelled as plain list concatenation. Its de-duplication
  and reordering rules are not part of this model.
- `mlog.warning` is reduced to a returned flag (`FileTypes.TypeForFilename`).
  Source entries of neither shape are kept as a third kind.
- Object entries that are not path strings (`File` objects, extracted
  objects) are one kind that carries only a printable form; what they refer
  to is not modelled.
- Only the build type `'debug'` exists, as in the source. Loops over
  `buildtypes` run once.
- `os.path` is a plain `/`-join. `normpath` is assumed already applied.
- Setting keys are an enumeration rendered by `KeyName`. The fixed boilerplate
  lines are written as their text.
- Backend.XcodeBackend.Generate: states the prefix, the suffix and the
  restored level; what lies between is what the section emitters wrote, each
  stated by its own emitter, and is not repeated, nor are the error cases.
- Backend.XcodeBackend.WriteProject: the same as `Generate`, once the maps
  are built.
- Backend.XcodeBackend.WriteAggregatesAndBuildFiles: states only growth and the
  level; it groups emitters specified one by one.
- Backend.XcodeBackend.WriteStylesAndProxies: states only growth and the
  level; it groups emitters specified one by one.
- Backend.XcodeBackend.WriteFilesAndGroups: states only growth and the level;
  it groups emitters specified one by one.
- Backend.XcodeBackend.WriteTargetsAndProject: states only growth and the
  level; it groups emitters specified one by one.
- Backend.XcodeBackend.WritePhaseObjects: states only growth and the level; it
  groups emitters specified one by one.
- Backend.XcodeBackend.WriteConfigurationObjects: states only growth and the
  level; it groups emitters specified one by one.
- What a failing emitter has already written is not described. The source
  leaves a truncated file in that case.
- Backend.XcodeBackend.GeneratePbxSourcesBuildPhase: the error case says only
  that a `KeyError` is raised, not for which key.
- Backend.XcodeBackend.GeneratePbxNativeTarget: the error case says only that
  it is a `KeyError` or a `MesonException`, not which lookup raised it.
