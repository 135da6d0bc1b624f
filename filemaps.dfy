/** The tables keyed by file: `filemap` and `target_filemap`
    (`generate_filemap`), `buildmap` (`generate_buildmap`), and the table of
    target dependencies (`generate_target_dependency_map`). */
module FileMaps {
  import opened Wrappers
  import opened Dicts
  import opened Paths
  import opened Build
  import opened Registry

  /** Where a source is filed: a file reference under its own sub-directory,
      a plain path under the target's; any other entry is only warned about. */
  function SourceKey(subdir: string, s: SourceEntry): Option<string>
  {
    match s
    case FileSource(sd, f) => Some(JoinPath(sd, f))
    case PathSource(p) => Some(JoinPath(subdir, p))
    case UnknownSource(_) => None
  }

  function OptionList(o: Option<string>): (r: seq<string>)
    ensures |r| <= 1
  {
    if o.Some? then [o.value] else []
  }

  /** Every object entry is a path, so `os.path.join` accepts each one. */
  predicate Joinable(objects: seq<ObjectEntry>)
  {
    forall k :: 0 <= k < |objects| ==> objects[k].ObjectPath?
  }

  /** The object paths, each under the target's sub-directory; an entry that
      is not a path is passed over, as `generate_filemap` does. */
  function ObjectPaths(subdir: string, objects: seq<ObjectEntry>): (r: seq<string>)
    ensures |r| <= |objects|
    ensures Joinable(objects) ==> |r| == |objects|
  {
    if objects == [] then []
    else
      var o := objects[|objects| - 1];
      ObjectPaths(subdir, objects[..|objects| - 1]) + (if o.ObjectPath? then [JoinPath(subdir, o.path)] else [])
  }

  /** When every entry is a path, the `k`-th object path is the `k`-th entry
      under the target's sub-directory. */
  lemma {:induction false} ObjectPathsAt(subdir: string, objects: seq<ObjectEntry>, k: nat)
    requires Joinable(objects) && k < |objects|
    ensures ObjectPaths(subdir, objects)[k] == JoinPath(subdir, objects[k].path)
  {
    var init := objects[..|objects| - 1];
    if k < |init| {
      ObjectPathsAt(subdir, init, k);
      assert init[k] == objects[k];
    }
  }

  /** A path lies among the object paths exactly when some entry is a path
      that joins to it; the entries that are not paths contribute nothing. */
  lemma {:induction false} ObjectPathsMembers(subdir: string, objects: seq<ObjectEntry>, p: string)
    ensures p in ObjectPaths(subdir, objects)
        <==> exists k :: 0 <= k < |objects| && objects[k].ObjectPath? && p == JoinPath(subdir, objects[k].path)
  {
    if objects != [] {
      var init := objects[..|objects| - 1];
      ObjectPathsMembers(subdir, init, p);
      assert forall k :: 0 <= k < |init| ==> init[k] == objects[k];
      if p in ObjectPaths(subdir, objects) && p !in ObjectPaths(subdir, init) {
        assert objects[|objects| - 1].ObjectPath? && p == JoinPath(subdir, objects[|objects| - 1].path);
      }
    }
  }

  /** What one pass of the per-source loop files: the source (if it has a
      path), then every object file again. */
  function StepPaths(subdir: string, s: SourceEntry, objects: seq<ObjectEntry>): seq<string>
  {
    OptionList(SourceKey(subdir, s)) + ObjectPaths(subdir, objects)
  }

  /** Everything the per-source loop of one target files, in order. */
  function TargetPaths(subdir: string, sources: seq<SourceEntry>, objects: seq<ObjectEntry>): seq<string>
  {
    if sources == [] then []
    else TargetPaths(subdir, sources[..|sources| - 1], objects) + StepPaths(subdir, sources[|sources| - 1], objects)
  }

  /** Everything filed for the named targets, in order. */
  function GraphPaths(g: BuildGraph, names: seq<string>): seq<string>
    requires forall i :: 0 <= i < |names| ==> names[i] in g.targets.items
  {
    if names == [] then []
    else
      var t := g.targets.items[names[|names| - 1]];
      GraphPaths(g, names[..|names| - 1]) + TargetPaths(t.subdir, t.sources, t.objects)
  }

  /** The targets that own at least one source, in target order. */
  function WithSources(g: BuildGraph, names: seq<string>): (r: seq<string>)
    requires forall i :: 0 <= i < |names| ==> names[i] in g.targets.items
  {
    if names == [] then []
    else
      var n := names[|names| - 1];
      WithSources(g, names[..|names| - 1]) + if |g.targets.items[n].sources| > 0 then [n] else []
  }

  /** `filemap[path] = gen_id()` for a path: the key set grows by `path`. */
  method FilePut(reg: IdRegistry, fm: Dict<string, Uid>, path: string, ghost other: map<string, Uid>, ghost lo: nat)
    returns (fm': Dict<string, Uid>)
    requires fm.Valid() && IssuedTogether(fm.items, other, lo, reg.nextSerial)
    modifies reg
    ensures fm'.Valid() && IssuedTogether(fm'.items, other, lo, reg.nextSerial)
    ensures fm'.items.Keys == fm.items.Keys + {path}
    ensures fm'.keys == AddUnique(fm.keys, path)
  {
    PutFirst(fm.items, path, other, lo, reg.nextSerial);
    var id := reg.GenId();
    fm' := fm.Put(path, id);
  }

  /** The object loop nested in the per-source loop of `generate_filemap`:
      every entry that is a path is filed, any other entry is passed over. */
  method AddObjects(reg: IdRegistry, fm: Dict<string, Uid>, subdir: string, objects: seq<ObjectEntry>,
                    ghost other: map<string, Uid>, ghost lo: nat)
    returns (fm': Dict<string, Uid>)
    requires fm.Valid() && IssuedTogether(fm.items, other, lo, reg.nextSerial)
    modifies reg
    ensures fm'.Valid() && IssuedTogether(fm'.items, other, lo, reg.nextSerial)
    ensures forall p :: p in fm'.items <==> p in fm.items || p in ObjectPaths(subdir, objects)
    ensures fm'.keys == AppendUnique(fm.keys, ObjectPaths(subdir, objects))
  {
    fm' := fm;
    for k := 0 to |objects|
      invariant fm'.Valid() && IssuedTogether(fm'.items, other, lo, reg.nextSerial)
      invariant forall p :: p in fm'.items <==> p in fm.items || p in ObjectPaths(subdir, objects[..k])
      invariant fm'.keys == AppendUnique(fm.keys, ObjectPaths(subdir, objects[..k]))
    {
      ghost var before := fm';
      if objects[k].ObjectPath? {
        fm' := FilePut(reg, fm', JoinPath(subdir, objects[k].path), other, lo);
      }
      ObjectPathsNext(subdir, objects, k, fm.keys, before.keys, fm'.keys, fm.items.Keys, before.items.Keys, fm'.items.Keys);
    }
    assert objects[..|objects|] == objects;
  }

  /** The invariants of `AddObjects` carry over to the next object entry:
      a path is added to the key set and, unless already there, to the end
      of the key order; any other entry changes nothing. */
  lemma ObjectPathsNext(subdir: string, objects: seq<ObjectEntry>, k: nat, keys0: seq<string>, keys: seq<string>,
                        keys': seq<string>, set0: set<string>, before: set<string>, after: set<string>)
    requires k < |objects|
    requires keys == AppendUnique(keys0, ObjectPaths(subdir, objects[..k]))
    requires forall p :: p in before <==> p in set0 || p in ObjectPaths(subdir, objects[..k])
    requires objects[k].ObjectPath? ==> var path := JoinPath(subdir, objects[k].path);
      keys' == AddUnique(keys, path) && after == before + {path}
    requires objects[k].OtherObject? ==> keys' == keys && after == before
    ensures keys' == AppendUnique(keys0, ObjectPaths(subdir, objects[..k + 1]))
    ensures forall p :: p in after <==> p in set0 || p in ObjectPaths(subdir, objects[..k + 1])
  {
    assert objects[..k + 1][..k] == objects[..k];
    var done := ObjectPaths(subdir, objects[..k]);
    if objects[k].ObjectPath? {
      assert (done + [JoinPath(subdir, objects[k].path)])[..|done|] == done;
    } else {
      assert done + [] == done;
    }
  }

  /** One pass of the per-source loop of `generate_filemap`: file the
      source, file every object file, and give the target a new product id,
      replacing the one of the previous pass. */
  method FilemapStep(reg: IdRegistry, fm: Dict<string, Uid>, tfm: Dict<string, Uid>, name: string,
                     subdir: string, s: SourceEntry, objects: seq<ObjectEntry>, ghost lo: nat)
    returns (fm': Dict<string, Uid>, tfm': Dict<string, Uid>)
    requires fm.Valid() && tfm.Valid() && IssuedTogether(fm.items, tfm.items, lo, reg.nextSerial)
    modifies reg
    ensures fm'.Valid() && tfm'.Valid() && IssuedTogether(fm'.items, tfm'.items, lo, reg.nextSerial)
    ensures forall p :: p in fm'.items <==> p in fm.items || p in StepPaths(subdir, s, objects)
    ensures fm'.keys == AppendUnique(fm.keys, StepPaths(subdir, s, objects))
    ensures tfm'.items.Keys == tfm.items.Keys + {name}
    ensures tfm'.keys == if name in tfm.items then tfm.keys else tfm.keys + [name]
  {
    fm' := fm;
    var key := SourceKey(subdir, s);
    if key.Some? {
      fm' := FilePut(reg, fm', key.value, tfm.items, lo);
    }
    assert fm'.keys == AppendUnique(fm.keys, OptionList(key));
    fm' := AddObjects(reg, fm', subdir, objects, tfm.items, lo);
    AppendUniqueConcat(fm.keys, OptionList(key), ObjectPaths(subdir, objects));
    PutSecond(fm'.items, tfm.items, name, lo, reg.nextSerial);
    var id := reg.GenId();
    tfm' := tfm.Put(name, id);
  }

  /** The per-source loop of `generate_filemap` for one target: the target
      gets a product id only if it owns a source. */
  method FilemapTarget(reg: IdRegistry, fm: Dict<string, Uid>, tfm: Dict<string, Uid>, name: string,
                       subdir: string, sources: seq<SourceEntry>, objects: seq<ObjectEntry>, ghost lo: nat)
    returns (fm': Dict<string, Uid>, tfm': Dict<string, Uid>)
    requires fm.Valid() && tfm.Valid() && IssuedTogether(fm.items, tfm.items, lo, reg.nextSerial)
    modifies reg
    ensures fm'.Valid() && tfm'.Valid() && IssuedTogether(fm'.items, tfm'.items, lo, reg.nextSerial)
    ensures forall p :: p in fm'.items <==> p in fm.items || p in TargetPaths(subdir, sources, objects)
    ensures fm'.keys == AppendUnique(fm.keys, TargetPaths(subdir, sources, objects))
    ensures tfm'.items.Keys == if sources == [] then tfm.items.Keys else tfm.items.Keys + {name}
    ensures tfm'.keys == if sources == [] || name in tfm.items then tfm.keys else tfm.keys + [name]
  {
    fm', tfm' := fm, tfm;
    for j := 0 to |sources|
      invariant fm'.Valid() && tfm'.Valid() && IssuedTogether(fm'.items, tfm'.items, lo, reg.nextSerial)
      invariant forall p :: p in fm'.items <==> p in fm.items || p in TargetPaths(subdir, sources[..j], objects)
      invariant fm'.keys == AppendUnique(fm.keys, TargetPaths(subdir, sources[..j], objects))
      invariant j == 0 ==> tfm' == tfm
      invariant j > 0 ==> tfm'.items.Keys == tfm.items.Keys + {name}
      invariant j > 0 ==> tfm'.keys == if name in tfm.items then tfm.keys else tfm.keys + [name]
    {
      assert sources[..j + 1][..j] == sources[..j];
      fm', tfm' := FilemapStep(reg, fm', tfm', name, subdir, sources[j], objects, lo);
      AppendUniqueConcat(fm.keys, TargetPaths(subdir, sources[..j], objects), StepPaths(subdir, sources[j], objects));
    }
    assert sources[..|sources|] == sources;
  }

  /** `generate_filemap`: every source path and object path of every target
      is a key of `filemap`; a target is a key of `target_filemap` exactly
      when it owns a source; all ids are fresh and no two keys share one. */
  method GenerateFilemap(reg: IdRegistry, g: BuildGraph) returns (fm: Dict<string, Uid>, tfm: Dict<string, Uid>)
    requires g.targets.Valid()
    modifies reg
    ensures fm.Valid() && tfm.Valid()
    ensures IssuedTogether(fm.items, tfm.items, old(reg.nextSerial), reg.nextSerial)
    ensures forall p :: p in fm.items <==> p in GraphPaths(g, g.targets.keys)
    ensures fm.keys == AppendUnique([], GraphPaths(g, g.targets.keys))
    ensures tfm.keys == WithSources(g, g.targets.keys)
    ensures forall n :: n in tfm.items <==> n in g.targets.items && |g.targets.items[n].sources| > 0
  {
    ghost var lo := reg.nextSerial;
    var names := g.targets.keys;
    fm, tfm := EmptyDict(), EmptyDict();
    for i := 0 to |names|
      invariant fm.Valid() && tfm.Valid() && IssuedTogether(fm.items, tfm.items, lo, reg.nextSerial)
      invariant forall p :: p in fm.items <==> p in GraphPaths(g, names[..i])
      invariant fm.keys == AppendUnique([], GraphPaths(g, names[..i]))
      invariant tfm.keys == WithSources(g, names[..i])
    {
      var t := g.targets.items[names[i]];
      ghost var fm0, tfm0 := fm, tfm;
      WithSourcesMembers(g, names[..i], names[i]);
      fm, tfm := FilemapTarget(reg, fm, tfm, names[i], t.subdir, t.sources, t.objects, lo);
      FilemapNext(g, names, i, fm0.items, fm.items, tfm0.keys, tfm.keys);
      FilemapOrderNext(g, names, i, fm0.keys, fm.keys);
    }
    assert names[..|names|] == names;
    forall n
      ensures n in tfm.items <==> n in g.targets.items && |g.targets.items[n].sources| > 0
    {
      WithSourcesMembers(g, names, n);
    }
  }

  /** The loop invariants of `GenerateFilemap` carry over to the next target. */
  lemma FilemapNext(g: BuildGraph, names: seq<string>, i: nat, fm: map<string, Uid>, fm': map<string, Uid>,
                    tkeys: seq<string>, tkeys': seq<string>)
    requires g.targets.Valid() && names == g.targets.keys && i < |names|
    requires forall p :: p in fm <==> p in GraphPaths(g, names[..i])
    requires tkeys == WithSources(g, names[..i])
    requires var t := g.targets.items[names[i]];
      && (forall p :: p in fm' <==> p in fm || p in TargetPaths(t.subdir, t.sources, t.objects))
      && tkeys' == if t.sources == [] then tkeys else tkeys + [names[i]]
    ensures forall p :: p in fm' <==> p in GraphPaths(g, names[..i + 1])
    ensures tkeys' == WithSources(g, names[..i + 1])
  {
    assert names[..i + 1][..i] == names[..i];
  }

  /** The key order of `filemap` carries over to the next target: the new
      paths follow the earlier ones, each at its first occurrence. */
  lemma FilemapOrderNext(g: BuildGraph, names: seq<string>, i: nat, keys: seq<string>, keys': seq<string>)
    requires g.targets.Valid() && names == g.targets.keys && i < |names|
    requires keys == AppendUnique([], GraphPaths(g, names[..i]))
    requires var t := g.targets.items[names[i]];
      keys' == AppendUnique(keys, TargetPaths(t.subdir, t.sources, t.objects))
    ensures keys' == AppendUnique([], GraphPaths(g, names[..i + 1]))
  {
    var t := g.targets.items[names[i]];
    assert names[..i + 1][..i] == names[..i];
    AppendUniqueConcat([], GraphPaths(g, names[..i]), TargetPaths(t.subdir, t.sources, t.objects));
  }

  /** A name is listed by `WithSources` exactly when it is one of the names
      and its target owns a source. */
  lemma {:induction false} WithSourcesMembers(g: BuildGraph, names: seq<string>, n: string)
    requires forall i :: 0 <= i < |names| ==> names[i] in g.targets.items
    ensures n in WithSources(g, names) <==> n in names && |g.targets.items[n].sources| > 0
  {
    if names != [] {
      WithSourcesMembers(g, names[..|names| - 1], n);
      assert names == names[..|names| - 1] + [names[|names| - 1]];
    }
  }

  /** `buildmap` is filled alone: nothing else draws from its window. */
  const NoIds: map<string, Uid> := map[]

  /** What `generate_buildmap` needs of a target: its objects are joined
      onto its directory once per source, so they must all be paths unless
      it has no source. */
  predicate BuildmapJoins(t: Target)
  {
    |t.sources| == 0 || Joinable(t.objects)
  }

  /** Every named target meets `BuildmapJoins`. */
  predicate GraphJoins(g: BuildGraph, names: seq<string>)
    requires forall i :: 0 <= i < |names| ==> names[i] in g.targets.items
  {
    forall i :: 0 <= i < |names| ==> BuildmapJoins(g.targets.items[names[i]])
  }

  /** The object loop nested in the per-source loop of `generate_buildmap`:
      each entry is joined onto the directory before its type is looked at,
      so the first entry that is not a path raises `TypeError`. */
  method AddBuildObjects(reg: IdRegistry, bm: Dict<string, Uid>, subdir: string, objects: seq<ObjectEntry>,
                         ghost lo: nat)
    returns (r: Outcome, bm': Dict<string, Uid>)
    requires bm.Valid() && IssuedTogether(bm.items, NoIds, lo, reg.nextSerial)
    modifies reg
    ensures bm'.Valid() && IssuedTogether(bm'.items, NoIds, lo, reg.nextSerial)
    ensures r.Pass? <==> Joinable(objects)
    ensures r.Fail? ==> && r.error.TypeError?
                        && exists k :: 0 <= k < |objects| && objects[k] == OtherObject(r.error.operand)
                                                          && Joinable(objects[..k])
    ensures r.Pass? ==> forall p :: p in bm'.items <==> p in bm.items || p in ObjectPaths(subdir, objects)
  {
    bm' := bm;
    for k := 0 to |objects|
      invariant bm'.Valid() && IssuedTogether(bm'.items, NoIds, lo, reg.nextSerial)
      invariant Joinable(objects[..k])
      invariant forall p :: p in bm'.items <==> p in bm.items || p in ObjectPaths(subdir, objects[..k])
    {
      assert objects[..k + 1][..k] == objects[..k];
      if objects[k].OtherObject? {
        return Fail(TypeError(objects[k].repr)), bm';
      }
      bm' := FilePut(reg, bm', JoinPath(subdir, objects[k].path), NoIds, lo);
    }
    assert objects[..|objects|] == objects;
    return Pass, bm';
  }

  /** The per-source loop of `generate_buildmap` for one target: it fails
      in its first pass when an object entry is not a path. */
  method BuildmapTarget(reg: IdRegistry, bm: Dict<string, Uid>, subdir: string, sources: seq<SourceEntry>,
                        objects: seq<ObjectEntry>, ghost lo: nat)
    returns (r: Outcome, bm': Dict<string, Uid>)
    requires bm.Valid() && IssuedTogether(bm.items, NoIds, lo, reg.nextSerial)
    modifies reg
    ensures bm'.Valid() && IssuedTogether(bm'.items, NoIds, lo, reg.nextSerial)
    ensures r.Pass? <==> |sources| == 0 || Joinable(objects)
    ensures r.Fail? ==> r.error.TypeError? && OtherObject(r.error.operand) in objects
    ensures r.Pass? ==> forall p :: p in bm'.items <==> p in bm.items || p in TargetPaths(subdir, sources, objects)
  {
    bm' := bm;
    for j := 0 to |sources|
      invariant bm'.Valid() && IssuedTogether(bm'.items, NoIds, lo, reg.nextSerial)
      invariant j > 0 ==> Joinable(objects)
      invariant forall p :: p in bm'.items <==> p in bm.items || p in TargetPaths(subdir, sources[..j], objects)
    {
      assert sources[..j + 1][..j] == sources[..j];
      var before := bm';
      var key := SourceKey(subdir, sources[j]);
      if key.Some? {
        bm' := FilePut(reg, bm', key.value, NoIds, lo);
      }
      r, bm' := AddBuildObjects(reg, bm', subdir, objects, lo);
      if r.Fail? {
        return;
      }
      assert forall p :: p in bm'.items <==> p in before.items || p in StepPaths(subdir, sources[j], objects);
    }
    assert sources[..|sources|] == sources;
    return Pass, bm';
  }

  /** `generate_buildmap`: the same paths as `filemap`, each with its own
      fresh id, unless a target with a source has an object entry that is not
      a path, which raises `TypeError`. */
  method GenerateBuildmap(reg: IdRegistry, g: BuildGraph) returns (r: Outcome, bm: Dict<string, Uid>)
    requires g.targets.Valid()
    modifies reg
    ensures bm.Valid() && IssuedTogether(bm.items, NoIds, old(reg.nextSerial), reg.nextSerial)
    ensures r.Pass? <==> GraphJoins(g, g.targets.keys)
    ensures r.Fail? ==> && r.error.TypeError?
                        && exists n :: n in g.targets.items && OtherObject(r.error.operand) in g.targets.items[n].objects
    ensures r.Pass? ==> forall p :: p in bm.items <==> p in GraphPaths(g, g.targets.keys)
  {
    ghost var lo := reg.nextSerial;
    var names := g.targets.keys;
    bm := EmptyDict();
    for i := 0 to |names|
      invariant bm.Valid() && IssuedTogether(bm.items, NoIds, lo, reg.nextSerial)
      invariant GraphJoins(g, names[..i])
      invariant forall p :: p in bm.items <==> p in GraphPaths(g, names[..i])
    {
      var t := g.targets.items[names[i]];
      ghost var bm0 := bm;
      r, bm := BuildmapTarget(reg, bm, t.subdir, t.sources, t.objects, lo);
      if r.Fail? {
        assert !GraphJoins(g, names) by {
          assert !BuildmapJoins(g.targets.items[names[i]]);
        }
        assert names[i] in g.targets.items && OtherObject(r.error.operand) in g.targets.items[names[i]].objects;
        return;
      }
      BuildmapNext(g, names, i, bm0.items, bm.items);
    }
    assert names[..|names|] == names;
    return Pass, bm;
  }

  /** The loop invariants of `GenerateBuildmap` carry over to a target whose
      objects could be joined. */
  lemma BuildmapNext(g: BuildGraph, names: seq<string>, i: nat, bm: map<string, Uid>, bm': map<string, Uid>)
    requires g.targets.Valid() && names == g.targets.keys && i < |names|
    requires GraphJoins(g, names[..i]) && BuildmapJoins(g.targets.items[names[i]])
    requires forall p :: p in bm <==> p in GraphPaths(g, names[..i])
    requires var t := g.targets.items[names[i]];
      forall p :: p in bm' <==> p in bm || p in TargetPaths(t.subdir, t.sources, t.objects)
    ensures GraphJoins(g, names[..i + 1])
    ensures forall p :: p in bm' <==> p in GraphPaths(g, names[..i + 1])
  {
    assert names[..i + 1][..i] == names[..i];
  }

  /** What a target depends on: a custom target's dependencies, any other target's link targets. */
  function DependencyRefs(t: Target): seq<LinkRef>
  {
    if t.kind == CustomTarget then t.dependencies else t.linkTargets
  }

  /** The keys `(target name, dependency basename)` one target contributes, in order. */
  function DependencyKeys(name: string, refs: seq<LinkRef>): (r: seq<(string, string)>)
    ensures |r| == |refs|
  {
    if refs == [] then []
    else DependencyKeys(name, refs[..|refs| - 1]) + [(name, refs[|refs| - 1].basename)]
  }

  /** The keys contributed by the named targets, in order. */
  function GraphDependencyKeys(g: BuildGraph, names: seq<string>): seq<(string, string)>
    requires forall i :: 0 <= i < |names| ==> names[i] in g.targets.items
  {
    if names == [] then []
    else
      GraphDependencyKeys(g, names[..|names| - 1]) +
        DependencyKeys(names[|names| - 1], DependencyRefs(g.targets.items[names[|names| - 1]]))
  }

  /** The dependency loop of one target. */
  method DependencyTarget(reg: IdRegistry, m: Dict<(string, string), Uid>, name: string, refs: seq<LinkRef>, ghost lo: nat)
    returns (m': Dict<(string, string), Uid>)
    requires m.Valid() && IssuedTogether(m.items, NoIds, lo, reg.nextSerial)
    modifies reg
    ensures m'.Valid() && IssuedTogether(m'.items, NoIds, lo, reg.nextSerial)
    ensures forall k :: k in m'.items <==> k in m.items || k in DependencyKeys(name, refs)
  {
    m' := m;
    for j := 0 to |refs|
      invariant m'.Valid() && IssuedTogether(m'.items, NoIds, lo, reg.nextSerial)
      invariant forall k :: k in m'.items <==> k in m.items || k in DependencyKeys(name, refs[..j])
    {
      assert refs[..j + 1][..j] == refs[..j];
      PutFirst(m'.items, (name, refs[j].basename), NoIds, lo, reg.nextSerial);
      var id := reg.GenId();
      m' := m'.Put((name, refs[j].basename), id);
    }
    assert refs[..|refs|] == refs;
  }

  /** `generate_target_dependency_map`: one key per (target, dependency
      basename) pair, each with its own fresh id. */
  method GenerateTargetDependencyMap(reg: IdRegistry, g: BuildGraph) returns (m: Dict<(string, string), Uid>)
    requires g.targets.Valid()
    modifies reg
    ensures m.Valid() && IssuedTogether(m.items, NoIds, old(reg.nextSerial), reg.nextSerial)
    ensures forall k :: k in m.items <==> k in GraphDependencyKeys(g, g.targets.keys)
  {
    ghost var lo := reg.nextSerial;
    var names := g.targets.keys;
    m := EmptyDict();
    for i := 0 to |names|
      invariant m.Valid() && IssuedTogether(m.items, NoIds, lo, reg.nextSerial)
      invariant forall k :: k in m.items <==> k in GraphDependencyKeys(g, names[..i])
    {
      assert names[..i + 1][..i] == names[..i];
      var t := g.targets.items[names[i]];
      m := DependencyTarget(reg, m, names[i], DependencyRefs(t), lo);
    }
    assert names[..|names|] == names;
  }
}
