/** The id registry behind `gen_id`, and the shape of the tables the map
    builders fill with its ids. An issued id is kept as the serial number it
    was drawn from; `Text()` is the 24-digit form the project file shows. */
module Registry {
  import opened Ids
  import opened Dicts

  datatype Uid = Uid(serial: nat)
  {
    /** How the id is written into the project file. */
    function Text(): (s: ObjectId)
      ensures IsObjectId(s)
    {
      IdOf(serial)
    }
  }

  /** Two different ids are written differently, as long as both were drawn
      before the 16^24 possible ids were used up. */
  lemma TextInjective(a: Uid, b: Uid)
    requires a.serial < IdSpace && b.serial < IdSpace && a != b
    ensures a.Text() != b.Text()
  {
    IdOfInjective(a.serial, b.serial);
  }

  /** Hands out ids in issue order; no id is ever handed out twice. */
  class IdRegistry {
    var nextSerial: nat

    constructor ()
      ensures nextSerial == 0
    {
      nextSerial := 0;
    }

    /** `gen_id`: the next id; every id issued before has a smaller serial. */
    method GenId() returns (id: Uid)
      modifies this
      ensures id == Uid(old(nextSerial))
      ensures nextSerial == old(nextSerial) + 1
    {
      id := Uid(nextSerial);
      nextSerial := nextSerial + 1;
    }
  }

  /** Every id in `m` was issued while the registry counted from `lo` to `hi`. */
  ghost predicate Within<K>(m: map<K, Uid>, lo: nat, hi: nat)
  {
    forall k :: k in m ==> lo <= m[k].serial < hi
  }

  /** No id stands for two keys. */
  ghost predicate Injective<K>(m: map<K, Uid>)
  {
    forall a, b :: a in m && b in m && a != b ==> m[a] != m[b]
  }

  /** No id is shared between the two tables. */
  ghost predicate Apart<K, L>(m: map<K, Uid>, n: map<L, Uid>)
  {
    forall a, b :: a in m && b in n ==> m[a] != n[b]
  }

  /** Storing a freshly issued id keeps a table injective and inside the
      window that now reaches one serial further, and keeps it apart from any
      table issued from the same window. */
  lemma PutFresh<K, L>(m: map<K, Uid>, k: K, n: map<L, Uid>, lo: nat, hi: nat)
    requires lo <= hi
    requires Within(m, lo, hi) && Injective(m) && Within(n, lo, hi) && Apart(m, n)
    ensures Within(m[k := Uid(hi)], lo, hi + 1) && Injective(m[k := Uid(hi)])
    ensures Within(n, lo, hi + 1) && Apart(m[k := Uid(hi)], n)
  {
    var m' := m[k := Uid(hi)];
    forall a | a in m'
      ensures lo <= m'[a].serial < hi + 1
    {
      if a != k {
        assert m'[a] == m[a];
      }
    }
    forall a, b | a in m' && b in m' && a != b
      ensures m'[a] != m'[b]
    {
      if a == k {
        assert m'[b] == m[b];
      } else if b == k {
        assert m'[a] == m[a];
      }
    }
  }

  /** Tables drawn from windows that do not overlap share no id. */
  lemma {:induction false} DisjointWindows<K, L>(m: map<K, Uid>, lo: nat, mid: nat, n: map<L, Uid>, hi: nat)
    requires Within(m, lo, mid) && Within(n, mid, hi)
    ensures Apart(m, n)
  {
    forall a, b | a in m && b in n
      ensures m[a] != n[b]
    {
      assert m[a].serial < mid <= n[b].serial;
    }
  }

  /** Every id of the set was issued while the registry counted from `lo` to `hi`. */
  ghost predicate InWindow(ids: set<Uid>, lo: nat, hi: nat)
  {
    forall u :: u in ids ==> lo <= u.serial < hi
  }

  /** Window bounds in issue order: window `k` runs from `bounds[k]` to `bounds[k + 1]`. */
  ghost predicate Ascending(bounds: seq<nat>)
  {
    forall k :: 0 < k < |bounds| ==> bounds[k - 1] <= bounds[k]
  }

  lemma {:induction false} AscendingFar(bounds: seq<nat>, i: nat, j: nat)
    requires Ascending(bounds) && i <= j < |bounds|
    ensures bounds[i] <= bounds[j]
  {
    if i < j {
      AscendingFar(bounds, i, j - 1);
    }
  }

  /** Sets of ids drawn from windows that follow one another: set `k`
      keeps to the window from `bounds[k]` to `bounds[k + 1]`. */
  ghost predicate Windowed(tables: seq<set<Uid>>, bounds: seq<nat>)
  {
    && |bounds| == |tables| + 1 && Ascending(bounds)
    && forall k :: 0 <= k < |tables| ==> InWindow(tables[k], bounds[k], bounds[k + 1])
  }

  /** Fourteen sets of ids, each in the window after the one before. */
  lemma WindowedFourteen(t0: set<Uid>, t1: set<Uid>, t2: set<Uid>, t3: set<Uid>, t4: set<Uid>, t5: set<Uid>,
                         t6: set<Uid>, t7: set<Uid>, t8: set<Uid>, t9: set<Uid>, t10: set<Uid>, t11: set<Uid>,
                         t12: set<Uid>, t13: set<Uid>, bs: seq<nat>)
    requires |bs| == 15
    requires bs[0] <= bs[1] && InWindow(t0, bs[0], bs[1])
    requires bs[1] <= bs[2] && InWindow(t1, bs[1], bs[2])
    requires bs[2] <= bs[3] && InWindow(t2, bs[2], bs[3])
    requires bs[3] <= bs[4] && InWindow(t3, bs[3], bs[4])
    requires bs[4] <= bs[5] && InWindow(t4, bs[4], bs[5])
    requires bs[5] <= bs[6] && InWindow(t5, bs[5], bs[6])
    requires bs[6] <= bs[7] && InWindow(t6, bs[6], bs[7])
    requires bs[7] <= bs[8] && InWindow(t7, bs[7], bs[8])
    requires bs[8] <= bs[9] && InWindow(t8, bs[8], bs[9])
    requires bs[9] <= bs[10] && InWindow(t9, bs[9], bs[10])
    requires bs[10] <= bs[11] && InWindow(t10, bs[10], bs[11])
    requires bs[11] <= bs[12] && InWindow(t11, bs[11], bs[12])
    requires bs[12] <= bs[13] && InWindow(t12, bs[12], bs[13])
    requires bs[13] <= bs[14] && InWindow(t13, bs[13], bs[14])
    ensures Windowed([t0, t1, t2, t3, t4, t5, t6, t7, t8, t9, t10, t11, t12, t13], bs)
  {
  }

  /** Sets of ids drawn from windows that follow one another: two different
      sets share no id, and as long as the last window ends within the 16^24
      possible ids, no id of one is written like an id of the other. */
  lemma WindowsApart(tables: seq<set<Uid>>, bounds: seq<nat>, i: nat, j: nat)
    requires Windowed(tables, bounds)
    requires i < j < |tables| && bounds[|tables|] <= IdSpace
    ensures tables[i] !! tables[j]
    ensures forall u, v :: u in tables[i] && v in tables[j] ==> u.Text() != v.Text()
  {
    AscendingFar(bounds, i + 1, j);
    AscendingFar(bounds, j + 1, |tables|);
    assert InWindow(tables[i], bounds[i], bounds[i + 1]) && InWindow(tables[j], bounds[j], bounds[j + 1]);
    forall u, v | u in tables[i] && v in tables[j]
      ensures u.Text() != v.Text()
    {
      TextInjective(u, v);
    }
  }

  /** A table that gives the `i`-th key the `i`-th serial of a window is
      injective and lies in that window. */
  lemma {:induction false} ConsecutiveIds<V>(d: Dict<string, V>, ids: map<string, Uid>, lo: nat)
    requires d.Valid() && ids.Keys == d.items.Keys
    requires forall i :: 0 <= i < |d.keys| ==> ids[d.keys[i]] == Uid(lo + i)
    ensures Within(ids, lo, lo + |d.keys|) && Injective(ids)
  {
    forall k | k in ids
      ensures lo <= ids[k].serial < lo + |d.keys|
    {
      var i :| 0 <= i < |d.keys| && d.keys[i] == k;
      assert ids[d.keys[i]] == Uid(lo + i);
    }
    forall a, b | a in ids && b in ids && a != b
      ensures ids[a] != ids[b]
    {
      var i :| 0 <= i < |d.keys| && d.keys[i] == a;
      var j :| 0 <= j < |d.keys| && d.keys[j] == b;
      assert ids[d.keys[i]] == Uid(lo + i) && ids[d.keys[j]] == Uid(lo + j);
    }
  }

  /** The table a per-name loop builds: the names in order, the `i`-th name
      stored with the `i`-th value. */
  function Tabulate<V>(names: seq<string>, vals: seq<V>): Dict<string, V>
    requires |names| == |vals| && Distinct(names)
  {
    Dict(names, map i | 0 <= i < |names| :: names[i] := vals[i])
  }

  /** The table is a proper dictionary holding the `i`-th value under the `i`-th name. */
  lemma TabulateShape<V>(names: seq<string>, vals: seq<V>)
    requires |names| == |vals| && Distinct(names)
    ensures Tabulate(names, vals).Valid() && Tabulate(names, vals).keys == names
    ensures forall i :: 0 <= i < |names| ==> Tabulate(names, vals).items[names[i]] == vals[i]
  {
    var m := Tabulate(names, vals).items;
    forall k
      ensures k in m <==> k in names
    {
      if k in names {
        var i :| 0 <= i < |names| && names[i] == k;
        assert k in m;
      }
    }
  }

  /** Storing one more name after the table of the others. */
  lemma TabulateSnoc<V>(ns: seq<string>, vs: seq<V>, x: string, v: V)
    requires |ns| == |vs| && Distinct(ns + [x])
    ensures Distinct(ns)
    ensures Tabulate(ns, vs).Valid() && Tabulate(ns, vs).Put(x, v) == Tabulate(ns + [x], vs + [v])
  {
    var xs := ns + [x];
    assert Distinct(ns) by {
      forall a, b | 0 <= a < b < |ns|
        ensures ns[a] != ns[b]
      {
        assert xs[a] == ns[a] && xs[b] == ns[b];
      }
    }
    TabulateShape(ns, vs);
    var m := Tabulate(ns, vs);
    assert x !in m.items by {
      forall a | 0 <= a < |ns|
        ensures ns[a] != x
      {
        assert xs[a] == ns[a] && xs[|ns|] == x;
      }
    }
    var t := Tabulate(xs, vs + [v]);
    forall k | k in t.items
      ensures k in m.items[x := v] && t.items[k] == m.items[x := v][k]
    {
      var a :| 0 <= a < |xs| && xs[a] == k;
      if a < |ns| {
        assert ns[a] == k;
      }
    }
    forall k | k in m.items[x := v]
      ensures k in t.items
    {
      if k == x {
        assert xs[|ns|] == x;
      } else {
        var a :| 0 <= a < |ns| && ns[a] == k;
        assert xs[a] == k;
      }
    }
    assert t.items == m.items[x := v];
  }

  /** Every prefix of a list of distinct names is one. */
  lemma DistinctPrefix<K>(s: seq<K>, j: nat)
    requires Distinct(s) && j <= |s|
    ensures Distinct(s[..j])
  {
    forall a, b | 0 <= a < b < j
      ensures s[..j][a] != s[..j][b]
    {
      assert s[..j][a] == s[a] && s[..j][b] == s[b];
    }
  }

  /** One more step of the loop: the next name stored after the first `i`. */
  lemma TabulateNext<V>(names: seq<string>, vals: seq<V>, i: nat, m: Dict<string, V>, v: V)
    requires |names| == |vals| && i < |names| && v == vals[i] && Distinct(names[..i + 1])
    requires Distinct(names[..i]) && m == Tabulate(names[..i], vals[..i])
    ensures m.Valid() && m.Put(names[i], v) == Tabulate(names[..i + 1], vals[..i + 1])
  {
    assert names[..i + 1] == names[..i] + [names[i]];
    assert vals[..i + 1] == vals[..i] + [v];
    TabulateSnoc(names[..i], vals[..i], names[i], v);
  }

  /** The `n` serials from `lo` on. */
  function Serials(lo: nat, n: nat): (ids: seq<Uid>)
    ensures |ids| == n && forall i :: 0 <= i < n ==> ids[i] == Uid(lo + i)
  {
    seq(n, i requires 0 <= i => Uid(lo + i))
  }

  /** A `{'debug': id}` table for each of the `n` serials from `lo` on. */
  function DebugSerials(lo: nat, n: nat): (ds: seq<Dict<string, Uid>>)
    ensures |ds| == n && forall i :: 0 <= i < n ==> ds[i] == DebugOnly(Uid(lo + i))
  {
    seq(n, i requires 0 <= i => DebugOnly(Uid(lo + i)))
  }

  /** One id per name, in name order: the loop shared by the builders of
      `buildphasemap`, `buildconflistmap`, `native_targets`, `source_phase`,
      `pbx_dep_map` and `containerproxy_map`. */
  method PerNameIds(reg: IdRegistry, names: seq<string>) returns (m: Dict<string, Uid>)
    requires Distinct(names)
    modifies reg
    ensures m == Tabulate(names, Serials(old(reg.nextSerial), |names|))
    ensures reg.nextSerial == old(reg.nextSerial) + |names|
  {
    ghost var vals := Serials(reg.nextSerial, |names|);
    m := EmptyDict();
    for i := 0 to |names|
      invariant Distinct(names[..i]) && m == Tabulate(names[..i], vals[..i])
      invariant reg.nextSerial == old(reg.nextSerial) + i
    {
      var id := reg.GenId();
      DistinctPrefix(names, i + 1);
      TabulateNext(names, vals, i, m, id);
      m := m.Put(names[i], id);
    }
    assert names[..|names|] == names && vals[..|names|] == vals;
  }

  /** The one build type the backend knows. */
  const Debug: string := "debug"

  /** `{'debug': id}` */
  function DebugOnly(id: Uid): Dict<string, Uid>
  {
    Dict([Debug], map[Debug := id])
  }

  /** Such a table is a proper dictionary holding just the id. */
  lemma DebugOnlyShape(id: Uid)
    ensures DebugOnly(id).Valid() && DebugOnly(id).keys == [Debug]
    ensures Debug in DebugOnly(id).items && DebugOnly(id).items[Debug] == id
  {
  }

  /** The ids a table of `{'debug': id}` tables holds. */
  ghost function ConfIds(conf: Dict<string, Dict<string, Uid>>): set<Uid>
  {
    set n | n in conf.items && Debug in conf.items[n].items :: conf.items[n].items[Debug]
  }

  /** A per-name table of `{'debug': id}` tables on consecutive serials
      keeps to its window and gives different names different ids. */
  lemma ConfWindow(names: seq<string>, lo: nat)
    requires Distinct(names)
    ensures var conf := Tabulate(names, DebugSerials(lo, |names|));
      && InWindow(ConfIds(conf), lo, lo + |names|)
      && forall a, b :: a in conf.items && b in conf.items && a != b ==>
           conf.items[a].items[Debug] != conf.items[b].items[Debug]
  {
    var conf := Tabulate(names, DebugSerials(lo, |names|));
    TabulateShape(names, DebugSerials(lo, |names|));
    forall n | n in conf.items
      ensures Debug in conf.items[n].items && lo <= conf.items[n].items[Debug].serial < lo + |names|
    {
      var i :| 0 <= i < |names| && names[i] == n;
      DebugOnlyShape(Uid(lo + i));
    }
    forall a, b | a in conf.items && b in conf.items && a != b
      ensures conf.items[a].items[Debug] != conf.items[b].items[Debug]
    {
      var i :| 0 <= i < |names| && names[i] == a;
      var j :| 0 <= j < |names| && names[j] == b;
      DebugOnlyShape(Uid(lo + i));
      DebugOnlyShape(Uid(lo + j));
    }
  }

  /** The tables keyed by build type: a single fresh id under `'debug'`. */
  method DebugIds(reg: IdRegistry) returns (m: Dict<string, Uid>)
    modifies reg
    ensures m == DebugOnly(Uid(old(reg.nextSerial)))
    ensures reg.nextSerial == old(reg.nextSerial) + 1
  {
    var id := reg.GenId();
    m := DebugOnly(id);
  }

  /** `buildconfmap`: for every name, in name order, a table holding one fresh id under `'debug'`. */
  method PerNameDebugIds(reg: IdRegistry, names: seq<string>) returns (m: Dict<string, Dict<string, Uid>>)
    requires Distinct(names)
    modifies reg
    ensures m == Tabulate(names, DebugSerials(old(reg.nextSerial), |names|))
    ensures reg.nextSerial == old(reg.nextSerial) + |names|
  {
    ghost var vals := DebugSerials(reg.nextSerial, |names|);
    m := EmptyDict();
    for i := 0 to |names|
      invariant Distinct(names[..i]) && m == Tabulate(names[..i], vals[..i])
      invariant reg.nextSerial == old(reg.nextSerial) + i
    {
      var bconfs := DebugIds(reg);
      DistinctPrefix(names, i + 1);
      TabulateNext(names, vals, i, m, bconfs);
      m := m.Put(names[i], bconfs);
    }
    assert names[..|names|] == names && vals[..|names|] == vals;
  }

  /** Two tables filled from the same window of serials, sharing no id. */
  ghost predicate IssuedTogether<K, L>(m: map<K, Uid>, n: map<L, Uid>, lo: nat, hi: nat)
  {
    lo <= hi && Within(m, lo, hi) && Within(n, lo, hi) && Injective(m) && Injective(n) && Apart(m, n)
  }

  /** Storing a fresh id in the first table keeps the pair issued together. */
  lemma PutFirst<K, L>(m: map<K, Uid>, k: K, n: map<L, Uid>, lo: nat, hi: nat)
    requires IssuedTogether(m, n, lo, hi)
    ensures IssuedTogether(m[k := Uid(hi)], n, lo, hi + 1)
  {
    PutFresh(m, k, n, lo, hi);
  }

  /** Storing a fresh id in the second table keeps the pair issued together. */
  lemma PutSecond<K, L>(m: map<K, Uid>, n: map<L, Uid>, k: L, lo: nat, hi: nat)
    requires IssuedTogether(m, n, lo, hi)
    ensures IssuedTogether(m, n[k := Uid(hi)], lo, hi + 1)
  {
    PutFresh(n, k, m, lo, hi);
  }
}
