/** The pure meaning of DeepMergeMap and the laws the handlers lean on. */
module DeepMerge {
  import opened Json

  /** d with s laid over it: maps under a common key are merged, anything else in s wins. */
  function Merge(d: Vars, s: Vars): (r: Vars)
    ensures r.Keys == d.Keys + s.Keys
    decreases Obj(s)
  {
    map k | k in d.Keys + s.Keys ::
      if k !in s then d[k]
      else if k in d && d[k].Obj? && s[k].Obj? then Obj(Merge(d[k].m, s[k].m))
      else s[k]
  }

  /** Lay a list of maps over d, first to last. */
  function Fold(d: Vars, layers: seq<Vars>): Vars
    decreases |layers|
  {
    if layers == [] then d else Fold(Merge(d, layers[0]), layers[1..])
  }

  lemma {:induction false} MergeIntoEmpty(s: Vars)
    ensures Merge(map[], s) == s
  {
  }

  // ---------------------------------------------------------------- idempotence

  /** Laying the same map down a second time changes nothing. */
  lemma {:induction false} MergeIdempotent(d: Vars, s: Vars)
    ensures Merge(Merge(d, s), s) == Merge(d, s)
    decreases Obj(s)
  {
    forall k | k in s && s[k].Obj?
      ensures Merge(Merge(d, s), s)[k] == Merge(d, s)[k]
    {
      if k in d && d[k].Obj? {
        MergeIdempotent(d[k].m, s[k].m);
      } else {
        MergeIdempotent(map[], s[k].m);
        MergeIntoEmpty(s[k].m);
      }
    }
  }

  /** A map merged into itself is unchanged. */
  lemma MergeSelf(s: Vars)
    ensures Merge(s, s) == s
  {
    MergeIdempotent(map[], s);
    MergeIntoEmpty(s);
  }

  /** What was merged into already is absorbed. */
  lemma {:induction false} MergeAbsorbs(d: Vars, s: Vars)
    ensures Merge(d, Merge(d, s)) == Merge(d, s)
    decreases Obj(d)
  {
    forall k | k in d && d[k].Obj?
      ensures Merge(d, Merge(d, s))[k] == Merge(d, s)[k]
    {
      if k !in s {
        MergeSelf(d[k].m);
      } else if s[k].Obj? {
        MergeAbsorbs(d[k].m, s[k].m);
      }
    }
  }

  // ------------------------------------------------- replaying a list of layers

  /** What one key holds after a layer that assigns v to it. */
  function Combine(held: Option<Json>, v: Json): Option<Json>
  {
    if held.Some? && held.value.Obj? && v.Obj? then Some(Obj(Merge(held.value.m, v.m))) else Some(v)
  }

  function FoldValues(held: Option<Json>, values: seq<Json>): Option<Json>
    decreases |values|
  {
    if values == [] then held else FoldValues(Combine(held, values[0]), values[1..])
  }

  /** The values that the layers assign to one key, in order. */
  function Column(layers: seq<Vars>, k: string): seq<Json>
  {
    if layers == [] then []
    else (if k in layers[0] then [layers[0][k]] else []) + Column(layers[1..], k)
  }

  function Lookup(m: Vars, k: string): Option<Json>
  {
    if k in m then Some(m[k]) else None
  }

  /** A fold can be read one key at a time. */
  lemma {:induction false} FoldByKey(d: Vars, layers: seq<Vars>, k: string)
    ensures Lookup(Fold(d, layers), k) == FoldValues(Lookup(d, k), Column(layers, k))
    decreases |layers|
  {
    if layers != [] {
      var next := Merge(d, layers[0]);
      FoldByKey(next, layers[1..], k);
      if k in layers[0] {
        assert Column(layers, k)[1..] == Column(layers[1..], k);
        assert Lookup(next, k) == Combine(Lookup(d, k), layers[0][k]);
      } else {
        assert Column(layers, k) == Column(layers[1..], k);
      }
    }
  }

  /** All the values are maps. */
  predicate AllMaps(values: seq<Json>)
  {
    forall i :: 0 <= i < |values| ==> values[i].Obj?
  }

  function Maps(values: seq<Json>): (r: seq<Vars>)
    requires AllMaps(values)
    ensures |r| == |values|
    ensures forall i :: 0 <= i < |r| ==> r[i] == values[i].m
  {
    if values == [] then [] else [values[0].m] + Maps(values[1..])
  }

  /** Once a column holds something other than a map, what was there before is forgotten. */
  lemma {:induction false} ScalarForgets(held: Option<Json>, other: Option<Json>, values: seq<Json>)
    requires !AllMaps(values)
    ensures FoldValues(held, values) == FoldValues(other, values)
    decreases |values|
  {
    if AllMaps(values[1..]) {
      assert !values[0].Obj?;
      assert Combine(held, values[0]) == Combine(other, values[0]);
    } else {
      ScalarForgets(Combine(held, values[0]), Combine(other, values[0]), values[1..]);
    }
  }

  /** A column of maps is a fold one level down. */
  lemma {:induction false} MapColumn(held: Option<Json>, values: seq<Json>)
    requires values != [] && AllMaps(values)
    ensures var start := if held.Some? && held.value.Obj? then held.value.m else map[];
            FoldValues(held, values) == Some(Obj(Fold(start, Maps(values))))
    decreases |values|
  {
    var start := if held.Some? && held.value.Obj? then held.value.m else map[];
    MergeIntoEmpty(values[0].m);
    assert Combine(held, values[0]) == Some(Obj(Merge(start, values[0].m)));
    assert Maps(values)[1..] == Maps(values[1..]);
    if |values| > 1 {
      MapColumn(Combine(held, values[0]), values[1..]);
    }
  }

  /** How deeply the maps in j are nested (maps inside lists do not count: merging stops there). */
  ghost predicate DepthAtMost(j: Json, n: nat)
  {
    j.Obj? ==> n > 0 && forall k :: k in j.m ==> DepthAtMost(j.m[k], n - 1)
  }

  lemma {:induction false} DepthMonotone(j: Json, n: nat, more: nat)
    requires DepthAtMost(j, n) && n <= more
    ensures DepthAtMost(j, more)
    decreases n
  {
    if j.Obj? {
      forall k | k in j.m ensures DepthAtMost(j.m[k], more - 1) {
        DepthMonotone(j.m[k], n - 1, more - 1);
      }
    }
  }

  lemma {:induction false} DepthExists(j: Json) returns (n: nat)
    ensures DepthAtMost(j, n)
    decreases j
  {
    n := 0;
    if j.Obj? {
      var todo := j.m.Keys;
      while todo != {}
        invariant todo <= j.m.Keys
        invariant forall k :: k in j.m.Keys - todo ==> DepthAtMost(j.m[k], n)
        decreases |todo|
      {
        var k :| k in todo;
        var nk := DepthExists(j.m[k]);
        var bound := if n < nk then nk else n;
        forall i | i in j.m.Keys - todo + {k} ensures DepthAtMost(j.m[i], bound) {
          if i == k { DepthMonotone(j.m[k], nk, bound); } else { DepthMonotone(j.m[i], n, bound); }
        }
        n, todo := bound, todo - {k};
      }
      n := n + 1;
    }
  }

  /** The values under one key are one level shallower than the layers they come from. */
  lemma {:induction false} ColumnDepth(layers: seq<Vars>, k: string, n: nat)
    requires n > 0
    requires forall i :: 0 <= i < |layers| ==> DepthAtMost(Obj(layers[i]), n)
    ensures forall i :: 0 <= i < |Column(layers, k)| ==> DepthAtMost(Column(layers, k)[i], n - 1)
    decreases |layers|
  {
    if layers != [] {
      ColumnDepth(layers[1..], k, n);
      assert DepthAtMost(Obj(layers[0]), n);
    }
  }

  /** Replaying layers nested at most n deep. */
  lemma {:induction false} ReplayToDepth(d: Vars, layers: seq<Vars>, n: nat)
    requires forall i :: 0 <= i < |layers| ==> DepthAtMost(Obj(layers[i]), n)
    ensures Fold(Fold(d, layers), layers) == Fold(d, layers)
    decreases n
  {
    var once := Fold(d, layers);
    var twice := Fold(once, layers);
    forall k
      ensures Lookup(twice, k) == Lookup(once, k)
    {
      var column := Column(layers, k);
      FoldByKey(d, layers, k);
      FoldByKey(once, layers, k);
      if column == [] {
      } else if !AllMaps(column) {
        ScalarForgets(Lookup(d, k), Lookup(once, k), column);
      } else {
        MapColumn(Lookup(d, k), column);
        MapColumn(Lookup(once, k), column);
        ColumnDepth(layers, k, n);
        var start := if Lookup(d, k).Some? && Lookup(d, k).value.Obj? then Lookup(d, k).value.m else map[];
        ReplayToDepth(start, Maps(column), n - 1);
      }
    }
    assert forall k :: (k in twice <==> Lookup(twice, k).Some?) && (k in once <==> Lookup(once, k).Some?);
    assert forall k :: k in twice ==> Lookup(twice, k) == Some(twice[k]) && Lookup(once, k) == Some(once[k]);
  }

  lemma {:induction false} DepthOfLayers(layers: seq<Vars>) returns (n: nat)
    ensures forall i :: 0 <= i < |layers| ==> DepthAtMost(Obj(layers[i]), n)
    decreases |layers|
  {
    n := 0;
    if layers != [] {
      var head := DepthExists(Obj(layers[0]));
      var tail := DepthOfLayers(layers[1..]);
      n := if head < tail then tail else head;
      forall i | 0 <= i < |layers| ensures DepthAtMost(Obj(layers[i]), n) {
        if i == 0 { DepthMonotone(Obj(layers[0]), head, n); }
        else { DepthMonotone(Obj(layers[1..][i - 1]), tail, n); }
      }
    }
  }

  /** Laying a whole list of maps down a second time changes nothing, although a
      later layer may replace a map by a scalar and an earlier one puts a map back. */
  lemma ReplayIsHarmless(d: Vars, layers: seq<Vars>)
    ensures Fold(Fold(d, layers), layers) == Fold(d, layers)
  {
    var n := DepthOfLayers(layers);
    ReplayToDepth(d, layers, n);
  }

  // ------------------------------------------------------- what a layer adds

  /** Every key of n is in held with the same value, at every level. */
  predicate Says(held: Vars, n: Vars)
    decreases Obj(n)
  {
    forall k :: k in n ==> k in held && if held[k].Obj? && n[k].Obj? then Says(held[k].m, n[k].m) else held[k] == n[k]
  }

  /** A layer adds nothing exactly when all that it says is said already. */
  lemma {:induction false} SaysIff(held: Vars, n: Vars)
    ensures Merge(held, n) == held <==> Says(held, n)
    decreases Obj(n)
  {
    forall k | k in n && k in held && held[k].Obj? && n[k].Obj?
      ensures Merge(held, n)[k] == held[k] <==> Says(held[k].m, n[k].m)
    {
      SaysIff(held[k].m, n[k].m);
    }
    if Merge(held, n) == held {
      forall k | k in n ensures k in held && if held[k].Obj? && n[k].Obj? then Says(held[k].m, n[k].m) else held[k] == n[k] {
        assert k in Merge(held, n);
      }
    }
  }

  /** n and g differ only where a covers the difference. */
  predicate Settled(n: Vars, g: Vars, a: Vars)
    decreases Obj(n), 0
  {
    forall k :: k in n && k in g ==> SettledAt(n[k], g[k], if k in a then Some(a[k]) else None)
  }

  predicate SettledAt(n: Json, g: Json, a: Option<Json>)
    decreases n, 1
  {
    if a.Some? && !a.value.Obj? then true
    else if n.Obj? && g.Obj? then assert Obj(n.m) == n; Settled(n.m, g.m, if a.Some? then a.value.m else map[])
    else if a.Some? then (n.Obj? ==> Covers(a.value.m, n.m)) && (g.Obj? ==> Covers(a.value.m, g.m))
    else n == g
  }

  /** Laying n under g once more is not seen under a exactly when the two are settled. */
  lemma {:induction false} SettledIff(n: Vars, g: Vars, a: Vars)
    ensures Merge(Merge(n, g), a) == Merge(Merge(Merge(n, g), n), a) <==> Settled(n, g, a)
    decreases Obj(n), 0
  {
    var once, again := Merge(Merge(n, g), a), Merge(Merge(Merge(n, g), n), a);
    forall k | k in n && k in g
      ensures once[k] == again[k] <==> SettledAt(n[k], g[k], if k in a then Some(a[k]) else None)
    {
      SettledKey(n, g, a, k);
    }
    forall k | k in n && k !in g ensures once[k] == again[k] {
      if n[k].Obj? { MergeSelf(n[k].m); }
    }
    assert once.Keys == again.Keys;
    if Settled(n, g, a) {
      assert forall k :: k in once ==> once[k] == again[k];
    }
  }

  lemma {:induction false} SettledKey(n: Vars, g: Vars, a: Vars, k: string)
    requires k in n && k in g
    ensures Merge(Merge(n, g), a)[k] == Merge(Merge(Merge(n, g), n), a)[k] <==>
            SettledAt(n[k], g[k], if k in a then Some(a[k]) else None)
    decreases n[k], 1
  {
    if n[k].Obj? && g[k].Obj? {
      var b: Vars := if k in a && a[k].Obj? then a[k].m else map[];
      assert Obj(n[k].m) == n[k];
      SettledIff(n[k].m, g[k].m, b);
      MergeNothing(Merge(n[k].m, g[k].m));
      MergeNothing(Merge(Merge(n[k].m, g[k].m), n[k].m));
    } else if k in a && a[k].Obj? {
      if n[k].Obj? { CoveredIffAbsorbed(n[k].m, a[k].m); }
      if g[k].Obj? { CoveredIffAbsorbed(g[k].m, a[k].m); }
    }
  }

  /** What a layer makes of two maps under one key. */
  lemma MergedUnder(x: Vars, y: Vars, a: Vars, k: string)
    requires k in x && k in y && x[k].Obj? && y[k].Obj?
    ensures var b: Vars := if k in a && a[k].Obj? then a[k].m else map[];
            Merge(x, a)[k] == Merge(y, a)[k] <==> (k in a && !a[k].Obj?) || Merge(x[k].m, b) == Merge(y[k].m, b)
  {
    MergeNothing(x[k].m);
    MergeNothing(y[k].m);
  }

  lemma MergeNothing(d: Vars)
    ensures Merge(d, map[]) == d
  {
  }

  // -------------------------------------------------------------- associativity

  /** Every key of a is a key of c, at every level where both hold maps. */
  predicate Covers(c: Vars, a: Vars)
    decreases Obj(a)
  {
    forall k :: k in a ==> k in c && (a[k].Obj? && c[k].Obj? ==> Covers(c[k].m, a[k].m))
  }

  /** a leaves no trace under c exactly when c covers it. */
  lemma {:induction false} CoveredIffAbsorbed(a: Vars, c: Vars)
    ensures Merge(a, c) == c <==> Covers(c, a)
    decreases Obj(a)
  {
    forall k | k in a && k in c && a[k].Obj? && c[k].Obj?
      ensures Merge(a[k].m, c[k].m) == c[k].m <==> Covers(c[k].m, a[k].m)
    {
      CoveredIffAbsorbed(a[k].m, c[k].m);
    }
    if Merge(a, c) == c {
      forall k | k in a ensures k in c && (a[k].Obj? && c[k].Obj? ==> Covers(c[k].m, a[k].m)) {
        assert k in Merge(a, c);
        if a[k].Obj? && c[k].Obj? { assert Merge(a, c)[k] == Obj(Merge(a[k].m, c[k].m)); }
      }
    }
  }

  /** Wherever a map, something else and a map meet under one key, the last
      covers the first. */
  predicate Regroups(a: Vars, b: Vars, c: Vars)
    decreases Obj(a)
  {
    forall k :: k in a && k in b && k in c && a[k].Obj? && c[k].Obj? ==>
      if b[k].Obj? then Regroups(a[k].m, b[k].m, c[k].m) else Covers(c[k].m, a[k].m)
  }

  /** Merging is not associative; this says exactly when three maps may be regrouped. */
  lemma {:induction false} AssociativeIff(a: Vars, b: Vars, c: Vars)
    ensures Merge(Merge(a, b), c) == Merge(a, Merge(b, c)) <==> Regroups(a, b, c)
    decreases Obj(a)
  {
    var left := Merge(Merge(a, b), c);
    var right := Merge(a, Merge(b, c));
    forall k | k in a && k in b && k in c && a[k].Obj? && c[k].Obj?
      ensures left[k] == right[k] <==>
              if b[k].Obj? then Regroups(a[k].m, b[k].m, c[k].m) else Covers(c[k].m, a[k].m)
    {
      if b[k].Obj? {
        AssociativeIff(a[k].m, b[k].m, c[k].m);
      } else {
        CoveredIffAbsorbed(a[k].m, c[k].m);
      }
    }
    assert left.Keys == right.Keys;
    assert (forall k :: k in left ==> left[k] == right[k]) ==> left == right;
  }

  /** A map, a scalar and a map under one key: the two groupings differ. */
  lemma NotAssociative()
    ensures var a: Vars := map["k" := Obj(map["x" := Num(1)])];
            var b: Vars := map["k" := Num(5)];
            var c: Vars := map["k" := Obj(map["y" := Num(2)])];
            Merge(Merge(a, b), c) != Merge(a, Merge(b, c))
  {
    var a: Vars := map["k" := Obj(map["x" := Num(1)])];
    var b: Vars := map["k" := Num(5)];
    var c: Vars := map["k" := Obj(map["y" := Num(2)])];
    assert "x" in a["k"].m && "x" !in c["k"].m;
    assert !Covers(c["k"].m, a["k"].m);
    assert "k" in a;
    assert !Regroups(a, b, c);
    AssociativeIff(a, b, c);
  }

  // ------------------------------------------------------------ JSON Merge Patch

  /** The object case of section 2 of RFC 7396: a null value removes its key. */
  function MergePatch(target: Vars, patch: Vars): (r: Vars)
    ensures forall k :: k in r <==> if k in patch then !patch[k].Null? else k in target
    decreases Obj(patch)
  {
    map k | k in target.Keys + patch.Keys && (k in patch ==> !patch[k].Null?) ::
      if k !in patch then target[k]
      else if patch[k].Obj? then
        Obj(MergePatch(if k in target && target[k].Obj? then target[k].m else map[], patch[k].m))
      else patch[k]
  }

  /** No null is assigned at any level of s. */
  predicate NoNulls(s: Vars)
    decreases Obj(s)
  {
    forall k :: k in s ==> !s[k].Null? && (s[k].Obj? ==> NoNulls(s[k].m))
  }

  /** Merging is JSON Merge Patch exactly on the patches without nulls: here a null is stored. */
  lemma {:induction false} MergePatchIff(d: Vars, s: Vars)
    ensures Merge(d, s) == MergePatch(d, s) <==> NoNulls(s)
    decreases Obj(s)
  {
    var merged, patched := Merge(d, s), MergePatch(d, s);
    forall k | k in s && s[k].Obj?
      ensures merged[k] == patched[k] <==> NoNulls(s[k].m)
    {
      if k in d && d[k].Obj? {
        MergePatchIff(d[k].m, s[k].m);
      } else {
        MergeIntoEmpty(s[k].m);
        MergePatchIff(map[], s[k].m);
      }
    }
    forall k | k in s && s[k].Null?
      ensures merged != patched
    {
      assert k in merged && k !in patched;
    }
    if NoNulls(s) {
      assert merged.Keys == patched.Keys;
      assert forall k :: k in merged ==> merged[k] == patched[k];
    } else {
      var k :| k in s && (s[k].Null? || (s[k].Obj? && !NoNulls(s[k].m)));
      assert merged != patched;
    }
  }
}
