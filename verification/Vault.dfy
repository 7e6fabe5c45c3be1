/** InsertUnvaultString: vault-encrypted strings are moved out of the job variables
    into generated top-level variables and replaced by lookup expressions. */
module Vault {
  import opened Json

  const MARK := "$ANSIBLE_VAULT;"
  const NAME_PREFIX := "__vaulted_value_"
  const OPENING := "{{ lookup('unvault_string', "
  const CLOSING := ") }}"

  /** unicode.IsSpace. */
  predicate IsSpace(c: char)
  {
    || '\t' <= c <= '\r' || c == ' ' || c == '\U{0085}' || c == '\U{00A0}' || c == '\U{1680}'
    || '\U{2000}' <= c <= '\U{200A}' || c == '\U{2028}' || c == '\U{2029}' || c == '\U{202F}'
    || c == '\U{205F}' || c == '\U{3000}'
  }

  function TrimLeft(s: string): string
  {
    if s != [] && IsSpace(s[0]) then TrimLeft(s[1..]) else s
  }

  function TrimRight(s: string): string
  {
    if s != [] && IsSpace(s[|s| - 1]) then TrimRight(s[..|s| - 1]) else s
  }

  function TrimSpace(s: string): string
  {
    TrimRight(TrimLeft(s))
  }

  predicate IsVault(s: string)
  {
    MARK <= TrimSpace(s)
  }

  function LookupExpr(name: string): string
  {
    OPENING + name + CLOSING
  }

  /** The name a lookup expression mentions, if s is one. */
  function NameIn(s: string): Option<string>
  {
    if |OPENING| + |CLOSING| <= |s| && OPENING <= s && s[|s| - |CLOSING|..] == CLOSING
    then Some(s[|OPENING|..|s| - |CLOSING|])
    else None
  }

  /** Lookup expressions are exactly the strings with a name in them, and are no vault strings. */
  lemma LookupExprs(s: string, name: string)
    ensures NameIn(s) == Some(name) <==> s == LookupExpr(name)
    ensures !IsVault(LookupExpr(name))
  {
    var e := LookupExpr(name);
    assert e[|OPENING|..|e| - |CLOSING|] == name;
    assert e[|e| - |CLOSING|..] == CLOSING;
    assert OPENING <= e;
    if NameIn(s) == Some(name) {
      assert s == s[..|OPENING|] + s[|OPENING|..|s| - |CLOSING|] + s[|s| - |CLOSING|..];
    }
    assert e[0] == '{' && e[|e| - 1] == '}';
    assert TrimSpace(e) == e;
    assert MARK[0] == '$';
  }

  // --------------------------------------------------------- what is replaced

  /** A position in a value. */
  datatype Step = Key(k: string) | Index(i: nat)
  type Path = seq<Step>

  function At(j: Json, p: Path): Option<Json>
    decreases |p|
  {
    if p == [] then Some(j)
    else
      match p[0]
      case Key(k) => if j.Obj? && k in j.m then At(j.m[k], p[1..]) else None
      case Index(i) => if j.Arr? && i < |j.items| then At(j.items[i], p[1..]) else None
  }

  predicate VaultAt(j: Json, p: Path)
  {
    At(j, p).Some? && At(j, p).value.Str? && IsVault(At(j, p).value.s)
  }

  /** No vault string anywhere in j. */
  predicate NoVault(j: Json)
  {
    match j
    case Str(s) => !IsVault(s)
    case Arr(items) => forall i :: 0 <= i < |items| ==> NoVault(items[i])
    case Obj(m) => forall k :: k in m ==> NoVault(m[k])
    case _ => true
  }

  /** No string in j is the lookup expression of one of names. */
  predicate Unmentioned(j: Json, names: set<string>)
  {
    match j
    case Str(s) => NameIn(s).Some? ==> NameIn(s).value !in names
    case Arr(items) => forall i :: 0 <= i < |items| ==> Unmentioned(items[i], names)
    case Obj(m) => forall k :: k in m ==> Unmentioned(m[k], names)
    case _ => true
  }

  type Table = map<string, string>

  /** j with the lookup expressions of the table replaced by what they look up. */
  function Restore(j: Json, table: Table): Json
  {
    match j
    case Str(s) => if NameIn(s).Some? && NameIn(s).value in table then Str(table[NameIn(s).value]) else j
    case Arr(items) => Arr(seq(|items|, i requires 0 <= i < |items| => Restore(items[i], table)))
    case Obj(m) => Obj(map k | k in m :: Restore(m[k], table))
    case _ => j
  }

  ghost predicate Extends(bigger: Table, table: Table)
  {
    table.Keys <= bigger.Keys && forall n :: n in table ==> bigger[n] == table[n]
  }

  ghost predicate AllVaults(table: Table)
  {
    forall n :: n in table ==> IsVault(table[n])
  }

  /** With every larger table, out restores to value exactly if value does not already
      contain one of that table's lookup expressions. */
  ghost predicate RoundTrips(value: Json, out: Json, table: Table)
  {
    forall t: Table {:trigger Restore(out, t)} :: Extends(t, table) && AllVaults(t) ==>
      (Restore(out, t) == value <==> Unmentioned(value, t.Keys))
  }

  /** origin places each new name at the vault string it stands for, and misses none. */
  ghost predicate OnePerVault(value: Json, out: Json, table: Table, origin: map<string, Path>)
  {
    && (forall n {:trigger origin[n]} :: n in origin ==> Stands(value, out, table, n, origin[n]))
    && (forall p {:trigger VaultAt(value, p)} :: VaultAt(value, p) ==> Placed(origin, p))
  }

  /** The vault string at p is in the table as n and looked up there. */
  ghost predicate Stands(value: Json, out: Json, table: Table, n: string, p: Path)
  {
    && n in table && VaultAt(value, p)
    && At(value, p) == Some(Str(table[n])) && At(out, p) == Some(Str(LookupExpr(n)))
  }

  ghost predicate Placed(origin: map<string, Path>, p: Path)
  {
    exists n {:trigger origin[n]} :: n in origin && origin[n] == p
  }

  ghost predicate Injective(origin: map<string, Path>)
  {
    forall m, n :: m in origin && n in origin && origin[m] == origin[n] ==> m == n
  }

  /** Different names stand for different positions. */
  lemma OriginsDiffer(value: Json, out: Json, table: Table, origin: map<string, Path>)
    requires OnePerVault(value, out, table, origin)
    ensures Injective(origin)
  {
    forall m, n | m in origin && n in origin && origin[m] == origin[n] ensures m == n {
      assert Stands(value, out, table, m, origin[m]) && Stands(value, out, table, n, origin[n]);
      LookupExprs(LookupExpr(m), m);
      LookupExprs(LookupExpr(m), n);
    }
  }

  // ------------------------------------------------------------ one string

  lemma StringStep(s: string, name: string, table: Table)
    requires IsVault(s) && name in table && table[name] == s
    ensures RoundTrips(Str(s), Str(LookupExpr(name)), table)
    ensures OnePerVault(Str(s), Str(LookupExpr(name)), table, map[name := []])
    ensures NoVault(Str(LookupExpr(name)))
  {
    LookupExprs(LookupExpr(name), name);
    forall t: Table | Extends(t, table) && AllVaults(t)
      ensures Restore(Str(LookupExpr(name)), t) == Str(s) && Unmentioned(Str(s), t.Keys)
    {
      NotALookup(s);
    }
    forall p | VaultAt(Str(s), p) ensures Placed(map[name := []], p) {
      var origin: map<string, Path> := map[name := []];
      assert origin[name] == p;
    }
  }

  lemma NotALookup(s: string)
    requires IsVault(s)
    ensures NameIn(s).None?
  {
    if NameIn(s).Some? {
      LookupExprs(s, NameIn(s).value);
    }
  }

  /** A value without a vault string is left as it is. */
  lemma KeptStep(j: Json, table: Table)
    requires !j.Arr? && !j.Obj? && (j.Str? ==> !IsVault(j.s))
    ensures RoundTrips(j, j, table) && OnePerVault(j, j, table, map[]) && NoVault(j)
  {
    forall t: Table | Extends(t, table) && AllVaults(t)
      ensures Restore(j, t) == j <==> Unmentioned(j, t.Keys)
    {
      if j.Str? && NameIn(j.s).Some? && NameIn(j.s).value in t {
        LookupExprs(j.s, NameIn(j.s).value);
      }
    }
    forall p ensures !VaultAt(j, p) {
    }
  }

  // ------------------------------------------------------------ maps and lists

  /** out is value with its vault strings moved into table. */
  ghost predicate Unvaulted(value: Json, out: Json, table: Table, origin: map<string, Path>)
  {
    RoundTrips(value, out, table) && OnePerVault(value, out, table, origin) && NoVault(out)
  }

  function Prefixed(origin: map<string, Path>, step: Step): (r: map<string, Path>)
    ensures r.Keys == origin.Keys
  {
    map n | n in origin :: [step] + origin[n]
  }

  /** A larger table changes nothing. */
  lemma Grow(value: Json, out: Json, table: Table, bigger: Table, origin: map<string, Path>)
    requires Unvaulted(value, out, table, origin) && Extends(bigger, table)
    ensures Unvaulted(value, out, bigger, origin)
  {
    forall t: Table | Extends(t, bigger) && AllVaults(t)
      ensures Restore(out, t) == value <==> Unmentioned(value, t.Keys)
    {
      assert Extends(t, table);
    }
  }

  /** One turn of the loop over a map's keys. */
  lemma KeyTurn(seen: Vars, done: Vars, k: string, v: Json, out: Json, start: Table, before: Table, after: Table,
                origin: map<string, Path>, more: map<string, Path>)
    requires k !in seen && done.Keys == seen.Keys
    requires Unvaulted(Obj(seen), Obj(done), before, origin) && Unvaulted(v, out, after, more)
    requires Extends(before, start) && Extends(after, before)
    requires IsNew(origin, start, before) && IsNew(more, before, after)
    ensures Unvaulted(Obj(seen[k := v]), Obj(done[k := out]), after, origin + Prefixed(more, Key(k)))
    ensures IsNew(origin + Prefixed(more, Key(k)), start, after)
  {
    Grow(Obj(seen), Obj(done), before, after, origin);
    AddKey(seen, done, k, v, out, after, origin, more);
  }

  /** One turn of the loop over a list. */
  lemma ItemTurn(items: seq<Json>, done: seq<Json>, v: Json, out: Json, start: Table, before: Table, after: Table,
                 origin: map<string, Path>, more: map<string, Path>)
    requires |done| == |items|
    requires Unvaulted(Arr(items), Arr(done), before, origin) && Unvaulted(v, out, after, more)
    requires Extends(before, start) && Extends(after, before)
    requires IsNew(origin, start, before) && IsNew(more, before, after)
    ensures Unvaulted(Arr(items + [v]), Arr(done + [out]), after, origin + Prefixed(more, Index(|items|)))
    ensures IsNew(origin + Prefixed(more, Index(|items|)), start, after)
  {
    Grow(Arr(items), Arr(done), before, after, origin);
    AddItem(items, done, v, out, after, origin, more);
  }

  /** One more key of a map. */
  lemma AddKey(m: Vars, done: Vars, k: string, v: Json, out: Json, table: Table,
               origin: map<string, Path>, more: map<string, Path>)
    requires k !in m && origin.Keys !! more.Keys
    requires Unvaulted(Obj(m), Obj(done), table, origin) && Unvaulted(v, out, table, more)
    requires done.Keys == m.Keys
    ensures Unvaulted(Obj(m[k := v]), Obj(done[k := out]), table, origin + Prefixed(more, Key(k)))
  {
    forall t: Table | Extends(t, table) && AllVaults(t)
      ensures Restore(Obj(done[k := out]), t) == Obj(m[k := v]) <==> Unmentioned(Obj(m[k := v]), t.Keys)
    {
      assert Restore(Obj(done), t) == Obj(m) <==> Unmentioned(Obj(m), t.Keys);
      assert Restore(out, t) == v <==> Unmentioned(v, t.Keys);
      RestoreKey(m, done, k, v, out, t);
    }
    KeyOrigins(m, done, k, v, out, table, origin, more);
    assert NoVault(Obj(done[k := out]));
  }

  lemma RestoreKey(m: Vars, done: Vars, k: string, v: Json, out: Json, t: Table)
    requires k !in m && done.Keys == m.Keys
    ensures Restore(Obj(done[k := out]), t) == Obj(m[k := v]) <==> Restore(Obj(done), t) == Obj(m) && Restore(out, t) == v
    ensures Unmentioned(Obj(m[k := v]), t.Keys) <==> Unmentioned(Obj(m), t.Keys) && Unmentioned(v, t.Keys)
  {
    var names := t.Keys;
    var before := Restore(Obj(done), t).m;
    assert Restore(Obj(done[k := out]), t).m == before[k := Restore(out, t)];
    PutBoth(before, m, k, Restore(out, t), v);
    assert forall j :: j in m ==> m[k := v][j] == m[j];
    assert m[k := v][k] == v;
  }

  lemma KeyOrigins(m: Vars, done: Vars, k: string, v: Json, out: Json, table: Table,
                   origin: map<string, Path>, more: map<string, Path>)
    requires k !in m && k !in done && origin.Keys !! more.Keys
    requires OnePerVault(Obj(m), Obj(done), table, origin) && OnePerVault(v, out, table, more)
    ensures OnePerVault(Obj(m[k := v]), Obj(done[k := out]), table, origin + Prefixed(more, Key(k)))
  {
    var value, all := Obj(m[k := v]), origin + Prefixed(more, Key(k));
    forall n | n in all ensures Stands(value, Obj(done[k := out]), table, n, all[n]) {
      KeyStands(m, done, k, v, out, table, origin, more, n);
    }
    forall p | VaultAt(value, p) ensures Placed(all, p) {
      KeyPlaced(m, done, k, v, out, table, origin, more, p);
    }
  }

  lemma KeyStands(m: Vars, done: Vars, k: string, v: Json, out: Json, table: Table,
                  origin: map<string, Path>, more: map<string, Path>, n: string)
    requires k !in m && k !in done && origin.Keys !! more.Keys
    requires n in origin ==> Stands(Obj(m), Obj(done), table, n, origin[n])
    requires n in more ==> Stands(v, out, table, n, more[n])
    requires n in origin || n in more
    ensures Stands(Obj(m[k := v]), Obj(done[k := out]), table, n, (origin + Prefixed(more, Key(k)))[n])
  {
    if n in more {
      assert ([Key(k)] + more[n])[1..] == more[n];
    } else {
      AtOtherKey(m, k, v, origin[n]);
      AtOtherKey(done, k, out, origin[n]);
    }
  }

  lemma KeyPlaced(m: Vars, done: Vars, k: string, v: Json, out: Json, table: Table,
                  origin: map<string, Path>, more: map<string, Path>, p: Path)
    requires k !in m && origin.Keys !! more.Keys
    requires OnePerVault(Obj(m), Obj(done), table, origin) && OnePerVault(v, out, table, more)
    requires VaultAt(Obj(m[k := v]), p)
    ensures Placed(origin + Prefixed(more, Key(k)), p)
  {
    hide Stands, Placed;
    if p[0] == Key(k) {
      assert VaultAt(v, p[1..]);
      PlacedDeeper(origin, more, Key(k), p[1..]);
      assert [Key(k)] + p[1..] == p;
    } else {
      AtOtherKey(m, k, v, p);
      assert VaultAt(Obj(m), p);
      PlacedStill(origin, Prefixed(more, Key(k)), p);
    }
  }

  lemma PlacedStill(origin: map<string, Path>, right: map<string, Path>, p: Path)
    requires origin.Keys !! right.Keys && Placed(origin, p)
    ensures Placed(origin + right, p)
  {
    var n :| n in origin && origin[n] == p;
    assert (origin + right)[n] == p;
  }

  lemma PlacedDeeper(left: map<string, Path>, more: map<string, Path>, step: Step, p: Path)
    requires left.Keys !! more.Keys && Placed(more, p)
    ensures Placed(left + Prefixed(more, step), [step] + p)
  {
    var n :| n in more && more[n] == p;
    assert n in Prefixed(more, step);
    assert (left + Prefixed(more, step))[n] == [step] + p;
  }

  lemma PutBoth(a: Vars, b: Vars, k: string, v: Json, w: Json)
    requires k !in a && k !in b
    ensures a[k := v] == b[k := w] <==> a == b && v == w
  {
    if a[k := v] == b[k := w] {
      assert a[k := v][k] == b[k := w][k];
      assert a == a[k := v] - {k} && b == b[k := w] - {k};
    }
  }

  lemma AtOtherKey(m: Vars, k: string, v: Json, p: Path)
    requires k !in m
    ensures p != [] && p[0] != Key(k) ==> At(Obj(m[k := v]), p) == At(Obj(m), p)
    ensures At(Obj(m), p).Some? && At(Obj(m), p).value.Str? ==> p != [] && p[0] != Key(k)
  {
  }

  /** One more item of a list. */
  lemma AddItem(items: seq<Json>, done: seq<Json>, v: Json, out: Json, table: Table,
                origin: map<string, Path>, more: map<string, Path>)
    requires |done| == |items| && origin.Keys !! more.Keys
    requires Unvaulted(Arr(items), Arr(done), table, origin) && Unvaulted(v, out, table, more)
    ensures Unvaulted(Arr(items + [v]), Arr(done + [out]), table, origin + Prefixed(more, Index(|items|)))
  {
    forall t: Table | Extends(t, table) && AllVaults(t)
      ensures Restore(Arr(done + [out]), t) == Arr(items + [v]) <==> Unmentioned(Arr(items + [v]), t.Keys)
    {
      assert Restore(Arr(done), t) == Arr(items) <==> Unmentioned(Arr(items), t.Keys);
      assert Restore(out, t) == v <==> Unmentioned(v, t.Keys);
      RestoreItem(items, done, v, out, t);
    }
    ItemOrigins(items, done, v, out, table, origin, more);
    assert NoVault(Arr(done + [out]));
  }

  lemma RestoreItem(items: seq<Json>, done: seq<Json>, v: Json, out: Json, t: Table)
    requires |done| == |items|
    ensures Restore(Arr(done + [out]), t) == Arr(items + [v]) <==> Restore(Arr(done), t) == Arr(items) && Restore(out, t) == v
    ensures Unmentioned(Arr(items + [v]), t.Keys) <==> Unmentioned(Arr(items), t.Keys) && Unmentioned(v, t.Keys)
  {
    assert Restore(Arr(done + [out]), t).items == Restore(Arr(done), t).items + [Restore(out, t)];
    AppendBoth(Restore(Arr(done), t).items, items, Restore(out, t), v);
    UnmentionedAppend(items, v, t.Keys);
  }

  lemma ItemOrigins(items: seq<Json>, done: seq<Json>, v: Json, out: Json, table: Table,
                    origin: map<string, Path>, more: map<string, Path>)
    requires |done| == |items| && origin.Keys !! more.Keys
    requires OnePerVault(Arr(items), Arr(done), table, origin) && OnePerVault(v, out, table, more)
    ensures OnePerVault(Arr(items + [v]), Arr(done + [out]), table, origin + Prefixed(more, Index(|items|)))
  {
    var i := |items|;
    var value, result, all := Arr(items + [v]), Arr(done + [out]), origin + Prefixed(more, Index(i));
    forall n | n in all ensures Stands(value, result, table, n, all[n]) {
      ItemStands(items, done, v, out, table, origin, more, n);
    }
    forall p | VaultAt(value, p) ensures Placed(all, p) {
      ItemPlaced(items, done, v, out, table, origin, more, p);
    }
  }

  lemma ItemStands(items: seq<Json>, done: seq<Json>, v: Json, out: Json, table: Table,
                   origin: map<string, Path>, more: map<string, Path>, n: string)
    requires |done| == |items| && origin.Keys !! more.Keys
    requires n in origin ==> Stands(Arr(items), Arr(done), table, n, origin[n])
    requires n in more ==> Stands(v, out, table, n, more[n])
    requires n in origin || n in more
    ensures Stands(Arr(items + [v]), Arr(done + [out]), table, n, (origin + Prefixed(more, Index(|items|)))[n])
  {
    if n in more {
      assert ([Index(|items|)] + more[n])[1..] == more[n];
    } else {
      AtOtherIndex(items, v, origin[n]);
      AtOtherIndex(done, out, origin[n]);
    }
  }

  lemma ItemPlaced(items: seq<Json>, done: seq<Json>, v: Json, out: Json, table: Table,
                   origin: map<string, Path>, more: map<string, Path>, p: Path)
    requires origin.Keys !! more.Keys
    requires OnePerVault(Arr(items), Arr(done), table, origin) && OnePerVault(v, out, table, more)
    requires VaultAt(Arr(items + [v]), p)
    ensures Placed(origin + Prefixed(more, Index(|items|)), p)
  {
    hide Stands, Placed;
    var i := |items|;
    if p[0] == Index(i) {
      assert VaultAt(v, p[1..]);
      PlacedDeeper(origin, more, Index(i), p[1..]);
      assert [Index(i)] + p[1..] == p;
    } else {
      AtOtherIndex(items, v, p);
      assert VaultAt(Arr(items), p);
      PlacedStill(origin, Prefixed(more, Index(i)), p);
    }
  }

  lemma AppendBoth(a: seq<Json>, b: seq<Json>, v: Json, w: Json)
    requires |a| == |b|
    ensures a + [v] == b + [w] <==> a == b && v == w
  {
    if a + [v] == b + [w] {
      assert (a + [v])[|a|] == (b + [w])[|b|];
      assert a == (a + [v])[..|a|] && b == (b + [w])[..|b|];
    }
  }

  lemma UnmentionedAppend(items: seq<Json>, v: Json, names: set<string>)
    ensures Unmentioned(Arr(items + [v]), names) <==> Unmentioned(Arr(items), names) && Unmentioned(v, names)
  {
    assert forall i :: 0 <= i < |items| ==> (items + [v])[i] == items[i];
    assert (items + [v])[|items|] == v;
  }

  lemma AtOtherIndex(items: seq<Json>, v: Json, p: Path)
    ensures p != [] && p[0] != Index(|items|) ==> At(Arr(items + [v]), p) == At(Arr(items), p)
    ensures At(Arr(items), p).Some? && At(Arr(items), p).value.Str? ==> p != [] && p[0] != Index(|items|)
  {
  }

  // ------------------------------------------------------------ the methods

  /** after is start with names added, every one of them drawn. */
  ghost predicate Grown(draws: seq<string>, start: Table, after: Table)
  {
    Extends(after, start) && AllVaults(after) && forall n :: n in after ==> n in start || IsDraw(draws, n)
  }

  lemma GrownOn(draws: seq<string>, start: Table, before: Table, after: Table)
    requires Grown(draws, start, before) && Grown(draws, before, after)
    ensures Grown(draws, start, after) && Extends(before, start) && Extends(after, before) && AllVaults(after)
  {
  }

  lemma NothingYet(draws: seq<string>, table: Table)
    requires AllVaults(table)
    ensures Grown(draws, table, table) && IsNew(map[], table, table)
  {
  }

  /** origin speaks of exactly the names added. */
  ghost predicate IsNew(origin: map<string, Path>, start: Table, after: Table)
  {
    forall n :: n in origin <==> n in after && n !in start
  }

  ghost predicate IsDraw(draws: seq<string>, n: string)
  {
    exists i :: 0 <= i < |draws| && n == NAME_PREFIX + draws[i]
  }

  /** The name table that one call threads through its recursion, and the random
      twelve-character suffixes it will draw. */
  class VaultTable {
    var vaulted: Table
    var used: nat
    const draws: seq<string>

    constructor (draws: seq<string>)
      ensures this.draws == draws && vaulted == map[] && used == 0
    {
      this.draws := draws;
      vaulted := map[];
      used := 0;
    }

    /** Draw until the name is new; None when the draws supplied run out first. */
    method GenerateUniqueVaultVarName() returns (name: Option<string>)
      requires used <= |draws|
      modifies this`used
      ensures used <= |draws|
      ensures name.Some? ==>
        && old(used) < used && name.value == NAME_PREFIX + draws[used - 1] && name.value !in vaulted
        && forall i :: old(used) <= i < used - 1 ==> NAME_PREFIX + draws[i] in vaulted
      ensures name.None? ==>
        used == |draws| && forall i :: old(used) <= i < |draws| ==> NAME_PREFIX + draws[i] in vaulted
    {
      while used < |draws|
        invariant old(used) <= used <= |draws|
        invariant forall i :: old(used) <= i < used ==> NAME_PREFIX + draws[i] in vaulted
      {
        var candidate := NAME_PREFIX + draws[used];
        used := used + 1;
        if candidate !in vaulted {
          return Some(candidate);
        }
      }
      return None;
    }

    /** Copy value with its vault strings moved into the table, in any order of the map's keys. */
    method UnvaultRecurse(value: Json) returns (out: Option<Json>, ghost origin: map<string, Path>)
      requires used <= |draws| && AllVaults(vaulted)
      modifies this
      ensures used <= |draws| && Grown(draws, old(vaulted), vaulted)
      ensures out.Some? ==> IsNew(origin, old(vaulted), vaulted)
      ensures out.Some? ==> Unvaulted(value, out.value, vaulted, origin)
      ensures out.Some? ==> (out.value.Obj? <==> value.Obj?) && (value.Obj? ==> out.value.m.Keys == value.m.Keys)
      ensures out.None? ==> used == |draws|
      decreases value
    {
      match value
      case Obj(m) =>
        var r;
        r, origin := UnvaultMap(m);
        out := if r.None? then None else Some(Obj(r.value));
      case Arr(items) =>
        var r;
        r, origin := UnvaultItems(items);
        out := if r.None? then None else Some(Arr(r.value));
      case Str(s) =>
        if IsVault(s) {
          var name := GenerateUniqueVaultVarName();
          if name.None? {
            return None, map[];
          }
          vaulted := vaulted[name.value := s];
          StringStep(s, name.value, vaulted);
          assert IsDraw(draws, name.value);
          return Some(Str(LookupExpr(name.value))), map[name.value := []];
        }
        KeptStep(value, vaulted);
        return Some(value), map[];
      case _ =>
        KeptStep(value, vaulted);
        return Some(value), map[];
    }

    method UnvaultMap(m: Vars) returns (out: Option<Vars>, ghost origin: map<string, Path>)
      requires used <= |draws| && AllVaults(vaulted)
      modifies this
      ensures used <= |draws| && Grown(draws, old(vaulted), vaulted)
      ensures out.Some? ==> IsNew(origin, old(vaulted), vaulted)
      ensures out.Some? ==> out.value.Keys == m.Keys && Unvaulted(Obj(m), Obj(out.value), vaulted, origin)
      ensures out.None? ==> used == |draws|
      decreases Obj(m), 0
    {
      var todo := m.Keys;
      var done: Vars := map[];
      ghost var seen: Vars := map[];
      origin := map[];
      hide Grown, IsNew, Unvaulted, AllVaults, Prefixed;
      EmptyMap(vaulted);
      NothingYet(draws, vaulted);
      while todo != {}
        invariant todo <= m.Keys && done.Keys == seen.Keys
        invariant forall k :: k in m <==> k in todo || k in seen
        invariant forall k :: k in seen ==> k !in todo && seen[k] == m[k]
        invariant used <= |draws| && Grown(draws, old(vaulted), vaulted) && AllVaults(vaulted)
        invariant IsNew(origin, old(vaulted), vaulted)
        invariant Unvaulted(Obj(seen), Obj(done), vaulted, origin)
        decreases |todo|
      {
        var k :| k in todo;
        ghost var before := vaulted;
        var r;
        ghost var more;
        r, more := UnvaultRecurse(m[k]);
        GrownOn(draws, old(vaulted), before, vaulted);
        if r.None? {
          return None, map[];
        }
        KeyTurn(seen, done, k, m[k], r.value, old(vaulted), before, vaulted, origin, more);
        todo := todo - {k};
        seen := seen[k := m[k]];
        done := done[k := r.value];
        origin := origin + Prefixed(more, Key(k));
      }
      assert seen == m;
      return Some(done), origin;
    }

    method UnvaultItems(items: seq<Json>) returns (out: Option<seq<Json>>, ghost origin: map<string, Path>)
      requires used <= |draws| && AllVaults(vaulted)
      modifies this
      ensures used <= |draws| && Grown(draws, old(vaulted), vaulted)
      ensures out.Some? ==> IsNew(origin, old(vaulted), vaulted)
      ensures out.Some? ==> |out.value| == |items| && Unvaulted(Arr(items), Arr(out.value), vaulted, origin)
      ensures out.None? ==> used == |draws|
      decreases Arr(items), 0
    {
      var done: seq<Json> := [];
      origin := map[];
      hide Grown, IsNew, Unvaulted, AllVaults, Prefixed;
      EmptyList(vaulted);
      NothingYet(draws, vaulted);
      for i := 0 to |items|
        invariant |done| == i
        invariant used <= |draws| && Grown(draws, old(vaulted), vaulted) && AllVaults(vaulted)
        invariant IsNew(origin, old(vaulted), vaulted)
        invariant Unvaulted(Arr(items[..i]), Arr(done), vaulted, origin)
      {
        ghost var before := vaulted;
        var r;
        ghost var more;
        r, more := UnvaultRecurse(items[i]);
        GrownOn(draws, old(vaulted), before, vaulted);
        if r.None? {
          return None, map[];
        }
        ItemTurn(items[..i], done, items[i], r.value, old(vaulted), before, vaulted, origin, more);
        assert items[..i + 1] == items[..i] + [items[i]];
        done := done + [r.value];
        origin := origin + Prefixed(more, Index(i));
      }
      assert items[..|items|] == items;
      return Some(done), origin;
    }
  }

  lemma EmptyMap(table: Table)
    ensures Unvaulted(Obj(map[]), Obj(map[]), table, map[])
  {
    assert forall t :: Restore(Obj(map[]), t) == Obj(map[]);
    forall p ensures !VaultAt(Obj(map[]), p) {
    }
  }

  lemma EmptyList(table: Table)
    ensures Unvaulted(Arr([]), Arr([]), table, map[])
  {
    assert forall t :: Restore(Arr([]), t) == Arr([]);
    forall p ensures !VaultAt(Arr([]), p) {
    }
  }

  /** The job variables with vault strings looked up, and the table they are looked up
      in. The original comes back exactly when none of the generated names was used in it. */
  method InsertUnvaultString(vars: Vars, draws: seq<string>)
    returns (result: Option<Vars>, table: Table, ghost origin: map<string, Path>)
    ensures result.Some? ==>
      && table.Keys <= result.value.Keys
      && (forall n :: n in table ==> result.value[n] == Str(table[n]))
      && (result.value - table.Keys).Keys == vars.Keys - table.Keys
      && NoVault(Obj(result.value - table.Keys))
    ensures result.Some? ==>
      (Restore(Obj(result.value - table.Keys), table) == Obj(vars)
       <==> Unmentioned(Obj(vars), table.Keys) && vars.Keys !! table.Keys)
    ensures result.Some? ==>
      && (forall n :: n in table ==> IsDraw(draws, n))
      && origin.Keys == table.Keys
      && (forall n :: n in table ==> VaultAt(Obj(vars), origin[n]) && At(Obj(vars), origin[n]) == Some(Str(table[n])))
      && Injective(origin)
      && (forall p :: VaultAt(Obj(vars), p) ==> Placed(origin, p))
  {
    var names := new VaultTable(draws);
    var out;
    out, origin := names.UnvaultMap(vars);
    table := names.vaulted;
    if out.None? {
      return None, table, origin;
    }
    var r := AddTable(out.value, table);
    result := Some(r);
    hide *;
    Inserted(vars, out.value, r, table);
    NamesOfVaults(vars, out.value, draws, table, origin);
  }

  /** The variables handed on are the copy beside the table. */
  lemma Inserted(vars: Vars, out: Vars, r: Vars, table: Table)
    requires out.Keys == vars.Keys && RoundTrips(Obj(vars), Obj(out), table) && NoVault(Obj(out)) && AllVaults(table)
    requires r.Keys == out.Keys + table.Keys
    requires forall k :: k in out && k !in table ==> r[k] == out[k]
    ensures table.Keys <= r.Keys && (r - table.Keys).Keys == vars.Keys - table.Keys
    ensures NoVault(Obj(r - table.Keys))
    ensures Restore(Obj(r - table.Keys), table) == Obj(vars)
            <==> Unmentioned(Obj(vars), table.Keys) && vars.Keys !! table.Keys
  {
    Dropped(out, r, table);
    hide *;
    RestoredIff(vars, out, table);
  }

  /** The names of the table are drawn, and stand for the vault strings one to one. */
  lemma NamesOfVaults(vars: Vars, out: Vars, draws: seq<string>, table: Table, origin: map<string, Path>)
    requires Grown(draws, map[], table) && IsNew(origin, map[], table)
    requires OnePerVault(Obj(vars), Obj(out), table, origin)
    ensures forall n :: n in table ==> IsDraw(draws, n)
    ensures origin.Keys == table.Keys
    ensures forall n :: n in table ==> VaultAt(Obj(vars), origin[n]) && At(Obj(vars), origin[n]) == Some(Str(table[n]))
    ensures Injective(origin)
    ensures forall p :: VaultAt(Obj(vars), p) ==> Placed(origin, p)
  {
    hide VaultAt, At, Placed, IsDraw, Injective, AllVaults;
    OriginsDiffer(Obj(vars), Obj(out), table, origin);
    forall n | n in table
      ensures VaultAt(Obj(vars), origin[n]) && At(Obj(vars), origin[n]) == Some(Str(table[n]))
    {
      assert Stands(Obj(vars), Obj(out), table, n, origin[n]);
    }
  }

  method AddTable(out: Vars, table: Table) returns (r: Vars)
    ensures r.Keys == out.Keys + table.Keys
    ensures forall n :: n in table ==> r[n] == Str(table[n])
    ensures forall k :: k in out && k !in table ==> r[k] == out[k]
  {
    r := out;
    var todo := table.Keys;
    while todo != {}
      invariant todo <= table.Keys
      invariant out.Keys <= r.Keys && r.Keys <= out.Keys + table.Keys
      invariant forall n :: n in table && n !in todo ==> n in r && r[n] == Str(table[n])
      invariant forall k :: k in out && k !in table ==> r[k] == out[k]
      decreases |todo|
    {
      var n :| n in todo;
      r := r[n := Str(table[n])];
      todo := todo - {n};
    }
  }

  lemma Dropped(out: Vars, r: Vars, table: Table)
    requires r.Keys == out.Keys + table.Keys
    requires forall k :: k in out && k !in table ==> r[k] == out[k]
    requires NoVault(Obj(out))
    ensures r - table.Keys == out - table.Keys
    ensures NoVault(Obj(r - table.Keys)) && (r - table.Keys).Keys == out.Keys - table.Keys
  {
  }

  /** Dropping the generated keys loses a variable whose key was generated. */
  lemma RestoredIff(vars: Vars, out: Vars, table: Table)
    requires out.Keys == vars.Keys && AllVaults(table)
    requires RoundTrips(Obj(vars), Obj(out), table)
    ensures Restore(Obj(out - table.Keys), table) == Obj(vars)
            <==> Unmentioned(Obj(vars), table.Keys) && vars.Keys !! table.Keys
  {
    assert Extends(table, table);
    if vars.Keys !! table.Keys {
      assert out - table.Keys == out;
    } else {
      var k :| k in vars && k in table;
      assert k !in Restore(Obj(out - table.Keys), table).m;
    }
  }
}
