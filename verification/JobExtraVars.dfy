/** buildJobExtraVars: four layers merged in place over one another, some of which
    alias the payload's own maps. */
module JobExtraVars {
  import opened Json
  import opened DeepMerge
  import opened MapHeap
  import opened SharedMaps

  const META := "__meta__"

  /** The governor's settings that reach this function as decoded structs or plain strings. */
  datatype Settings = Settings(
    deployerType: string,   // resolveDeployerType's result
    scmRef: string,         // meta.Deployer.SCMRef, "" without a deployer
    callbackUrl: string,    // "" without an action
    callbackToken: string)

  // ------------------------------------------------------- what is computed

  function ActionPath(action: string): seq<string>
  {
    ["deployer", "actions", action, "extra_vars"]
  }

  /** resolveActionExtraVars, from the raw __meta__ map. */
  function ActionExtraVars(rawMeta: Option<Vars>, action: string): Vars
  {
    match Nested(rawMeta, ActionPath(action))
    case Some(vars) => vars
    case None => map["ACTION" := Str(action)]
  }

  /** A non-empty string of __meta__.deployer, else the default. */
  function DeployerString(rawMeta: Option<Vars>, key: string, default: string): string
  {
    match Nested(rawMeta, ["deployer"])
    case None => default
    case Some(deployer) => if StringAt(deployer, key) != "" then StringAt(deployer, key) else default
  }

  function SetUnlessEmpty(m: Vars, key: string, value: string): Vars
  {
    if value == "" then m else m[key := Str(value)]
  }

  /** Callback, output_dir and scm_ref variables laid over the merged ones. */
  function WithOverrides(m: Vars, rawMeta: Option<Vars>, st: Settings, uuid: string): Vars
  {
    var withUrl := SetUnlessEmpty(m, DeployerString(rawMeta, "callback_url_var", "agnosticd_callback_url"), st.callbackUrl);
    var withToken := SetUnlessEmpty(withUrl, DeployerString(rawMeta, "callback_token_var", "agnosticd_callback_token"), st.callbackToken);
    var withDir := if st.deployerType == "agnosticd" && uuid != ""
                   then withToken["output_dir" := Str("/tmp/output-" + uuid)] else withToken;
    var scmVar := DeployerString(rawMeta, "scm_ref_var", "");
    if scmVar == "" then withDir else SetUnlessEmpty(withDir, scmVar, st.scmRef)
  }

  /** The documented assembly: subject, governor, dynamic, without __meta__, then the
      action's variables and the overrides, all resolved from rawMeta. */
  function Assemble(subject: Vars, governor: Vars, dynamic: Vars, rawMeta: Option<Vars>,
                    action: string, st: Settings): Vars
  {
    var merged := Fold(map[], [subject, governor, dynamic]) - {META};
    WithOverrides(Merge(merged, ActionExtraVars(rawMeta, action)), rawMeta, st, StringAt(subject, "uuid"))
  }

  /** What the governor's own map g holds once it has been laid over s (if that is a
      map) and d (if that is a map) over the result: the parts that were stored by
      reference receive d's values too. */
  function MetaAfter(s: Option<Vars>, g: Vars, d: Option<Vars>): Vars
    decreases Obj(g)
  {
    if d.None? then g
    else if s.None? then Merge(g, d.value)
    else
      map k | k in g ::
        if g[k].Obj? then Obj(MetaAfter(SubMap(s.value, k), g[k].m, SubMap(d.value, k))) else g[k]
  }

  /** __meta__ as the later steps read it: the governor's map after the three merges. */
  function MetaRead(subject: Vars, governor: Vars, dynamic: Vars): Option<Vars>
  {
    match SubMap(governor, META)
    case None => None
    case Some(g) => Some(MetaAfter(SubMap(subject, META), g, SubMap(dynamic, META)))
  }

  /** The dynamic values do not reach what the governor's map holds: they come to parts of it
      only where the subject has no map, and say there what it says. */
  predicate MetaStays(s: Option<Vars>, g: Vars, d: Option<Vars>)
    decreases Obj(g)
  {
    || d.None?
    || (if s.None? then Says(g, d.value)
        else forall k :: k in g && g[k].Obj? ==> MetaStays(SubMap(s.value, k), g[k].m, SubMap(d.value, k)))
  }

  lemma {:induction false} MetaStaysIff(s: Option<Vars>, g: Vars, d: Option<Vars>)
    ensures MetaAfter(s, g, d) == g <==> MetaStays(s, g, d)
    decreases Obj(g)
  {
    if d.Some? && s.None? {
      SaysIff(g, d.value);
    } else if d.Some? {
      forall k | k in g && g[k].Obj?
        ensures MetaAfter(s, g, d)[k] == g[k] <==> MetaStays(SubMap(s.value, k), g[k].m, SubMap(d.value, k))
      {
        MetaStaysIff(SubMap(s.value, k), g[k].m, SubMap(d.value, k));
      }
      assert MetaAfter(s, g, d).Keys == g.Keys;
      assert (forall k :: k in g ==> MetaAfter(s, g, d)[k] == g[k]) ==> MetaAfter(s, g, d) == g;
    }
  }

  /** The governor's settings are read as they were on entry exactly then. */
  lemma {:induction false} MetaReadIff(subject: Vars, governor: Vars, dynamic: Vars)
    ensures MetaRead(subject, governor, dynamic) == SubMap(governor, META) <==>
            (SubMap(governor, META).Some? ==>
               MetaStays(SubMap(subject, META), SubMap(governor, META).value, SubMap(dynamic, META)))
  {
    if SubMap(governor, META).Some? {
      MetaStaysIff(SubMap(subject, META), SubMap(governor, META).value, SubMap(dynamic, META));
    }
  }

  /** The names of the variables that the overrides are put under. */
  predicate SameNames(m: Option<Vars>, n: Option<Vars>)
  {
    && DeployerString(m, "callback_url_var", "agnosticd_callback_url") == DeployerString(n, "callback_url_var", "agnosticd_callback_url")
    && DeployerString(m, "callback_token_var", "agnosticd_callback_token") == DeployerString(n, "callback_token_var", "agnosticd_callback_token")
    && DeployerString(m, "scm_ref_var", "") == DeployerString(n, "scm_ref_var", "")
  }

  /** Two assemblies agree for every callback, reference and deployer type exactly when they agree
      up to the overrides and read the same names. */
  lemma {:induction false} SettingsDecide(x: Vars, m: Option<Vars>, y: Vars, n: Option<Vars>, uuid: string)
    ensures (forall st :: WithOverrides(x, m, st, uuid) == WithOverrides(y, n, st, uuid)) <==> x == y && SameNames(m, n)
  {
    if forall st :: WithOverrides(x, m, st, uuid) == WithOverrides(y, n, st, uuid) {
      var none := Settings("", "", "", "");
      assert WithOverrides(x, m, none, uuid) == x && WithOverrides(y, n, none, uuid) == y;
      UrlDecides(x, m, n, uuid);
      TokenDecides(x, m, n, uuid);
      RefDecides(x, m, n, uuid);
    }
  }

  /** A string that is not what m holds under k. */
  function Other(m: Vars, k: string): (s: string)
    ensures s != "" && !(k in m && m[k] == Str(s))
  {
    if StringAt(m, k) == "x" then "y" else "x"
  }

  lemma {:induction false} UrlDecides(x: Vars, m: Option<Vars>, n: Option<Vars>, uuid: string)
    requires forall st :: WithOverrides(x, m, st, uuid) == WithOverrides(x, n, st, uuid)
    ensures DeployerString(m, "callback_url_var", "agnosticd_callback_url") == DeployerString(n, "callback_url_var", "agnosticd_callback_url")
  {
    hide DeployerString;
    var name := DeployerString(m, "callback_url_var", "agnosticd_callback_url");
    var st := Settings("", "", Other(x, name), "");
    var name2 := DeployerString(n, "callback_url_var", "agnosticd_callback_url");
    assert WithOverrides(x, m, st, uuid) == x[name := Str(st.callbackUrl)];
    assert WithOverrides(x, n, st, uuid) == x[name2 := Str(st.callbackUrl)];
    assert name in x[name := Str(st.callbackUrl)] && x[name := Str(st.callbackUrl)] == x[name2 := Str(st.callbackUrl)];
  }

  lemma {:induction false} TokenDecides(x: Vars, m: Option<Vars>, n: Option<Vars>, uuid: string)
    requires forall st :: WithOverrides(x, m, st, uuid) == WithOverrides(x, n, st, uuid)
    ensures DeployerString(m, "callback_token_var", "agnosticd_callback_token") == DeployerString(n, "callback_token_var", "agnosticd_callback_token")
  {
    hide DeployerString;
    var name := DeployerString(m, "callback_token_var", "agnosticd_callback_token");
    var st := Settings("", "", "", Other(x, name));
    var name2 := DeployerString(n, "callback_token_var", "agnosticd_callback_token");
    assert WithOverrides(x, m, st, uuid) == x[name := Str(st.callbackToken)];
    assert WithOverrides(x, n, st, uuid) == x[name2 := Str(st.callbackToken)];
    assert name in x[name := Str(st.callbackToken)] && x[name := Str(st.callbackToken)] == x[name2 := Str(st.callbackToken)];
  }

  lemma {:induction false} RefDecides(x: Vars, m: Option<Vars>, n: Option<Vars>, uuid: string)
    requires forall st :: WithOverrides(x, m, st, uuid) == WithOverrides(x, n, st, uuid)
    ensures DeployerString(m, "scm_ref_var", "") == DeployerString(n, "scm_ref_var", "")
  {
    hide DeployerString;
    var one, two := DeployerString(m, "scm_ref_var", ""), DeployerString(n, "scm_ref_var", "");
    var name := if one == "" then two else one;
    var st := Settings("", Other(x, name), "", "");
    var left := if one == "" then x else x[one := Str(st.scmRef)];
    var right := if two == "" then x else x[two := Str(st.scmRef)];
    assert WithOverrides(x, m, st, uuid) == left && WithOverrides(x, n, st, uuid) == right;
    if one != two { assert name in left || name in right; }
  }

  /** A resource whose var annotation is "__meta__" reaches into the governor's action
      variables: with a map there the documented order is not what is computed. */
  lemma {:induction false} DynamicMetaLeaks()
    ensures var governor: Vars := map[META := Obj(map["deployer" := Obj(map["scm_ref_var" := Str("ref")])])];
            var dynamic: Vars := map[META := Obj(map["deployer" := Obj(map["scm_ref_var" := Str("other")])])];
            var st := Settings("agnosticd", "main", "", "");
            && "other" in Assemble(map[], governor, dynamic, MetaRead(map[], governor, dynamic), "start", st)
            && "other" !in Assemble(map[], governor, dynamic, SubMap(governor, META), "start", st)
  {
    var gd: Vars := map["scm_ref_var" := Str("ref")];
    var dd: Vars := map["scm_ref_var" := Str("other")];
    var gm: Vars := map["deployer" := Obj(gd)];
    var dm: Vars := map["deployer" := Obj(dd)];
    var governor: Vars := map[META := Obj(gm)];
    var dynamic: Vars := map[META := Obj(dm)];
    var st := Settings("agnosticd", "main", "", "");
    assert Merge(gd, dd) == dd;
    assert Merge(gm, dm) == dm;
    assert MetaRead(map[], governor, dynamic) == Some(dm);
    hide MetaRead;
    SettingsOnly(governor, dynamic, dm, dd, "other", st);
    SettingsOnly(governor, dynamic, gm, gd, "ref", st);
  }

  /** With settings and nothing else in the layers, the result is the action and the reference. */
  lemma {:induction false} SettingsOnly(governor: Vars, dynamic: Vars, meta: Vars, deployer: Vars, ref: string, st: Settings)
    requires governor.Keys == dynamic.Keys == {META}
    requires SubMap(meta, "deployer") == Some(deployer) && deployer == map["scm_ref_var" := Str(ref)] && ref != ""
    requires st == Settings("agnosticd", "main", "", "")
    ensures Assemble(map[], governor, dynamic, Some(meta), "start", st).Keys == {"ACTION", ref}
  {
    FoldKeys([map[], governor, dynamic]);
    DeployerStringAt(meta, deployer, "scm_ref_var", "");
    NoActions(meta, deployer, "start");
    assert ActionExtraVars(Some(meta), "start") == map["ACTION" := Str("start")];
    hide Fold, Nested, DeployerString;
    var merged := Fold(map[], [map[], governor, dynamic]) - {META};
    assert merged == map[];
    assert Merge(merged, map["ACTION" := Str("start")]).Keys == {"ACTION"};
  }

  lemma DeployerStringAt(meta: Vars, deployer: Vars, key: string, default: string)
    requires SubMap(meta, "deployer") == Some(deployer)
    ensures DeployerString(Some(meta), key, default) ==
            if StringAt(deployer, key) != "" then StringAt(deployer, key) else default
  {
    assert ["deployer"][1..] == [];
    assert NestedMap(deployer, []) == Some(deployer);
    assert NestedMap(meta, ["deployer"]) == Some(deployer);
  }

  lemma NoActions(meta: Vars, deployer: Vars, action: string)
    requires SubMap(meta, "deployer") == Some(deployer) && SubMap(deployer, "actions").None?
    ensures NestedMap(meta, ActionPath(action)).None?
  {
    var path := ActionPath(action);
    assert path[0] == "deployer" && path[1..][0] == "actions";
    assert NestedMap(deployer, path[1..]).None?;
  }

  lemma FoldThree(d: Vars, a: Vars, b: Vars, c: Vars)
    ensures Fold(d, [a, b, c]) == Merge(Merge(Merge(d, a), b), c)
  {
    assert [a, b, c][1..] == [b, c] && [b, c][1..] == [c] && [c][1..] == [];
    assert Fold(Merge(Merge(d, a), b), [c]) == Fold(Merge(Merge(Merge(d, a), b), c), []);
    assert Fold(Merge(d, a), [b, c]) == Fold(Merge(Merge(d, a), b), [c]);
  }

  lemma FoldKeys(layers: seq<Vars>)
    requires |layers| == 3
    ensures Fold(map[], layers).Keys == layers[0].Keys + layers[1].Keys + layers[2].Keys
  {
    FoldThree(map[], layers[0], layers[1], layers[2]);
    assert layers == [layers[0], layers[1], layers[2]];
  }

  /** __meta__ is removed before the action's variables are merged: it is in the result
      exactly when those, or an override named like it, bring it back. */
  lemma MetaComesBackIff(subject: Vars, governor: Vars, dynamic: Vars, rawMeta: Option<Vars>, action: string, st: Settings)
    ensures META in Assemble(subject, governor, dynamic, rawMeta, action, st) <==>
            || META in ActionExtraVars(rawMeta, action)
            || (st.callbackUrl != "" && DeployerString(rawMeta, "callback_url_var", "agnosticd_callback_url") == META)
            || (st.callbackToken != "" && DeployerString(rawMeta, "callback_token_var", "agnosticd_callback_token") == META)
            || (st.scmRef != "" && DeployerString(rawMeta, "scm_ref_var", "") == META)
  {
    assert META != "output_dir" && META != "";
  }

  // ------------------------------------------------------ the maps in the heap

  /** The governor's own map, node by node, after the three merges. */
  ghost function Alias(s: Option<Shape>, g: Shape, d: Option<Shape>): Shape
    decreases g
  {
    if d.None? then g
    else if s.None? then Laid(g, d.value)
    else Shape(g.node, map k | k in g.kids :: AliasKid(s, g, d, k))
  }

  ghost function AliasKid(s: Option<Shape>, g: Shape, d: Option<Shape>, k: string): Kid
    requires k in g.kids && s.Some? && d.Some?
    decreases g, 0
  {
    if SubAt(g, k) then Sub(Alias(SubShape(s.value, k), g.kids[k].shape, SubShape(d.value, k))) else g.kids[k]
  }

  lemma {:induction false} AliasValue(s: Option<Shape>, g: Shape, d: Option<Shape>)
    ensures ValueOf(Alias(s, g, d)) == MetaAfter(OptValue(s), ValueOf(g), OptValue(d))
    decreases g
  {
    if d.Some? && s.None? {
      LaidValue(g, d.value);
    } else if d.Some? {
      forall k | SubAt(g, k)
        ensures KidValue(AliasKid(s, g, d, k)) == MetaAfter(OptValue(s), ValueOf(g), OptValue(d))[k]
      {
        AliasValue(SubShape(s.value, k), g.kids[k].shape, SubShape(d.value, k));
        assert OptValue(SubShape(s.value, k)) == SubMap(ValueOf(s.value), k);
        assert OptValue(SubShape(d.value, k)) == SubMap(ValueOf(d.value), k);
      }
    }
  }

  /** Three structures without a map in common. */
  ghost predicate Apart(s: Option<Shape>, g: Shape, d: Option<Shape>)
  {
    && (s.Some? ==> IsTree(s.value)) && IsTree(g) && (d.Some? ==> IsTree(d.value))
    && OptFoot(s) !! Foot(g) && OptFoot(s) !! OptFoot(d) && Foot(g) !! OptFoot(d)
  }

  lemma ApartBelow(s: Option<Shape>, g: Shape, d: Option<Shape>, k: string)
    requires Apart(s, g, d) && s.Some? && d.Some? && SubAt(g, k)
    ensures Apart(SubShape(s.value, k), g.kids[k].shape, SubShape(d.value, k))
  {
    PartsAt(s.value, k);
    PartsAt(g, k);
    PartsAt(d.value, k);
  }

  /** Between two maps the alias keeps g's top map and its references. */
  lemma AliasLevel(s: Option<Shape>, g: Shape, d: Option<Shape>)
    requires s.Some? && d.Some?
    ensures Entries(Alias(s, g, d)) == Entries(g)
    ensures forall k :: SubAt(Alias(s, g, d), k) <==> SubAt(g, k)
    ensures forall k :: SubAt(g, k) ==>
              Alias(s, g, d).kids[k].shape == Alias(SubShape(s.value, k), g.kids[k].shape, SubShape(d.value, k))
  {
    forall k | k in g.kids
      ensures Stored(AliasKid(s, g, d, k)) == Stored(g.kids[k])
      ensures AliasKid(s, g, d, k).Sub? <==> SubAt(g, k)
    {
      if SubAt(g, k) {
        AliasNode(SubShape(s.value, k), g.kids[k].shape, SubShape(d.value, k));
      }
    }
  }

  lemma AliasNode(s: Option<Shape>, g: Shape, d: Option<Shape>)
    ensures Alias(s, g, d).node == g.node
  {
  }

  lemma {:induction false} AliasFoot(s: Option<Shape>, g: Shape, d: Option<Shape>)
    ensures Foot(Alias(s, g, d)) <= Foot(g) + OptFoot(d)
    decreases g
  {
    if d.Some? && s.None? {
      LaidFoot(g, d.value);
      PartsAt(d.value, "");
    } else if d.Some? {
      PartsAt(Alias(s, g, d), "");
      PartsAt(g, "");
      AliasNode(s, g, d);
      forall n | n in KidsFoot(Alias(s, g, d)) ensures n in Foot(g) + OptFoot(d) {
        var k := KeyOfMap(Alias(s, g, d), n);
        AliasLevel(s, g, d);
        AliasFoot(SubShape(s.value, k), g.kids[k].shape, SubShape(d.value, k));
        PartsAt(g, k);
        PartsAt(d.value, k);
      }
    }
  }

  /** The maps of the alias under k are g's and d's under k. */
  lemma AliasFootAt(s: Option<Shape>, g: Shape, d: Option<Shape>, k: string)
    requires s.Some? && d.Some?
    ensures FootAt(Alias(s, g, d), k) <= FootAt(g, k) + FootAt(d.value, k)
  {
    AliasLevel(s, g, d);
    if SubAt(g, k) {
      AliasFoot(SubShape(s.value, k), g.kids[k].shape, SubShape(d.value, k));
    }
  }

  lemma {:induction false} AliasTree(s: Option<Shape>, g: Shape, d: Option<Shape>)
    requires Apart(s, g, d)
    ensures IsTree(Alias(s, g, d))
    decreases g
  {
    if d.Some? && s.None? {
      ApartAligned(g, d.value);
      LaidTree(g, d.value);
    } else if d.Some? {
      AliasLevel(s, g, d);
      AliasNode(s, g, d);
      forall k | SubAt(Alias(s, g, d), k)
        ensures g.node !in FootAt(Alias(s, g, d), k) && IsTree(Alias(s, g, d).kids[k].shape)
      {
        ApartBelow(s, g, d, k);
        AliasTree(SubShape(s.value, k), g.kids[k].shape, SubShape(d.value, k));
        AliasFootAt(s, g, d, k);
        PartsAt(g, "");
        PartsAt(d.value, k);
      }
      AliasKeysApart(s, g, d);
    }
  }

  lemma AliasKeysApart(s: Option<Shape>, g: Shape, d: Option<Shape>)
    requires Apart(s, g, d) && s.Some? && d.Some?
    ensures forall j, k :: j != k ==> FootAt(Alias(s, g, d), j) !! FootAt(Alias(s, g, d), k)
  {
    forall j, k | j != k ensures FootAt(Alias(s, g, d), j) !! FootAt(Alias(s, g, d), k) {
      AliasFootAt(s, g, d, j);
      AliasFootAt(s, g, d, k);
      KeysApart(g, j, k);
      KeysApart(d.value, j, k);
      PartsAt(g, j); PartsAt(g, k);
      PartsAt(d.value, j); PartsAt(d.value, k);
    }
  }

  /** g as it sits in the merged variables: laid over s, or stored by reference. */
  ghost function Onto(s: Option<Shape>, g: Shape): Shape
  {
    if s.None? then g else Laid(s.value, g)
  }

  /** What laying d over that writes. */
  ghost function Written(s: Option<Shape>, g: Shape, d: Option<Shape>): set<GoMap>
  {
    if d.None? then {} else Touched(Onto(s, g), d.value)
  }

  lemma OntoFoot(s: Option<Shape>, g: Shape)
    requires s.Some?
    ensures Foot(Onto(s, g)) <= Foot(s.value) + KidsFoot(g)
  {
    LaidFoot(s.value, g);
  }

  /** What is written under one key of g is written by the merge under that key. */
  lemma WrittenBelow(s: Option<Shape>, g: Shape, d: Option<Shape>, k: string, n: GoMap)
    requires Apart(s, g, d) && s.Some? && d.Some? && SubAt(g, k) && n in Foot(g.kids[k].shape)
    requires n in Written(s, g, d)
    ensures n in Written(SubShape(s.value, k), g.kids[k].shape, SubShape(d.value, k))
  {
    var l := Laid(s.value, g);
    PartsAt(g, k);
    PartsAt(s.value, k);
    assert n in TouchedBelow(l, d.value);
    var j :| j in l.kids && SubAt(l, j) && SubAt(d.value, j) && n in Touched(l.kids[j].shape, d.value.kids[j].shape);
    TouchedInFoot(l.kids[j].shape, d.value.kids[j].shape);
    LaidKidFoot(s.value, g, j);
    PartsAt(s.value, j);
    if j != k { KeysApart(g, j, k); }
    assert j == k;
    assert l.kids[k] == LaidKid(s.value, g, k);
  }

  lemma AliasKeptBelow(s: Option<Shape>, g: Shape, d: Option<Shape>, k: string)
    requires Apart(s, g, d) && s.Some? && d.Some? && SubAt(g, k)
    requires Kept(g, Written(s, g, d))
    ensures Kept(g.kids[k].shape, Written(SubShape(s.value, k), g.kids[k].shape, SubShape(d.value, k)))
  {
    var below := Written(SubShape(s.value, k), g.kids[k].shape, SubShape(d.value, k));
    PartsAt(g, k);
    forall p | p in Parts(g.kids[k].shape) && p.node !in below ensures p.node.entries == Entries(p) {
      assert p.node in Foot(g.kids[k].shape);
      if p.node in Written(s, g, d) { WrittenBelow(s, g, d, k, p.node); }
    }
  }

  /** After the three merges the governor's own maps look like Alias says. */
  lemma {:induction false} AliasMatches(s: Option<Shape>, g: Shape, d: Option<Shape>)
    requires Apart(s, g, d)
    requires d.Some? ==> Matches(Laid(Onto(s, g), d.value))
    requires Kept(g, Written(s, g, d))
    ensures Matches(Alias(s, g, d))
    decreases g
  {
    if d.Some? && s.Some? {
      AliasLevel(s, g, d);
      AliasNode(s, g, d);
      OwnNodeKept(s, g, d);
      forall k | SubAt(g, k) ensures Matches(Alias(s, g, d).kids[k].shape) {
        ApartBelow(s, g, d, k);
        AliasKeptBelow(s, g, d, k);
        if SubAt(d.value, k) {
          MergedBelow(s, g, d, k);
          MatchesByLevel(Laid(Onto(s, g), d.value));
        }
        AliasMatches(SubShape(s.value, k), g.kids[k].shape, SubShape(d.value, k));
      }
      MatchesByLevel(Alias(s, g, d));
    }
  }

  lemma OwnNodeKept(s: Option<Shape>, g: Shape, d: Option<Shape>)
    requires Apart(s, g, d) && s.Some? && d.Some? && Kept(g, Written(s, g, d))
    ensures g.node.entries == Entries(g)
  {
    OwnNodeApart(s, g);
    TouchedInFoot(Onto(s, g), d.value);
    assert g in Parts(g);
  }

  /** The top map of a tree is not below itself, nor is it one of another's. */
  lemma {:induction false} OwnNodeApart(s: Option<Shape>, g: Shape)
    requires s.Some? && IsTree(g) && OptFoot(s) !! Foot(g)
    ensures g.node !in Foot(Onto(s, g))
  {
    OntoFoot(s, g);
    PartsAt(g, "");
    if g.node in KidsFoot(g) {
      var k := KeyOfMap(g, g.node);
    }
  }

  lemma MergedBelow(s: Option<Shape>, g: Shape, d: Option<Shape>, k: string)
    requires s.Some? && d.Some? && SubAt(g, k) && SubAt(d.value, k)
    ensures var x := Laid(Onto(s, g), d.value);
            SubAt(x, k) && x.kids[k].shape == Laid(Onto(SubShape(s.value, k), g.kids[k].shape), d.value.kids[k].shape)
  {
    var l := Laid(s.value, g);
    assert l.kids[k] == LaidKid(s.value, g, k);
    assert Laid(l, d.value).kids[k] == LaidKid(l, d.value, k);
  }

  // ------------------------------------------------------------- the methods

  /** The three merged layers, without __meta__. */
  ghost function Layers(s: Shape, g: Shape, d: Shape): Shape
  {
    Laid(Laid(s, g), d)
  }

  ghost function Stripped(t: Shape): Shape
  {
    Shape(t.node, t.kids - {META})
  }

  ghost function Under(node: GoMap, t: Shape): Shape
  {
    Shape(node, t.kids)
  }

  /** Only the keys of the lower side matter to what a merge does below it. */
  lemma LaidUnder(node: GoMap, d: Shape, s: Shape)
    ensures Laid(Under(node, d), s) == Under(node, Laid(d, s))
    ensures Touched(Under(node, d), s) == {node} + TouchedBelow(d, s)
    ensures KidsFoot(Under(node, d)) == KidsFoot(d)
  {
    forall k | k in d.kids.Keys + s.kids.Keys
      ensures LaidKid(Under(node, d), s, k) == LaidKid(d, s, k)
    {
    }
    assert Below(Under(node, d)) == Below(d);
    assert TouchedBelow(Under(node, d), s) == TouchedBelow(d, s);
  }

  lemma AliasUnder(node: GoMap, s: Shape, g: Shape, d: Shape)
    ensures Alias(Some(Under(node, s)), g, Some(d)) == Alias(Some(s), g, Some(d))
  {
    forall k | k in g.kids
      ensures AliasKid(Some(Under(node, s)), g, Some(d), k) == AliasKid(Some(s), g, Some(d), k)
    {
      assert SubShape(Under(node, s), k) == SubShape(s, k);
    }
  }

  lemma UnderTree(node: GoMap, t: Shape)
    requires IsTree(t) && node !in KidsFoot(t)
    ensures IsTree(Under(node, t)) && Foot(Under(node, t)) == {node} + KidsFoot(t)
  {
    var u := Under(node, t);
    LaidUnder(node, t, t);
    PartsAt(u, "");
    forall k | SubAt(u, k) ensures u.node !in Foot(u.kids[k].shape) && IsTree(u.kids[k].shape) {
      assert SubAt(t, k);
      PartsAt(t, k);
    }
    forall j, k | SubAt(u, j) && SubAt(u, k) && j != k ensures Foot(u.kids[j].shape) !! Foot(u.kids[k].shape) {
      KeysApart(t, j, k);
    }
  }

  /** The first three merges into a new map. What is written are the nested maps at which two
      layers meet. Behind the governor's merge the dynamic variables are as After says. */
  method MergeLayers(subject: GoMap, governor: GoMap, dynamic: GoMap, ghost s: Shape, ghost g: Shape, ghost d: Shape,
                     ghost maps: set<GoMap>)
    returns (extraVars: GoMap)
    requires maps == Foot(s) + Foot(g) + Foot(d)
    requires s.node == subject && g.node == governor && d.node == dynamic && subject != dynamic
    requires Matches(s) && Matches(g) && Matches(d) && Payload(s, g, d)
    modifies TouchedBelow(s, g) + TouchedBelow(Laid(s, g), After(s, g, d))
    ensures fresh(extraVars)
    ensures Matches(Under(extraVars, Layers(Prune(s, g), g, Left(s, g, d))))
    ensures Matches(Alias(Some(Prune(s, g)), g, Some(Left(s, g, d))))
    ensures subject.entries == Entries(s) && governor.entries == Entries(g)
  {
    hide Payload, Aligned, IsTree, After, TouchedBelow, Touched;
    extraVars := new GoMap();
    ghost var e := extraVars;
    StartFacts(e, s, g, d);
    MatchesByLevel(Shape(e, map[]));
    MatchesByLevel(s);
    MatchesByLevel(g);
    ghost var rest := Foot(g) + Foot(d);
    MatchesIsFit(g, rest);
    MatchesIsFit(d, rest);
    MergeUnder(extraVars, subject, Shape(e, map[]), s, subject, Entries(s), rest, Snapshot(rest));
    MatchesIsFit(g, rest);
    MatchesIsFit(d, rest);
    GovernorFacts(e, s, g, d);
    ghost var kept := Foot(d) - Touched(Under(e, s), g);
    KeptFits(d, kept, Touched(Under(e, s), g));
    MergeUnder(extraVars, governor, Under(e, s), g, subject, Entries(s), kept, Snapshot(kept));
    KeptFits(d, kept, Touched(Under(e, s), g));
    AfterMatches(Under(e, s), g, d);
    LayDynamic(extraVars, subject, dynamic, s, g, d);
  }

  /** The third merge writes into maps of the governor that were stored by reference. */
  method LayDynamic(extraVars: GoMap, subject: GoMap, dynamic: GoMap, ghost s: Shape, ghost g: Shape, ghost d: Shape)
    requires s.node == subject && d.node == dynamic && subject != dynamic
    requires Payload(s, g, d) && extraVars !in Foot(s) + Foot(g) + Foot(d)
    requires Matches(Under(extraVars, Laid(s, g))) && Matches(g) && Matches(After(s, g, d))
    requires subject.entries == Entries(s)
    modifies {extraVars} + TouchedBelow(Laid(s, g), After(s, g, d))
    ensures Matches(Under(extraVars, Layers(Prune(s, g), g, Left(s, g, d))))
    ensures Matches(Alias(Some(Prune(s, g)), g, Some(Left(s, g, d))))
    ensures subject.entries == Entries(s) && g.node.entries == Entries(g)
  {
    hide Payload, Aligned, IsTree, After, TouchedBelow, Touched, Apart, Left, Prune, Alias, Onto, Layers;
    ghost var e, a, p, r := extraVars, After(s, g, d), Prune(s, g), Left(s, g, d);
    ghost var t := Under(e, Laid(s, g));
    SharedFacts(e, s, g, d);
    DynamicFacts(e, p, g, r);
    ghost var kept := Foot(g) - Touched(t, a);
    KeptFits(g, kept, Touched(t, a));
    MatchingAgree(g, a);
    MergeUnder(extraVars, dynamic, t, a, subject, Entries(s), kept, Snapshot(kept));
    KeptFits(g, kept, Touched(t, a));
    KeptThrough(g, a, Touched(t, a), Touched(t, r));
    AliasMatches(Some(Under(e, p)), g, Some(r));
    AliasUnder(e, p, g, r);
    OwnNodeKept(Some(Under(e, p)), g, Some(r));
  }

  /** Two structures in the heap agree on the maps they have in common. */
  ghost predicate Agree(g: Shape, a: Shape)
  {
    forall p, q :: p in Parts(g) && q in Parts(a) && p.node == q.node ==> Entries(p) == Entries(q)
  }

  lemma MatchingAgree(g: Shape, a: Shape)
    ensures Matches(g) && Matches(a) ==> Agree(g, a)
  {
  }

  /** Maps of a that were written hold what they held. */
  lemma KeptThrough(g: Shape, a: Shape, written: set<GoMap>, less: set<GoMap>)
    requires Kept(g, written) && Matches(a) && Agree(g, a) && written <= less + Foot(a)
    ensures Kept(g, less)
  {
    forall p | p in Parts(g) && p.node !in less ensures p.node.entries == Entries(p) {
      if p.node in written {
        var q :| q in Parts(a) && q.node == p.node;
      }
    }
  }

  /** Facts about the third merge, of structures that may share maps. */
  lemma SharedFacts(e: GoMap, s: Shape, g: Shape, d: Shape)
    requires Payload(s, g, d) && s.node != d.node && e !in Foot(s) + Foot(g) + Foot(d)
    ensures var a, p, r, t := After(s, g, d), Prune(s, g), Left(s, g, d), Under(e, Laid(s, g));
            && Aligned(t, a) && IsTree(t) && IsTree(a) && t == Under(e, Laid(p, g))
            && Touched(t, a) == {e} + TouchedBelow(Laid(s, g), a) && s.node !in Touched(t, a)
            && Touched(t, a) <= Touched(t, r) + Foot(a)
            && Laid(t, a) == Under(e, Layers(p, g, r)) && a.node == d.node
    ensures Apart(Some(Prune(s, g)), g, Some(Left(s, g, d))) && e !in Foot(Prune(s, g)) + Foot(g) + Foot(Left(s, g, d))
  {
    hide Touched, TouchedBelow, Aligned, IsTree, After, Prune, Rest, Left, Laid, Payload;
    var a, p, r, t := After(s, g, d), Prune(s, g), Left(s, g, d), Under(e, Laid(s, g));
    LeftApart(s, g, d);
    AfterNode(s, g, d);
    MergedFacts(e, s, g, d);
    LaidUnder(e, Laid(s, g), a);
    RestTouched(t, a);
    assert Rest(t, a) == r by { LeftUnder(e, s, g, d); }
    TouchedInFoot(t, a);
    PayloadApart(s, g, d);
  }

  lemma PayloadApart(s: Shape, g: Shape, d: Shape)
    requires Payload(s, g, d)
    ensures IsTree(g)
  {
  }

  lemma LeftUnder(e: GoMap, s: Shape, g: Shape, d: Shape)
    ensures Rest(Under(e, Laid(s, g)), After(s, g, d)) == Left(s, g, d)
  {
    RestUnder(e, Laid(s, g), After(s, g, d));
  }

  /** The merged variables before the third merge. */
  lemma MergedFacts(e: GoMap, s: Shape, g: Shape, d: Shape)
    requires Payload(s, g, d) && s.node != d.node && e !in Foot(s) + Foot(g) + Foot(d)
    ensures var t := Under(e, Laid(s, g));
            Aligned(t, After(s, g, d)) && IsTree(t) && IsTree(After(s, g, d)) && s.node !in Foot(t) && t.node != d.node
  {
    hide After, Aligned, IsTree;
    UnderPayload(e, s, g, d);
    LaidUnder(e, s, g);
    AfterAligned(Under(e, s), g, d);
    AfterTree(s, g, d);
    ApartAligned(Under(e, s), g);
    LaidTree(Under(e, s), g);
    LaidFoot(Under(e, s), g);
    PartsAt(g, "");
    PartsAt(s, "");
    PartsAt(d, "");
  }

  lemma RestUnder(e: GoMap, t: Shape, d: Shape)
    ensures Rest(Under(e, t), d) == Rest(t, d)
  {
    assert forall k :: SameAt(Under(e, t), d, k) <==> SameAt(t, d, k);
    assert forall k :: k in d.kids ==> RestKid(Under(e, t), d, k) == RestKid(t, d, k);
  }

  lemma UnderPayload(e: GoMap, s: Shape, g: Shape, d: Shape)
    requires Payload(s, g, d) && s.node != d.node && e !in Foot(s) + Foot(g) + Foot(d)
    ensures Payload(Under(e, s), g, d) && After(Under(e, s), g, d) == After(s, g, d)
    ensures Foot(Under(e, s)) == {e} + KidsFoot(s) && s.node !in Foot(Under(e, s)) && s.node !in Foot(d)
  {
    PartsAt(s, "");
    PartsAt(d, "");
    TopNotBelow(s);
    UnderTree(e, s);
    forall j, k | j != k ensures FootAt(Under(e, s), j) !! FootAt(d, k) {
      assert FootAt(Under(e, s), j) == FootAt(s, j);
    }
    forall k | SubAt(Under(e, s), k) && SubAt(d, k) ensures Aligned(Under(e, s).kids[k].shape, d.kids[k].shape) {
      assert SubAt(s, k);
    }
    assert forall k :: k in d.kids ==> AfterKid(Under(e, s), g, d, k) == AfterKid(s, g, d, k);
  }

  lemma KeptFits(g: Shape, kept: set<GoMap>, written: set<GoMap>)
    requires kept == Foot(g) - written
    ensures Kept(g, written) <==>
            forall p :: p in Parts(g) && p.node in kept ==> Snapshot(kept)[p.node] == Entries(p)
    ensures Matches(g) ==> Kept(g, written)
  {
    assert forall p :: p in Parts(g) ==> p.node in Foot(g);
    assert forall p :: p in Parts(g) && p.node in kept ==> Snapshot(kept)[p.node] == p.node.entries;
  }

  /** Facts about the three steps that do not depend on the heap. */
  lemma StartFacts(e: GoMap, s: Shape, g: Shape, d: Shape)
    requires Payload(s, g, d) && e !in Foot(s) + Foot(g) + Foot(d)
    ensures var e0 := Shape(e, map[]);
            && IsTree(e0) && IsTree(s) && Aligned(e0, s) && Touched(e0, s) == {e} && Laid(e0, s) == Under(e, s)
            && Entries(e0) == map[] && (forall k :: !SubAt(e0, k)) && s.node != e
  {
    var e0 := Shape(e, map[]);
    PartsAt(s, "");
    assert Parts(e0) == {e0};
    ApartAligned(e0, s);
    assert Laid(e0, s).kids == s.kids;
  }

  lemma StartedApart(e: GoMap, s: Shape, g: Shape, d: Shape)
    requires Apart(Some(s), g, Some(d)) && e !in Foot(s) + Foot(g) + Foot(d)
    ensures Apart(Some(Under(e, s)), g, Some(d))
    ensures Foot(Under(e, s)) == {e} + KidsFoot(s) && s.node !in KidsFoot(s)
  {
    PartsAt(s, "");
    UnderTree(e, s);
    TopNotBelow(s);
  }

  lemma TopNotBelow(t: Shape)
    requires IsTree(t)
    ensures t.node !in KidsFoot(t)
  {
    if t.node in KidsFoot(t) {
      var k := KeyOfMap(t, t.node);
    }
  }

  lemma GovernorFacts(e: GoMap, s: Shape, g: Shape, d: Shape)
    requires Payload(s, g, d) && s.node != d.node && e !in Foot(s) + Foot(g) + Foot(d)
    ensures var e1 := Under(e, s);
            && IsTree(e1) && IsTree(g) && Aligned(e1, g) && Laid(e1, g) == Under(e, Laid(s, g))
            && Touched(e1, g) == {e} + TouchedBelow(s, g) && s.node !in Touched(e1, g)
            && Payload(e1, g, d) && After(e1, g, d) == After(s, g, d)
  {
    UnderPayload(e, s, g, d);
    ApartAligned(Under(e, s), g);
    LaidUnder(e, s, g);
    TouchedInFoot(Under(e, s), g);
  }

  lemma DynamicFacts(e: GoMap, s: Shape, g: Shape, d: Shape)
    requires Apart(Some(s), g, Some(d)) && e !in Foot(s) + Foot(g) + Foot(d)
    ensures var e2 := Under(e, Laid(s, g));
            && IsTree(e2) && Foot(e2) !! Foot(d) && Laid(e2, d) == Under(e, Layers(s, g, d))
            && Touched(e2, d) == {e} + TouchedBelow(Laid(s, g), d)
            && Written(Some(Under(e, s)), g, Some(d)) == Touched(e2, d)
            && Laid(Onto(Some(Under(e, s)), g), d) == Laid(e2, d)
            && s.node !in Touched(e2, d)
    ensures Apart(Some(Under(e, s)), g, Some(d))
  {
    StartedApart(e, s, g, d);
    LaidUnder(e, s, g);
    LaidUnder(e, Laid(s, g), d);
    ApartAligned(Under(e, s), g);
    LaidTree(Under(e, s), g);
    LaidFoot(Under(e, s), g);
    TouchedInFoot(Under(e, Laid(s, g)), d);
    PartsAt(s, "");
    PartsAt(g, "");
  }

  /** The action's variables: the governor's own map, or a new one. */
  method ResolveActionExtraVars(rawMeta: GoMap?, action: string, ghost meta: Option<Shape>,
                                ghost others: set<GoMap>, ghost before: map<GoMap, map<string, Val>>)
    returns (vars: GoMap, ghost a: Shape)
    requires IsMap(rawMeta, meta) && (meta.Some? ==> IsTree(meta.value))
    requires OptFoot(meta) <= others && Snapshot(others) == before
    ensures a.node == vars && Matches(a) && IsTree(a) && IsMap(rawMeta, meta)
    ensures ValueOf(a) == ActionExtraVars(OptValue(meta), action)
    ensures var found := NestedShape(meta, ActionPath(action));
            if found.Some? then a == found.value else Foot(a) == {vars} && vars !in others && forall k :: !SubAt(a, k)
    ensures var found := NestedShape(meta, ActionPath(action));
            if found.Some? then vars == found.value.node else vars.entries == map["ACTION" := Plain(Str(action))]
    ensures Snapshot(others) == before
  {
    MetaFits(rawMeta, meta, others);
    var r, rt := GetNestedMap(rawMeta, ActionPath(action), meta);
    NestedShapeValue(meta, ActionPath(action));
    if r != null {
      NestedShapeInside(meta.value, ActionPath(action));
      MetaFits(rawMeta, meta, others);
      return r, rt.value;
    }
    vars := new GoMap();
    vars.entries := map["ACTION" := Plain(Str(action))];
    a := DefaultShape(vars, action);
    DefaultFacts(vars, action);
    MatchesByLevel(a);
    MetaFits(rawMeta, meta, others);
  }

  ghost function DefaultShape(node: GoMap, action: string): Shape
  {
    Shape(node, map["ACTION" := Leaf(Str(action))])
  }

  lemma DefaultFacts(node: GoMap, action: string)
    ensures var a := DefaultShape(node, action);
            && IsTree(a) && Foot(a) == {node} && (forall k :: !SubAt(a, k))
            && Entries(a) == map["ACTION" := Plain(Str(action))]
            && ValueOf(a) == map["ACTION" := Str(action)]
  {
    PartsAt(DefaultShape(node, action), "");
    assert Below(DefaultShape(node, action)) == {};
  }

  /** Read a string setting. Nothing is written: others is what the caller wants to hear that about. */
  method ReadDeployerString(rawMeta: GoMap?, key: string, default: string, ghost meta: Option<Shape>,
                            ghost others: set<GoMap>, ghost before: map<GoMap, map<string, Val>>)
    returns (v: string)
    requires IsMap(rawMeta, meta) && Snapshot(others) == before
    ensures v == DeployerString(OptValue(meta), key, default)
    ensures Snapshot(others) == before
  {
    var deployer, t := GetNestedMap(rawMeta, ["deployer"], meta);
    NestedShapeValue(meta, ["deployer"]);
    if deployer != null {
      MatchesByLevel(t.value);
      assert key in ValueOf(t.value) ==> ValueOf(t.value)[key] == KidValue(t.value.kids[key]);
      if key in deployer.entries && deployer.entries[key].Plain? && deployer.entries[key].j.Str? && deployer.entries[key].j.s != "" {
        assert Entries(t.value)[key] == Stored(t.value.kids[key]);
        assert StringAt(ValueOf(t.value), key) == deployer.entries[key].j.s;
        return deployer.entries[key].j.s;
      }
    }
    return default;
  }

  /** Assign a string; everything below keeps its shape. */
  method SetString(m: GoMap, key: string, value: string, ghost t: Shape, ghost others: set<GoMap>,
                   ghost before: map<GoMap, map<string, Val>>)
    returns (ghost after: Shape)
    requires t.node == m && Matches(t) && m !in KidsFoot(t)
    requires m !in others && Snapshot(others) == before
    modifies m
    ensures after == Put(t, key, Leaf(Str(value))) && Matches(after) && m !in KidsFoot(after)
    ensures ValueOf(after) == ValueOf(t)[key := Str(value)]
    ensures Snapshot(others) == before
  {
    after := Put(t, key, Leaf(Str(value)));
    ghost var below := KidsFoot(t);
    PutFacts(t, key, Str(value));
    MatchesByLevel(t);
    KidsFit(t, key, below);
    ghost var was := Snapshot(below);
    Store(m, key, Plain(Str(value)), others + below, Snapshot(others + below));
    assert Snapshot(below) == was && Snapshot(others) == before;
    KidsFit(t, key, below);
    PutMatches(t, key, Leaf(Str(value)));
  }

  lemma PutFacts(t: Shape, key: string, j: Data)
    ensures KidsFoot(Put(t, key, Leaf(j))) <= KidsFoot(t)
    ensures ValueOf(Put(t, key, Leaf(j))) == ValueOf(t)[key := j]
    ensures forall k :: SubAt(t, k) && k != key ==> Foot(t.kids[k].shape) <= KidsFoot(t)
  {
    var after := Put(t, key, Leaf(j));
    forall n | n in KidsFoot(after) ensures n in KidsFoot(t) {
      var k := KeyOfMap(after, n);
      PartsAt(t, k);
    }
    forall k | SubAt(t, k) && k != key ensures Foot(t.kids[k].shape) <= KidsFoot(t) {
      PartsAt(t, k);
    }
  }

  method SetStringUnlessEmpty(m: GoMap, key: string, value: string, ghost t: Shape, ghost others: set<GoMap>,
                              ghost before: map<GoMap, map<string, Val>>)
    returns (ghost after: Shape)
    requires t.node == m && Matches(t) && m !in KidsFoot(t)
    requires m !in others && Snapshot(others) == before
    modifies m
    ensures after.node == m && Matches(after) && m !in KidsFoot(after)
    ensures ValueOf(after) == SetUnlessEmpty(ValueOf(t), key, value)
    ensures Snapshot(others) == before
  {
    after := t;
    if value != "" {
      after := SetString(m, key, value, t, others, before);
    }
  }

  /** The assignments at the end of buildJobExtraVars. */
  method ApplyOverrides(m: GoMap, rawMeta: GoMap?, st: Settings, uuid: string, ghost t: Shape, ghost meta: Option<Shape>)
    returns (ghost e: Shape)
    requires t.node == m && Matches(t) && m !in KidsFoot(t)
    requires IsMap(rawMeta, meta) && m !in OptFoot(meta)
    modifies m
    ensures e.node == m && Matches(e)
    ensures ValueOf(e) == WithOverrides(ValueOf(t), OptValue(meta), st, uuid)
  {
    ghost var all := OptFoot(meta) + Foot(t);
    ghost var was := Snapshot(all);
    MatchesIsFit(t, all);
    MetaFits(rawMeta, meta, all);
    var urlVar := ReadDeployerString(rawMeta, "callback_url_var", "agnosticd_callback_url", meta, all, was);
    MetaFits(rawMeta, meta, all);
    var tokenVar := ReadDeployerString(rawMeta, "callback_token_var", "agnosticd_callback_token", meta, all, was);
    MatchesIsFit(t, all);
    MetaFits(rawMeta, meta, all);
    e := AssignOverrides(m, rawMeta, st, uuid, urlVar, tokenVar, t, meta);
  }

  method AssignOverrides(m: GoMap, rawMeta: GoMap?, st: Settings, uuid: string, urlVar: string, tokenVar: string,
                         ghost t: Shape, ghost meta: Option<Shape>)
    returns (ghost e: Shape)
    requires t.node == m && Matches(t) && m !in KidsFoot(t)
    requires IsMap(rawMeta, meta) && m !in OptFoot(meta)
    requires urlVar == DeployerString(OptValue(meta), "callback_url_var", "agnosticd_callback_url")
    requires tokenVar == DeployerString(OptValue(meta), "callback_token_var", "agnosticd_callback_token")
    modifies m
    ensures e.node == m && Matches(e)
    ensures ValueOf(e) == WithOverrides(ValueOf(t), OptValue(meta), st, uuid)
  {
    ghost var others := OptFoot(meta);
    ghost var before := Snapshot(others);
    MetaFits(rawMeta, meta, others);
    e := SetStringUnlessEmpty(m, urlVar, st.callbackUrl, t, others, before);
    e := SetStringUnlessEmpty(m, tokenVar, st.callbackToken, e, others, before);
    if st.deployerType == "agnosticd" && uuid != "" {
      e := SetString(m, "output_dir", "/tmp/output-" + uuid, e, others, before);
    }
    MetaFits(rawMeta, meta, others);
    MatchesIsFit(e, Foot(e));
    var scmVar := ReadDeployerString(rawMeta, "scm_ref_var", "", meta, Foot(e), Snapshot(Foot(e)));
    MatchesIsFit(e, Foot(e));
    if scmVar != "" {
      e := SetStringUnlessEmpty(m, scmVar, st.scmRef, e, {}, Snapshot({}));
    }
  }

  lemma MetaFits(rawMeta: GoMap?, meta: Option<Shape>, maps: set<GoMap>)
    requires OptFoot(meta) <= maps
    ensures IsMap(rawMeta, meta) <==>
            match meta case None => rawMeta == null case Some(t) => rawMeta == t.node && FitsIn(t, Snapshot(maps))
  {
    if meta.Some? { MatchesIsFit(meta.value, maps); }
  }

  /** What the action's merge reads: the governor's __meta__ as the layers left it. */
  ghost function MetaShape(s: Shape, g: Shape, d: Shape): Option<Shape>
  {
    SubShape(Alias(Some(s), g, Some(d)), META)
  }

  /** The nested maps at which the action's variables meet the merged ones. */
  ghost function ActionConflicts(s: Shape, g: Shape, d: Shape, action: string): set<GoMap>
  {
    var found := NestedShape(MetaShape(s, g, d), ActionPath(action));
    if found.None? then {} else TouchedBelow(Stripped(Layers(s, g, d)), found.value)
  }

  /** Where the maps of the merged layers come from, key by key. */
  lemma LayersFootAt(s: Shape, g: Shape, d: Shape, k: string)
    ensures FootAt(Layers(s, g, d), k) <= FootAt(s, k) + FootAt(g, k) + FootAt(d, k)
  {
    LaidKidFoot(s, g, k);
    LaidKidFoot(Laid(s, g), d, k);
  }

  /** Without __meta__ the merged layers and the governor's __meta__ have no map in common. */
  lemma StrippedApart(s: Shape, g: Shape, d: Shape)
    requires Apart(Some(s), g, Some(d))
    ensures KidsFoot(Stripped(Layers(s, g, d))) !! OptFoot(MetaShape(s, g, d))
    ensures KidsFoot(Stripped(Layers(s, g, d))) <= KidsFoot(s) + KidsFoot(g) + KidsFoot(d)
    ensures OptFoot(MetaShape(s, g, d)) <= Foot(g) + Foot(d)
  {
    var t := Stripped(Layers(s, g, d));
    forall n | n in KidsFoot(t)
      ensures n !in OptFoot(MetaShape(s, g, d)) && n in KidsFoot(s) + KidsFoot(g) + KidsFoot(d)
    {
      var k := KeyOfMap(t, n);
      assert SubAt(Layers(s, g, d), k) && k != META;
      LayerKeyApart(s, g, d, k);
    }
    MetaFoot(s, g, d);
    PartsAt(g, META);
    PartsAt(d, META);
  }

  lemma MetaFoot(s: Shape, g: Shape, d: Shape)
    ensures OptFoot(MetaShape(s, g, d)) <= FootAt(g, META) + FootAt(d, META)
  {
    AliasFootAt(Some(s), g, Some(d), META);
  }

  lemma LayerKeyApart(s: Shape, g: Shape, d: Shape, k: string)
    requires Apart(Some(s), g, Some(d)) && k != META
    ensures var f := FootAt(Layers(s, g, d), k);
            f !! OptFoot(MetaShape(s, g, d)) && f <= KidsFoot(s) + KidsFoot(g) + KidsFoot(d)
  {
    LayersFootAt(s, g, d, k);
    MetaFoot(s, g, d);
    PartsAt(s, k); PartsAt(g, k); PartsAt(d, k);
    PartsAt(g, META); PartsAt(d, META);
    KeysApart(g, k, META);
    KeysApart(d, k, META);
  }

  lemma StrippedTree(e: GoMap, s: Shape, g: Shape, d: Shape)
    requires Apart(Some(s), g, Some(d)) && e !in Foot(s) + Foot(g) + Foot(d)
    ensures var t := Under(e, Stripped(Layers(s, g, d)));
            IsTree(t) && Foot(t) == {e} + KidsFoot(Stripped(Layers(s, g, d))) && e !in KidsFoot(t)
  {
    DynamicFacts(e, s, g, d);
    var l := Under(e, Layers(s, g, d));
    ApartAligned(Under(e, Laid(s, g)), d);
    LaidTree(Under(e, Laid(s, g)), d);
    OnlyTree(l, l.kids.Keys - {META});
    assert Only(l, l.kids.Keys - {META}) == Under(e, Stripped(Layers(s, g, d)));
    var t := Under(e, Stripped(Layers(s, g, d)));
    TopNotBelow(t);
    PartsAt(t, "");
    LaidUnder(e, Stripped(Layers(s, g, d)), d);
  }

  method DropMeta(m: GoMap, ghost t: Shape)
    requires t.node == m && Matches(t) && m !in KidsFoot(t)
    modifies m
    ensures Matches(Stripped(t))
  {
    MatchesByLevel(t);
    KidsBelow(t);
    ghost var below := KidsFoot(t);
    KidsFit(t, META, below);
    Delete(m, META, below, Snapshot(below));
    KidsFit(t, META, below);
    forall k | SubAt(Stripped(t), k) ensures Matches(Stripped(t).kids[k].shape) {
      assert SubAt(t, k) && k != META;
    }
    assert Entries(Stripped(t)) == Entries(t) - {META};
    MatchesByLevel(Stripped(t));
  }

  method Delete(m: GoMap, key: string, ghost others: set<GoMap>, ghost before: map<GoMap, map<string, Val>>)
    requires m !in others && Snapshot(others) == before
    modifies m
    ensures m.entries == old(m.entries) - {key} && Snapshot(others) == before
  {
    m.entries := m.entries - {key};
  }

  lemma KidsBelow(t: Shape)
    ensures forall k :: SubAt(t, k) ==> Foot(t.kids[k].shape) <= KidsFoot(t)
  {
    forall k | SubAt(t, k) ensures Foot(t.kids[k].shape) <= KidsFoot(t) { PartsAt(t, k); }
  }

  lemma TouchedBelowNested(d: Shape, s: Shape)
    ensures TouchedBelow(d, s) <= KidsFoot(d)
  {
    forall k, n | SubAt(d, k) && SubAt(s, k) && n in Touched(d.kids[k].shape, s.kids[k].shape)
      ensures n in KidsFoot(d)
    {
      TouchedInFoot(d.kids[k].shape, s.kids[k].shape);
      PartsAt(d, k);
    }
  }

  /** Only nested maps of the payload are written, never one of its three top maps. */
  lemma {:induction false} OnlyNestedWritten(s: Shape, g: Shape, d: Shape, action: string)
    requires Payload(s, g, d) && s.node != d.node
    ensures var written := WrittenBy(s, g, d, action);
            && written <= KidsFoot(s) + KidsFoot(g) + KidsFoot(d)
            && s.node !in written && g.node !in written && d.node !in written
  {
    hide Payload, IsTree, Aligned, After, Prune, Left, Laid, TouchedBelow, KidsFoot, Apart, MetaShape, Layers;
    var p, r := Prune(s, g), Left(s, g, d);
    LeftApart(s, g, d);
    LeftIsApart(s, g, d);
    TouchedBelowNested(s, g);
    TouchedBelowNested(Laid(s, g), After(s, g, d));
    LaidFoot(s, g);
    var found := NestedShape(MetaShape(p, g, r), ActionPath(action));
    if found.Some? {
      TouchedBelowNested(Stripped(Layers(p, g, r)), found.value);
    }
    StrippedApart(p, g, r);
    TopsNotBelow(s, g, d);
    InsideNested(p, s);
    InsideNested(r, d);
  }

  lemma LeftIsApart(s: Shape, g: Shape, d: Shape)
    requires Payload(s, g, d) && s.node != d.node
    ensures Apart(Some(Prune(s, g)), g, Some(Left(s, g, d)))
  {
    LeftApart(s, g, d);
  }

  lemma TopsNotBelow(s: Shape, g: Shape, d: Shape)
    requires Payload(s, g, d) && s.node != d.node
    ensures {s.node, g.node, d.node} !! KidsFoot(s) + KidsFoot(g) + KidsFoot(d)
  {
    TopNotBelow(s);
    TopNotBelow(g);
    TopNotBelow(d);
    PartsAt(s, "");
    PartsAt(g, "");
    PartsAt(d, "");
  }

  lemma InsideNested(p: Shape, s: Shape)
    requires IsTree(p) && p.node == s.node && Foot(p) <= Foot(s)
    ensures KidsFoot(p) <= KidsFoot(s)
  {
    TopNotBelow(p);
    PartsAt(p, "");
    PartsAt(s, "");
  }

  /** What is written while the variables are assembled. */
  ghost function WrittenBy(s: Shape, g: Shape, d: Shape, action: string): set<GoMap>
  {
    TouchedBelow(s, g) + TouchedBelow(Laid(s, g), After(s, g, d)) + ActionConflicts(Prune(s, g), g, Left(s, g, d), action)
  }

  /** The extra variables of a Tower job. The payload's maps are trees; job variables and dynamic
      variables may have nested maps in common, at the same places, as they do when both come
      from one placement. The result is the assembly of the entry values, with the dynamic
      variables and __meta__ as the merges leave them; the top maps of the payload keep their
      entries. */
  method BuildJobExtraVars(subject: GoMap, governor: GoMap, dynamic: GoMap, action: string, st: Settings,
                           ghost s: Shape, ghost g: Shape, ghost d: Shape, ghost maps: set<GoMap>)
    returns (extraVars: GoMap, ghost e: Shape)
    requires maps == Foot(s) + Foot(g) + Foot(d)
    requires s.node == subject && g.node == governor && d.node == dynamic && subject != dynamic
    requires Matches(s) && Matches(g) && Matches(d) && Payload(s, g, d)
    modifies WrittenBy(s, g, d, action)
    ensures fresh(extraVars) && e.node == extraVars && Matches(e)
    ensures var last := ValueOf(After(s, g, d));
            ValueOf(e) == Assemble(ValueOf(s), ValueOf(g), last, MetaRead(ValueOf(s), ValueOf(g), last), action, st)
    ensures subject.entries == Entries(s) && governor.entries == Entries(g) && dynamic.entries == Entries(d)
  {
    hide TouchedBelow, ActionConflicts, KidsFoot, Laid, WithOverrides, Merge, ActionExtraVars, MetaRead, MetaAfter,
         Payload, Aligned, IsTree, After, Prune, Left, Apart, Alias, Layers;
    ghost var p, r := Prune(s, g), Left(s, g, d);
    OnlyNestedWritten(s, g, d, action);
    MatchesByLevel(g);
    MatchesByLevel(d);
    extraVars := MergeLayers(subject, governor, dynamic, s, g, d, maps);
    SharedFacts(extraVars, s, g, d);
    LeftNodes(s, g, d);
    ghost var meta := MetaShape(p, g, r);
    var rawMeta: GoMap? := null;
    MatchesByLevel(Alias(Some(p), g, Some(r)));
    AliasLevel(Some(p), g, Some(r));
    if META in governor.entries && governor.entries[META].Ref? {
      rawMeta := governor.entries[META].node;
    }
    assert IsMap(rawMeta, meta) by { AliasNodeAt(p, g, r); }
    e := AddAction(extraVars, subject, rawMeta, action, st, p, g, r, Entries(s));
    StringOfEntries(s, "uuid");
    ResultValue(s, g, d);
  }

  lemma LeftNodes(s: Shape, g: Shape, d: Shape)
    requires Payload(s, g, d) && s.node != d.node
    ensures Prune(s, g).node == s.node && Left(s, g, d).node == d.node
  {
    LeftApart(s, g, d);
  }

  lemma AliasNodeAt(s: Shape, g: Shape, d: Shape)
    ensures MetaShape(s, g, d).Some? <==> SubAt(g, META)
    ensures SubAt(g, META) ==> MetaShape(s, g, d).value.node == g.kids[META].shape.node
                               && MetaShape(s, g, d).value == Alias(Some(s), g, Some(d)).kids[META].shape
  {
    AliasLevel(Some(s), g, Some(d));
    if SubAt(g, META) {
      AliasNode(SubShape(s, META), g.kids[META].shape, SubShape(d, META));
    }
  }

  /** From the merged layers on: drop __meta__, merge the action's variables, assign the overrides. */
  method AddAction(extraVars: GoMap, subject: GoMap, rawMeta: GoMap?, action: string, st: Settings,
                   ghost s: Shape, ghost g: Shape, ghost d: Shape, ghost held: map<string, Val>)
    returns (ghost e: Shape)
    requires s.node == subject && subject.entries == held && Apart(Some(s), g, Some(d))
    requires extraVars !in Foot(s) + Foot(g) + Foot(d)
    requires Matches(Under(extraVars, Layers(s, g, d))) && IsMap(rawMeta, MetaShape(s, g, d))
    modifies {extraVars} + ActionConflicts(s, g, d, action)
    ensures e.node == extraVars && Matches(e) && subject.entries == held
    ensures ValueOf(e) == WithOverrides(
              Merge(ValueOf(Stripped(Layers(s, g, d))), ActionExtraVars(OptValue(MetaShape(s, g, d)), action)),
              OptValue(MetaShape(s, g, d)), st, TextAt(held, "uuid"))
  {
    hide Apart, Aligned, IsTree, Layers, Alias, WithOverrides, ActionExtraVars, ActionConflicts;
    ghost var maps := Foot(s) + Foot(g) + Foot(d);
    ghost var meta := MetaShape(s, g, d);
    ghost var t := Under(extraVars, Stripped(Layers(s, g, d)));
    ghost var all := maps + {extraVars};
    AddFacts(extraVars, s, g, d);
    MetaFits(rawMeta, meta, maps);
    DropMetaKeeping(extraVars, Under(extraVars, Layers(s, g, d)), subject, held, maps, Snapshot(maps));
    MetaFits(rawMeta, meta, maps);
    MatchesIsFit(t, all);
    var vars, a := ResolveActionExtraVars(rawMeta, action, meta, all, Snapshot(all));
    MatchesIsFit(t, all);
    ActionFacts(extraVars, s, g, d, action, a, vars);
    ghost var metaMaps := OptFoot(meta);
    MetaFits(rawMeta, meta, metaMaps);
    MergeUnder(extraVars, vars, t, a, subject, held, metaMaps, Snapshot(metaMaps));
    MetaFits(rawMeta, meta, metaMaps);
    LaidValue(t, a);
    var uuid := "";
    if "uuid" in subject.entries && subject.entries["uuid"].Plain? && subject.entries["uuid"].j.Str? {
      uuid := subject.entries["uuid"].j.s;
    }
    e := ApplyOverrides(extraVars, rawMeta, st, uuid, Laid(t, a), meta);
  }

  function TextAt(entries: map<string, Val>, key: string): string
  {
    if key in entries && entries[key].Plain? && entries[key].j.Str? then entries[key].j.s else ""
  }

  lemma StringOfEntries(t: Shape, key: string)
    ensures StringAt(ValueOf(t), key) == TextAt(Entries(t), key)
  {
    if key in t.kids {
      assert ValueOf(t)[key] == KidValue(t.kids[key]) && Entries(t)[key] == Stored(t.kids[key]);
    }
  }

  method DropMetaKeeping(m: GoMap, ghost t: Shape, ghost parent: GoMap, ghost held: map<string, Val>, ghost others: set<GoMap>, ghost before: map<GoMap, map<string, Val>>)
    requires t.node == m && Matches(t) && m !in KidsFoot(t)
    requires m !in others && Snapshot(others) == before && m != parent && parent.entries == held
    modifies m
    ensures Matches(Stripped(t)) && Snapshot(others) == before && parent.entries == held
  {
    DropMeta(m, t);
  }

  lemma AddFacts(e: GoMap, s: Shape, g: Shape, d: Shape)
    requires Apart(Some(s), g, Some(d)) && e !in Foot(s) + Foot(g) + Foot(d)
    ensures var t := Under(e, Stripped(Layers(s, g, d)));
            && IsTree(t) && Foot(t) <= Foot(s) + Foot(g) + Foot(d) + {e} - {s.node} && Foot(t) !! OptFoot(MetaShape(s, g, d))
            && e !in KidsFoot(t) && Stripped(Under(e, Layers(s, g, d))) == t && e !in KidsFoot(Under(e, Layers(s, g, d)))
    ensures OptFoot(MetaShape(s, g, d)) <= Foot(g) + Foot(d)
    ensures MetaShape(s, g, d).Some? ==> IsTree(MetaShape(s, g, d).value)
  {
    StrippedTree(e, s, g, d);
    StrippedApart(s, g, d);
    StrippedInside(s, g, d);
    LayersNotBelow(e, s, g, d);
    MetaTree(s, g, d);
  }

  lemma StrippedInside(s: Shape, g: Shape, d: Shape)
    requires Apart(Some(s), g, Some(d))
    ensures KidsFoot(Stripped(Layers(s, g, d))) <= Foot(s) + Foot(g) + Foot(d) - {s.node}
  {
    StrippedApart(s, g, d);
    PartsAt(s, ""); PartsAt(g, ""); PartsAt(d, "");
    TopNotBelow(s);
  }

  lemma LayersNotBelow(e: GoMap, s: Shape, g: Shape, d: Shape)
    requires Apart(Some(s), g, Some(d)) && e !in Foot(s) + Foot(g) + Foot(d)
    ensures e !in KidsFoot(Under(e, Layers(s, g, d)))
  {
    DynamicFacts(e, s, g, d);
    ApartAligned(Under(e, Laid(s, g)), d);
    LaidTree(Under(e, Laid(s, g)), d);
    TopNotBelow(Under(e, Layers(s, g, d)));
  }

  lemma MetaTree(s: Shape, g: Shape, d: Shape)
    requires Apart(Some(s), g, Some(d))
    ensures MetaShape(s, g, d).Some? ==> IsTree(MetaShape(s, g, d).value)
  {
    AliasTree(Some(s), g, Some(d));
  }

  /** What the action's variables look like: a part of the governor's __meta__, or one new map. */
  ghost predicate IsActionShape(a: Shape, vars: GoMap, s: Shape, g: Shape, d: Shape, action: string, payload: set<GoMap>)
  {
    var found := NestedShape(MetaShape(s, g, d), ActionPath(action));
    IsTree(a) &&
    if found.Some? then a == found.value
    else Foot(a) == {vars} && vars !in payload && forall k :: !SubAt(a, k)
  }

  /** The action's variables are apart from what they are merged into. */
  lemma {:induction false} ActionFacts(e: GoMap, s: Shape, g: Shape, d: Shape, action: string, a: Shape, vars: GoMap)
    requires Apart(Some(s), g, Some(d)) && e !in Foot(s) + Foot(g) + Foot(d)
    requires IsActionShape(a, vars, s, g, d, action, Foot(s) + Foot(g) + Foot(d) + {e})
    ensures var t := Under(e, Stripped(Layers(s, g, d)));
            && Aligned(t, a) && IsTree(t) && IsTree(a) && Touched(t, a) == {e} + ActionConflicts(s, g, d, action)
            && OptFoot(MetaShape(s, g, d)) + {s.node} !! Touched(t, a)
            && e !in KidsFoot(Laid(t, a))
            && ValueOf(t) == ValueOf(Stripped(Layers(s, g, d)))
  {
    var t := Under(e, Stripped(Layers(s, g, d)));
    AddFacts(e, s, g, d);
    ActionTouches(e, s, g, d, action, a, vars);
    TouchedInFoot(t, a);
    ActionApart(e, s, g, d, action, a, vars);
    ApartAligned(t, a);
    ActionNotBelow(t, a);
  }

  lemma ActionTouches(e: GoMap, s: Shape, g: Shape, d: Shape, action: string, a: Shape, vars: GoMap)
    requires IsActionShape(a, vars, s, g, d, action, Foot(s) + Foot(g) + Foot(d) + {e})
    ensures Touched(Under(e, Stripped(Layers(s, g, d))), a) == {e} + ActionConflicts(s, g, d, action)
  {
    LaidUnder(e, Stripped(Layers(s, g, d)), a);
    if NestedShape(MetaShape(s, g, d), ActionPath(action)).None? {
      assert TouchedBelow(Stripped(Layers(s, g, d)), a) == {};
    }
  }

  lemma ActionApart(e: GoMap, s: Shape, g: Shape, d: Shape, action: string, a: Shape, vars: GoMap)
    requires Apart(Some(s), g, Some(d)) && e !in Foot(s) + Foot(g) + Foot(d)
    requires IsActionShape(a, vars, s, g, d, action, Foot(s) + Foot(g) + Foot(d) + {e})
    ensures Foot(Under(e, Stripped(Layers(s, g, d)))) !! Foot(a)
  {
    AddFacts(e, s, g, d);
    if NestedShape(MetaShape(s, g, d), ActionPath(action)).Some? {
      NestedShapeInside(MetaShape(s, g, d).value, ActionPath(action));
    }
  }

  lemma {:induction false} ActionNotBelow(t: Shape, a: Shape)
    requires IsTree(t) && IsTree(a) && Foot(t) !! Foot(a)
    ensures t.node !in KidsFoot(Laid(t, a))
  {
    ApartAligned(t, a);
    LaidTree(t, a);
    TopNotBelow(Laid(t, a));
  }

  /** What has been built is the assembly with the dynamic variables as they were merged. */
  lemma {:induction false} ResultValue(s: Shape, g: Shape, d: Shape)
    requires Payload(s, g, d) && s.node != d.node
    ensures var p, r, last := Prune(s, g), Left(s, g, d), ValueOf(After(s, g, d));
            && OptValue(MetaShape(p, g, r)) == MetaRead(ValueOf(s), ValueOf(g), last)
            && ValueOf(Stripped(Layers(p, g, r))) == Fold(map[], [ValueOf(s), ValueOf(g), last]) - {META}
  {
    hide MetaShape, MetaRead, Fold, Merge, Payload, After, Prune, Left, Laid;
    var p, r := Prune(s, g), Left(s, g, d);
    LeftApart(s, g, d);
    MetaValue(p, g, r);
    MetaShared(s, g, d);
    LayersValue(s, g, After(s, g, d));
    assert Layers(p, g, r) == Layers(s, g, After(s, g, d));
    assert ValueOf(Stripped(Layers(p, g, r))) == ValueOf(Layers(p, g, r)) - {META};
  }

  lemma LayersValue(s: Shape, g: Shape, d: Shape)
    ensures ValueOf(Layers(s, g, d)) == Fold(map[], [ValueOf(s), ValueOf(g), ValueOf(d)])
  {
    LaidValue(s, g);
    LaidValue(Laid(s, g), d);
    MergeIntoEmpty(ValueOf(s));
    FoldThree(map[], ValueOf(s), ValueOf(g), ValueOf(d));
  }

  lemma MetaValue(s: Shape, g: Shape, d: Shape)
    ensures OptValue(MetaShape(s, g, d)) == MetaRead(ValueOf(s), ValueOf(g), ValueOf(d))
  {
    AliasNodeAt(s, g, d);
    AliasLevel(Some(s), g, Some(d));
    SubShapeValue(s, META);
    SubShapeValue(g, META);
    SubShapeValue(d, META);
    if SubAt(g, META) {
      AliasValue(SubShape(s, META), g.kids[META].shape, SubShape(d, META));
    }
  }

  lemma SubShapeValue(t: Shape, k: string)
    ensures OptValue(SubShape(t, k)) == SubMap(ValueOf(t), k)
  {
  }

  /** A map merged over its own merge with g leaves g as it is. */
  lemma {:induction false} MetaOfOwn(n: Vars, g: Vars)
    ensures MetaAfter(Some(n), g, Some(Merge(n, g))) == g
    decreases Obj(g)
  {
    forall k | k in g && g[k].Obj?
      ensures MetaAfter(SubMap(n, k), g[k].m, SubMap(Merge(n, g), k)) == g[k].m
    {
      if SubMap(n, k).Some? { MetaOfOwn(n[k].m, g[k].m); } else { MergeSelf(g[k].m); }
    }
  }

  /** The governor's settings are the same whether the shared maps are merged again or left out. */
  lemma MetaShared(s: Shape, g: Shape, d: Shape)
    requires Payload(s, g, d) && s.node != d.node
    ensures MetaRead(ValueOf(Prune(s, g)), ValueOf(g), ValueOf(Left(s, g, d)))
         == MetaRead(ValueOf(s), ValueOf(g), ValueOf(After(s, g, d)))
  {
    SubShapeValue(g, META);
    if SubAt(g, META) { MetaSharedAt(s, g, d, META); }
  }

  lemma {:induction false} MetaSharedAt(s: Shape, g: Shape, d: Shape, k: string)
    requires Payload(s, g, d) && s.node != d.node && SubAt(g, k)
    ensures MetaAfter(SubMap(ValueOf(Prune(s, g)), k), ValueOf(g.kids[k].shape), SubMap(ValueOf(Left(s, g, d)), k))
         == MetaAfter(SubMap(ValueOf(s), k), ValueOf(g.kids[k].shape), SubMap(ValueOf(After(s, g, d)), k))
    decreases d, 0
  {
    hide Payload, After, Prune, Left, MetaAfter, Merge, Laid;
    var a, p, r := After(s, g, d), Prune(s, g), Left(s, g, d);
    SubShapeValue(s, k);
    SubShapeValue(a, k);
    SubShapeValue(p, k);
    SubShapeValue(r, k);
    SharedKid(s, g, d, k);
    if AllSub(s, g, d, k) {
      var ks, kg, kd := s.kids[k].shape, g.kids[k].shape, d.kids[k].shape;
      PayloadBelow(s, g, d, k);
      if ks.node == kd.node {
        SameAfter(ks, kg, kd);
        MetaOfOwn(ValueOf(ks), ValueOf(kg));
        MetaOfNone(SubMap(ValueOf(p), k), ValueOf(kg));
      } else {
        MetaSharedBelow(ks, kg, kd);
      }
    } else {
      MetaOfNone(SubMap(ValueOf(p), k), ValueOf(g.kids[k].shape));
      MetaOfNone(SubMap(ValueOf(s), k), ValueOf(g.kids[k].shape));
    }
  }

  lemma {:induction false} MetaSharedBelow(s: Shape, g: Shape, d: Shape)
    requires Payload(s, g, d) && s.node != d.node
    ensures MetaAfter(Some(ValueOf(Prune(s, g))), ValueOf(g), Some(ValueOf(Left(s, g, d))))
         == MetaAfter(Some(ValueOf(s)), ValueOf(g), Some(ValueOf(After(s, g, d))))
    decreases d, 1
  {
    hide Payload, After, Prune, Left;
    forall k | SubAt(g, k)
      ensures MetaAfter(SubMap(ValueOf(Prune(s, g)), k), ValueOf(g.kids[k].shape), SubMap(ValueOf(Left(s, g, d)), k))
           == MetaAfter(SubMap(ValueOf(s), k), ValueOf(g.kids[k].shape), SubMap(ValueOf(After(s, g, d)), k))
    {
      MetaSharedAt(s, g, d, k);
    }
    assert forall k :: k in ValueOf(g) && ValueOf(g)[k].Obj? ==> SubAt(g, k) && ValueOf(g)[k].m == ValueOf(g.kids[k].shape);
  }

  lemma SameAfter(s: Shape, g: Shape, d: Shape)
    requires Payload(s, g, d) && s.node == d.node
    ensures ValueOf(After(s, g, d)) == Merge(ValueOf(s), ValueOf(g))
  {
    LaidValue(d, g);
  }

  lemma MetaOfNone(s: Option<Vars>, g: Vars)
    ensures MetaAfter(s, g, None) == g
  {
  }

  /** What is under one key of the governor's, in all the structures. */
  lemma SharedKid(s: Shape, g: Shape, d: Shape, k: string)
    requires Payload(s, g, d) && s.node != d.node && SubAt(g, k)
    ensures SubShape(Prune(s, g), k) ==
            if SubAt(s, k) then Some(Prune(s.kids[k].shape, g.kids[k].shape)) else None
    ensures SubShape(After(s, g, d), k) ==
            if AllSub(s, g, d, k) then Some(After(s.kids[k].shape, g.kids[k].shape, d.kids[k].shape)) else SubShape(d, k)
    ensures SubShape(Left(s, g, d), k) ==
            if !AllSub(s, g, d, k) then SubShape(d, k)
            else if s.kids[k].shape.node == d.kids[k].shape.node then None
            else Some(Left(s.kids[k].shape, g.kids[k].shape, d.kids[k].shape))
  {
    hide Payload;
    PruneShape(s, g, k);
    AfterShape(s, g, d, k);
    if AllSub(s, g, d, k) {
      LeftShape(s, g, d, k);
    } else {
      LeftOther(s, g, d, k);
    }
  }

  lemma PruneShape(s: Shape, g: Shape, k: string)
    requires SubAt(g, k)
    ensures SubShape(Prune(s, g), k) == if SubAt(s, k) then Some(Prune(s.kids[k].shape, g.kids[k].shape)) else None
  {
    if k in s.kids { assert Prune(s, g).kids[k] == PruneKid(s, g, k); }
  }

  lemma AfterShape(s: Shape, g: Shape, d: Shape, k: string)
    requires s.node != d.node
    ensures SubShape(After(s, g, d), k) ==
            if AllSub(s, g, d, k) then Some(After(s.kids[k].shape, g.kids[k].shape, d.kids[k].shape)) else SubShape(d, k)
  {
    if k in d.kids { assert After(s, g, d).kids[k] == AfterKid(s, g, d, k); }
  }

  lemma LeftShape(s: Shape, g: Shape, d: Shape, k: string)
    requires s.node != d.node && AllSub(s, g, d, k)
    ensures SubShape(Left(s, g, d), k) ==
            if s.kids[k].shape.node == d.kids[k].shape.node then None
            else Some(Left(s.kids[k].shape, g.kids[k].shape, d.kids[k].shape))
  {
    var t, a := Laid(s, g), After(s, g, d);
    assert t.kids[k] == LaidKid(s, g, k) && a.kids[k] == AfterKid(s, g, d, k);
    AfterNode(s.kids[k].shape, g.kids[k].shape, d.kids[k].shape);
    if !SameAt(t, a, k) { assert Rest(t, a).kids[k] == RestKid(t, a, k); }
  }

  lemma LeftOther(s: Shape, g: Shape, d: Shape, k: string)
    requires Payload(s, g, d) && s.node != d.node && SubAt(g, k) && !AllSub(s, g, d, k)
    ensures SubShape(Left(s, g, d), k) == SubShape(d, k)
  {
    hide Payload;
    if SubAt(d, k) {
      ApartAt(s, g, d, k);
      RestOfApart(g.kids[k].shape, d.kids[k].shape);
      LeftOtherKid(s, g, d, k);
    } else {
      var t, a := Laid(s, g), After(s, g, d);
      if k in d.kids { assert a.kids[k] == AfterKid(s, g, d, k); }
      if k in Rest(t, a).kids { assert Rest(t, a).kids[k] == RestKid(t, a, k); }
    }
  }

  lemma ApartAt(s: Shape, g: Shape, d: Shape, k: string)
    requires Payload(s, g, d) && SubAt(g, k) && SubAt(d, k)
    ensures Foot(g.kids[k].shape) !! Foot(d.kids[k].shape)
    ensures g.kids[k].shape.node != d.kids[k].shape.node
  {
    PartsAt(g, k);
    PartsAt(d, k);
    PartsAt(g.kids[k].shape, "");
    PartsAt(d.kids[k].shape, "");
  }

  lemma LeftOtherKid(s: Shape, g: Shape, d: Shape, k: string)
    requires s.node != d.node && SubAt(g, k) && SubAt(d, k) && !SubAt(s, k)
    requires g.kids[k].shape.node != d.kids[k].shape.node && Rest(g.kids[k].shape, d.kids[k].shape) == d.kids[k].shape
    ensures SubShape(Left(s, g, d), k) == SubShape(d, k)
  {
    var t, a := Laid(s, g), After(s, g, d);
    assert t.kids[k] == LaidKid(s, g, k) == g.kids[k];
    assert a.kids[k] == AfterKid(s, g, d, k) == d.kids[k];
    assert Rest(t, a).kids[k] == RestKid(t, a, k);
  }

  // ----------------------------------------------- when it is what is documented

  /** The variables computed, for the payload that looks like s, g and d on entry. */
  ghost function ComputedVars(s: Shape, g: Shape, d: Shape, action: string, st: Settings): Vars
  {
    var last := ValueOf(After(s, g, d));
    Assemble(ValueOf(s), ValueOf(g), last, MetaRead(ValueOf(s), ValueOf(g), last), action, st)
  }

  /** The documented ones, all of values on entry. */
  ghost function DocumentedVars(s: Shape, g: Shape, d: Shape, action: string, st: Settings): Vars
  {
    Assemble(ValueOf(s), ValueOf(g), ValueOf(d), SubMap(ValueOf(g), META), action, st)
  }

  /** The documented assembly is what is computed, for every callback and reference, exactly when
      the names read are those on entry and the variables agree up to the overrides. When the
      action's variables are those on entry too, that is when no shared map is disputed between
      the placement and the governor, but for what the action's variables cover. */
  lemma {:induction false} DocumentedIff(s: Shape, g: Shape, d: Shape, action: string)
    requires Aligned(s, d) && s.node != d.node
    ensures var read := MetaRead(ValueOf(s), ValueOf(g), ValueOf(After(s, g, d)));
            var entry := SubMap(ValueOf(g), META);
            var mine, documented := ActionExtraVars(read, action), ActionExtraVars(entry, action);
            && ((forall st :: ComputedVars(s, g, d, action, st) == DocumentedVars(s, g, d, action, st)) <==>
                  && SameNames(read, entry)
                  && Merge(Computed(s, g, d) - {META}, mine) == Merge(Layered(s, g, d) - {META}, documented))
            && (mine == documented ==>
                  ((forall st :: ComputedVars(s, g, d, action, st) == DocumentedVars(s, g, d, action, st)) <==>
                     SameNames(read, entry) && UndisputedBut(s, g, d, mine, {META})))
  {
    hide Merge, MetaRead, SameNames, ActionExtraVars, WithOverrides, Computed, Layered, UndisputedBut, After;
    var last := ValueOf(After(s, g, d));
    var read := MetaRead(ValueOf(s), ValueOf(g), last);
    var entry := SubMap(ValueOf(g), META);
    var mine, documented := ActionExtraVars(read, action), ActionExtraVars(entry, action);
    var x, y := Merge(Computed(s, g, d) - {META}, mine), Merge(Layered(s, g, d) - {META}, documented);
    var uuid := StringAt(ValueOf(s), "uuid");
    FoldedLayers(s, g, d);
    forall st
      ensures ComputedVars(s, g, d, action, st) == WithOverrides(x, read, st, uuid)
      ensures DocumentedVars(s, g, d, action, st) == WithOverrides(y, entry, st, uuid)
    {
    }
    SettingsDecide(x, read, y, entry, uuid);
    if mine == documented {
      UndisputedButIff(s, g, d, mine, {META});
    }
  }

  lemma FoldedLayers(s: Shape, g: Shape, d: Shape)
    ensures Fold(map[], [ValueOf(s), ValueOf(g), ValueOf(After(s, g, d))]) == Computed(s, g, d)
    ensures Fold(map[], [ValueOf(s), ValueOf(g), ValueOf(d)]) == Layered(s, g, d)
  {
    MergeIntoEmpty(ValueOf(s));
    FoldThree(map[], ValueOf(s), ValueOf(g), ValueOf(After(s, g, d)));
    FoldThree(map[], ValueOf(s), ValueOf(g), ValueOf(d));
  }

  /** A map n that job variables and dynamic variables share, under a map of the governor's: its
      entries are overridden by the governor's, where the documented order has them last. */
  lemma {:induction false} SharedMapFollowsGovernor(s: Shape, g: Shape, d: Shape, k: string)
    requires Aligned(s, d) && s.node != d.node && AllSub(s, g, d, k)
    requires s.kids[k].shape.node == d.kids[k].shape.node
    ensures var n, governor := ValueOf(d.kids[k].shape), ValueOf(g.kids[k].shape);
            && k in Computed(s, g, d) && Computed(s, g, d)[k] == Obj(Merge(n, governor))
            && k in Layered(s, g, d) && Layered(s, g, d)[k] == Obj(Merge(Merge(n, governor), n))
  {
    var ks, kg := s.kids[k].shape, g.kids[k].shape;
    ValuesUnder(s, g, d, k);
    AlignedAt(s, d, k);
    LaidValue(ks, kg);
    MergeSelf(Merge(ValueOf(ks), ValueOf(kg)));
  }

  /** A placement whose additional variables hold x.a = 1 and a governor that says x.a = 2: the
      dynamic variables come last, and still x.a is 2. */
  lemma {:induction false} PlacementLosesToGovernor(jobVars: GoMap, governor: GoMap, dynamic: GoMap, shared: GoMap, own: GoMap)
    requires jobVars != dynamic && jobVars != shared && dynamic != shared
    ensures var s := Shape(jobVars, map["x" := Sub(Shape(shared, map["a" := Leaf(Num(1))]))]);
            var d := Shape(dynamic, map["x" := Sub(Shape(shared, map["a" := Leaf(Num(1))]))]);
            var g := Shape(governor, map["x" := Sub(Shape(own, map["a" := Leaf(Num(2))]))]);
            && Computed(s, g, d)["x"] == Obj(map["a" := Num(2)])
            && Layered(s, g, d)["x"] == Obj(map["a" := Num(1)])
  {
    var n, o := Shape(shared, map["a" := Leaf(Num(1))]), Shape(own, map["a" := Leaf(Num(2))]);
    var s, d, g := Holding(jobVars, "x", n), Holding(dynamic, "x", n), Holding(governor, "x", o);
    LeafLevel(shared, "a", Num(1));
    LeafLevel(own, "a", Num(2));
    HoldersAligned(jobVars, dynamic, "x", n);
    SharedMapFollowsGovernor(s, g, d, "x");
    MergeSingle("a", Num(1), Num(2));
    MergeSingle("a", Num(2), Num(1));
  }

  ghost function Holding(top: GoMap, k: string, n: Shape): Shape
  {
    Shape(top, map[k := Sub(n)])
  }

  lemma MergeSingle(k: string, x: Data, y: Data)
    ensures Merge(map[k := x], map[k := y]) == map[k := y]
  {
  }

  /** Two maps that hold one and the same. */
  lemma HoldersAligned(top: GoMap, other: GoMap, k: string, n: Shape)
    requires KidsFoot(n) == {} && top != other && top != n.node && other != n.node
    ensures Aligned(Holding(top, k, n), Holding(other, k, n))
  {
    OneLevel(top, k, n);
    OneLevel(other, k, n);
  }

  lemma OneLevel(top: GoMap, k: string, n: Shape)
    requires KidsFoot(n) == {}
    ensures Foot(Shape(top, map[k := Sub(n)])) == {top, n.node}
    ensures forall j :: FootAt(Shape(top, map[k := Sub(n)]), j) == if j == k then {n.node} else {}
  {
    var t := Shape(top, map[k := Sub(n)]);
    PartsAt(t, k);
    PartsAt(n, "");
    forall m | m in KidsFoot(t) ensures m == n.node {
      var j := KeyOfMap(t, m);
    }
  }

  lemma LeafLevel(top: GoMap, k: string, j: Data)
    ensures KidsFoot(Shape(top, map[k := Leaf(j)])) == {} && ValueOf(Shape(top, map[k := Leaf(j)])) == map[k := j]
  {
    assert Below(Shape(top, map[k := Leaf(j)])) == {};
  }
}
