/** The sandboxes request: what validation admits, and what is then sent.

    shown stands for fmt.Sprint, of which only its value on strings is used. */
module SandboxRequest {
  import opened Json
  import SandboxVars

  datatype Error =
    | NoSandbox
    | NotADict
    | NoKind
    | DuplicateVar(name: string)
    | MissingVar(kind: string)
    | AnnotationsNotADict(kind: string)
    | AnnotationNotAString(kind: string)
    | FieldNotADict(field: string, kind: string)
    | FieldNotAString(field: string, kind: string)

  ghost predicate Faithful(shown: Json -> string)
  {
    forall s: string :: shown(Str(s)) == s
  }

  /** isTruthy: a number is truthy, zero too. */
  predicate Truthy(v: Json)
  {
    match v
    case Null => false
    case Bool(b) => b
    case Str(s) => s != ""
    case _ => true
  }

  predicate HasVar(m: Vars)
  {
    "var" in m && Truthy(m["var"])
  }

  predicate AllStrings(m: Vars)
  {
    forall k :: k in m ==> m[k].Str?
  }

  predicate AllStringsOrBools(m: Vars)
  {
    forall k :: k in m ==> m[k].Str? || m[k].Bool?
  }

  // ----- what a request has to be

  /** An entry on its own. */
  predicate WellTyped(s: Json)
  {
    && s.Obj? && "kind" in s.m
    && ("annotations" in s.m ==> s.m["annotations"].Obj? && AllStrings(s.m["annotations"].m))
    && FieldWellTyped(s.m, "cloud_selector") && FieldWellTyped(s.m, "cloud_preference")
  }

  predicate FieldWellTyped(m: Vars, field: string)
  {
    field in m ==> m[field].Obj? && AllStringsOrBools(m[field].m)
  }

  /** Two entries beside each other: distinct variables, or at most one of the kind without one. */
  predicate Compatible(a: Json, b: Json, shown: Json -> string)
    requires a.Obj? && b.Obj? && "kind" in a.m && "kind" in b.m
  {
    if HasVar(a.m) then HasVar(b.m) ==> shown(a.m["var"]) != shown(b.m["var"])
    else HasVar(b.m) || shown(a.m["kind"]) != shown(b.m["kind"])
  }

  predicate WellFormed(sandboxes: seq<Json>, shown: Json -> string)
  {
    && (forall i :: 0 <= i < |sandboxes| ==> WellTyped(sandboxes[i]))
    && (forall i, j :: 0 <= i < j < |sandboxes| ==> Compatible(sandboxes[i], sandboxes[j], shown))
  }

  /** The fault of s behind entries that have none. */
  function Fault(before: seq<Json>, s: Json, shown: Json -> string): Option<Error>
  {
    if !s.Obj? then Some(NotADict)
    else if "kind" !in s.m then Some(NoKind)
    else
      var kind := shown(s.m["kind"]);
      if HasVar(s.m) && shown(s.m["var"]) in TakenVars(before, shown) then Some(DuplicateVar(shown(s.m["var"])))
      else if !HasVar(s.m) && kind in TakenKinds(before, shown) then Some(MissingVar(kind))
      else if AnnotationsFault(s.m, kind).Some? then AnnotationsFault(s.m, kind)
      else if FieldFault(s.m, "cloud_selector", kind).Some? then FieldFault(s.m, "cloud_selector", kind)
      else FieldFault(s.m, "cloud_preference", kind)
  }

  function TakenVars(before: seq<Json>, shown: Json -> string): set<string>
  {
    set i | 0 <= i < |before| && before[i].Obj? && HasVar(before[i].m) :: shown(before[i].m["var"])
  }

  function TakenKinds(before: seq<Json>, shown: Json -> string): set<string>
  {
    set i | 0 <= i < |before| && before[i].Obj? && "kind" in before[i].m && !HasVar(before[i].m) :: shown(before[i].m["kind"])
  }

  function AnnotationsFault(m: Vars, kind: string): Option<Error>
  {
    if "annotations" !in m then None
    else if !m["annotations"].Obj? then Some(AnnotationsNotADict(kind))
    else if !AllStrings(m["annotations"].m) then Some(AnnotationNotAString(kind))
    else None
  }

  function FieldFault(m: Vars, field: string, kind: string): Option<Error>
  {
    if field !in m then None
    else if !m[field].Obj? then Some(FieldNotADict(field, kind))
    else if !AllStringsOrBools(m[field].m) then Some(FieldNotAString(field, kind))
    else None
  }

  /** An entry behind well formed ones has no fault exactly when it fits. */
  lemma NoFaultIff(before: seq<Json>, s: Json, shown: Json -> string)
    requires WellFormed(before, shown)
    ensures Fault(before, s, shown).None? <==> WellFormed(before + [s], shown)
  {
    var all := before + [s];
    assert forall i :: 0 <= i < |before| ==> all[i] == before[i];
    assert all[|before|] == s;
    if s.Obj? && "kind" in s.m && WellTyped(s) {
      if Fault(before, s, shown).Some? {
        if HasVar(s.m) {
          var i :| 0 <= i < |before| && before[i].Obj? && HasVar(before[i].m) && shown(before[i].m["var"]) == shown(s.m["var"]);
          assert !Compatible(all[i], all[|before|], shown);
        } else {
          var i :| 0 <= i < |before| && before[i].Obj? && "kind" in before[i].m && !HasVar(before[i].m)
                   && shown(before[i].m["kind"]) == shown(s.m["kind"]);
          assert !Compatible(all[i], all[|before|], shown);
        }
      } else {
        forall i | 0 <= i < |before| ensures Compatible(all[i], all[|before|], shown) {
          assert WellTyped(before[i]);
        }
      }
    } else {
      assert !WellTyped(all[|before|]);
    }
  }

  // ----- validation, with its two mutable trackers

  class Trackers {
    var mainFound: map<string, bool>
    var targetVars: map<string, bool>

    constructor ()
      ensures mainFound == map[] && targetVars == map[]
    {
      mainFound := map[];
      targetVars := map[];
    }

    /** The trackers hold what the entries so far have taken. */
    ghost predicate Track(before: seq<Json>, shown: Json -> string)
      reads this
    {
      && (forall k :: k in mainFound && mainFound[k] <==> k in TakenKinds(before, shown))
      && (forall k :: k in targetVars && targetVars[k] <==> k in TakenVars(before, shown))
    }

    /** validateSandboxVar. */
    method ValidateSandboxVar(req: Vars, kind: string, shown: Json -> string) returns (err: Option<Error>)
      modifies this
      ensures err == if HasVar(req) then
                       (if shown(req["var"]) in old(targetVars) && old(targetVars)[shown(req["var"])]
                        then Some(DuplicateVar(shown(req["var"]))) else None)
                     else if kind in old(mainFound) && old(mainFound)[kind] then Some(MissingVar(kind)) else None
      ensures targetVars == if HasVar(req) && err.None? then old(targetVars)[shown(req["var"]) := true] else old(targetVars)
      ensures mainFound == if !HasVar(req) && err.None? then old(mainFound)[kind := true] else old(mainFound)
    {
      if "var" in req && Truthy(req["var"]) {
        var varName := shown(req["var"]);
        if varName in targetVars && targetVars[varName] {
          return Some(DuplicateVar(varName));
        }
        targetVars := targetVars[varName := true];
        return None;
      }
      if kind in mainFound && mainFound[kind] {
        return Some(MissingVar(kind));
      }
      mainFound := mainFound[kind := true];
      return None;
    }

    /** validateSandbox. */
    method ValidateSandbox(s: Json, ghost before: seq<Json>, shown: Json -> string) returns (err: Option<Error>)
      requires Track(before, shown)
      modifies this
      ensures err == Fault(before, s, shown)
      ensures err.None? ==> Track(before + [s], shown)
    {
      if !s.Obj? {
        return Some(NotADict);
      }
      var req := s.m;
      if "kind" !in req {
        return Some(NoKind);
      }
      var kind := shown(req["kind"]);
      TakenStep(before, s, shown);
      err := ValidateSandboxVar(req, kind, shown);
      if err.Some? {
        return;
      }
      assert Track(before + [s], shown);
      err := AnnotationsFault(req, kind);
      if err.Some? {
        return;
      }
      err := FieldFault(req, "cloud_selector", kind);
      if err.Some? {
        return;
      }
      err := FieldFault(req, "cloud_preference", kind);
    }
  }

  lemma TakenStep(before: seq<Json>, s: Json, shown: Json -> string)
    requires s.Obj? && "kind" in s.m
    ensures TakenVars(before + [s], shown)
         == TakenVars(before, shown) + (if HasVar(s.m) then {shown(s.m["var"])} else {})
    ensures TakenKinds(before + [s], shown)
         == TakenKinds(before, shown) + (if HasVar(s.m) then {} else {shown(s.m["kind"])})
  {
    var all := before + [s];
    assert all[|before|] == s;
    assert forall i :: 0 <= i < |before| ==> all[i] == before[i];
    if HasVar(s.m) {
      assert shown(all[|before|].m["var"]) in TakenVars(all, shown);
    } else {
      assert shown(all[|before|].m["kind"]) in TakenKinds(all, shown);
    }
  }

  /** OK (None) exactly for a request that is not empty and well formed; otherwise the fault
      of the first entry that does not fit behind those in front of it. */
  method ValidateSandboxesRequest(sandboxes: seq<Json>, shown: Json -> string) returns (err: Option<Error>)
    ensures err.None? <==> sandboxes != [] && WellFormed(sandboxes, shown)
    ensures sandboxes == [] ==> err == Some(NoSandbox)
    ensures sandboxes != [] && err.Some? ==>
      exists i :: 0 <= i < |sandboxes| && WellFormed(sandboxes[..i], shown) && err == Fault(sandboxes[..i], sandboxes[i], shown)
  {
    if |sandboxes| == 0 {
      return Some(NoSandbox);
    }
    var trackers := new Trackers();
    for i := 0 to |sandboxes|
      invariant trackers.Track(sandboxes[..i], shown)
      invariant WellFormed(sandboxes[..i], shown)
    {
      assert sandboxes[..i] + [sandboxes[i]] == sandboxes[..i + 1];
      NoFaultIff(sandboxes[..i], sandboxes[i], shown);
      err := trackers.ValidateSandbox(sandboxes[i], sandboxes[..i], shown);
      if err.Some? {
        PrefixWellFormed(sandboxes, i + 1, shown);
        return;
      }
    }
    assert sandboxes[..|sandboxes|] == sandboxes;
    err := None;
  }

  lemma PrefixWellFormed(sandboxes: seq<Json>, n: nat, shown: Json -> string)
    requires n <= |sandboxes|
    ensures WellFormed(sandboxes, shown) ==> WellFormed(sandboxes[..n], shown)
  {
  }

  // ----- what is sent

  /** normalizeBoolToYesNo. */
  function Normalized(m: Vars, field: string): Vars
  {
    if field in m && m[field].Obj? then
      m[field := Obj(map k | k in m[field].m :: YesNo(m[field].m[k]))]
    else m
  }

  function YesNo(v: Json): Json
  {
    if v.Bool? then Str(if v.b then "yes" else "no") else v
  }

  function WithString(ann: Vars, m: Vars, k: string): Vars
  {
    if StringAt(m, k) != "" then ann[k := m[k]] else ann
  }

  /** copyWithInjectedAnnotations. */
  function Injected(m: Vars): Vars
  {
    var ann := if SubMap(m, "annotations").Some? then m["annotations"].m else map[];
    var ann := WithString(WithString(ann, m, "var"), m, "namespace_suffix");
    var copied := if |ann| > 0 then m["annotations" := Obj(ann)] else m;
    Normalized(Normalized(copied, "cloud_selector"), "cloud_preference")
  }

  method InjectVarAnnotations(sandboxes: seq<Json>) returns (result: seq<Json>)
    ensures |result| == |sandboxes|
    ensures forall i :: 0 <= i < |sandboxes| ==>
              result[i] == if sandboxes[i].Obj? then Obj(Injected(sandboxes[i].m)) else sandboxes[i]
  {
    result := [];
    for i := 0 to |sandboxes|
      invariant |result| == i
      invariant forall j :: 0 <= j < i ==>
                  result[j] == if sandboxes[j].Obj? then Obj(Injected(sandboxes[j].m)) else sandboxes[j]
    {
      result := result + [if sandboxes[i].Obj? then Obj(Injected(sandboxes[i].m)) else sandboxes[i]];
    }
  }

  /** The variable asked for is the one that extraction later reads from the annotations;
      an entry without a string variable keeps the one its own annotations name. */
  lemma VarComesBack(m: Vars)
    ensures SandboxVars.VarName(Injected(m)) == if StringAt(m, "var") != "" then StringAt(m, "var") else SandboxVars.VarName(m)
  {
    var start := if SubMap(m, "annotations").Some? then m["annotations"].m else map[];
    var ann := WithString(WithString(start, m, "var"), m, "namespace_suffix");
    assert "var" != "namespace_suffix" && "annotations" != "cloud_selector" && "annotations" != "cloud_preference";
    assert StringAt(ann, "var") == if StringAt(m, "var") != "" then StringAt(m, "var") else StringAt(start, "var");
    if |ann| > 0 {
      assert Injected(m)["annotations"] == Obj(ann);
    } else {
      assert ann == map[];
      assert "var" !in ann;
    }
  }

  /** In an admitted request the string variables stay distinct where extraction reads them. */
  lemma StringVarsStayDistinct(sandboxes: seq<Json>, i: nat, j: nat, shown: Json -> string)
    requires WellFormed(sandboxes, shown) && Faithful(shown)
    requires i < j < |sandboxes|
    requires StringAt(sandboxes[i].m, "var") != "" && StringAt(sandboxes[j].m, "var") != ""
    ensures SandboxVars.VarName(Injected(sandboxes[i].m)) != SandboxVars.VarName(Injected(sandboxes[j].m))
  {
    assert Compatible(sandboxes[i], sandboxes[j], shown);
    VarComesBack(sandboxes[i].m);
    VarComesBack(sandboxes[j].m);
  }

  /** Two entries share their variable exactly when one of them takes it from its own
      annotations, or both go to "main": those the validation does not look at. */
  lemma {:induction false} VarsCollideIff(sandboxes: seq<Json>, i: nat, j: nat, shown: Json -> string)
    requires WellFormed(sandboxes, shown) && Faithful(shown)
    requires i < j < |sandboxes|
    ensures SandboxVars.VarName(Injected(sandboxes[i].m)) == SandboxVars.VarName(Injected(sandboxes[j].m)) <==>
              Asked(sandboxes[i].m) == Asked(sandboxes[j].m)
              && (StringAt(sandboxes[i].m, "var") == "" || StringAt(sandboxes[j].m, "var") == "")
  {
    VarComesBack(sandboxes[i].m);
    VarComesBack(sandboxes[j].m);
    if StringAt(sandboxes[i].m, "var") != "" && StringAt(sandboxes[j].m, "var") != "" {
      StringVarsStayDistinct(sandboxes, i, j, shown);
    }
  }

  /** The variable an entry names: its own, else that of its annotations, else "main". */
  function Asked(m: Vars): string
  {
    if StringAt(m, "var") != "" then StringAt(m, "var") else SandboxVars.VarName(m)
  }

  /** What is sent for an admitted entry holds only strings where the API wants strings. */
  lemma SentAsStrings(s: Json)
    requires WellTyped(s)
    ensures var sent := Injected(s.m);
            && (forall k :: k in {"annotations", "cloud_selector", "cloud_preference"} && k in sent ==>
                  sent[k].Obj? && AllStrings(sent[k].m))
            && "kind" in sent && sent["kind"] == s.m["kind"]
  {
    var m := s.m;
    var start := if SubMap(m, "annotations").Some? then m["annotations"].m else map[];
    var ann := WithString(WithString(start, m, "var"), m, "namespace_suffix");
    assert AllStrings(ann);
    var copied := if |ann| > 0 then m["annotations" := Obj(ann)] else m;
    NormalizedStrings(copied, "cloud_selector", "cloud_preference");
    NormalizedStrings(Normalized(copied, "cloud_selector"), "cloud_preference", "cloud_selector");
    assert "annotations" != "cloud_selector" && "annotations" != "cloud_preference";
    assert "kind" != "annotations" && "kind" != "cloud_selector" && "kind" != "cloud_preference";
  }

  lemma NormalizedStrings(m: Vars, field: string, other: string)
    requires field != other
    ensures Normalized(m, field).Keys == m.Keys
    ensures FieldWellTyped(m, field) && field in m ==>
              Normalized(m, field)[field].Obj? && AllStrings(Normalized(m, field)[field].m)
    ensures forall k :: k in m && k != field ==> Normalized(m, field)[k] == m[k]
    ensures other in m ==> Normalized(m, field)[other] == m[other]
  {
  }
}
