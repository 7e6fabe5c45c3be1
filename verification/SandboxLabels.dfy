/** The labels that a placement puts on its subject: "sandbox" and one per resource. */
module SandboxLabels {
  import opened Json
  import opened SandboxVars

  type Labels = map<string, string>

  // ----- decimal numerals, as fmt's %d writes them

  predicate IsDigit(c: char)
  {
    '0' <= c <= '9'
  }

  function Digit(n: nat): (c: char)
    requires n < 10
    ensures IsDigit(c)
  {
    ('0' as int + n) as char
  }

  function Decimal(n: nat): (s: string)
    ensures s != [] && forall i :: 0 <= i < |s| ==> IsDigit(s[i])
  {
    if n < 10 then [Digit(n)] else Decimal(n / 10) + [Digit(n % 10)]
  }

  function ValueOf(s: string): int
  {
    if s == [] then 0 else 10 * ValueOf(s[..|s| - 1]) + (s[|s| - 1] as int - '0' as int)
  }

  lemma {:induction false} DecimalRoundTrip(n: nat)
    ensures ValueOf(Decimal(n)) == n
  {
    if n >= 10 {
      DecimalRoundTrip(n / 10);
      assert Decimal(n)[..|Decimal(n)| - 1] == Decimal(n / 10);
    } else {
      assert Decimal(n)[..0] == [];
    }
  }

  predicate EndsInDigit(s: string)
  {
    s != [] && IsDigit(s[|s| - 1])
  }

  lemma NotLonger(a: string, i: nat, b: string, j: nat)
    requires !EndsInDigit(b)
    requires a + Decimal(i) == b + Decimal(j)
    ensures |b| <= |a|
  {
    var s := a + Decimal(i);
    assert forall k :: |a| <= k < |s| ==> IsDigit(s[k]);
    assert b == s[..|b|];
  }

  /** A name that does not end in a digit and a number can be read back from their concatenation. */
  lemma NumberedInjective(a: string, i: nat, b: string, j: nat)
    requires !EndsInDigit(a) && !EndsInDigit(b)
    requires a + Decimal(i) == b + Decimal(j)
    ensures a == b && i == j
  {
    NotLonger(a, i, b, j);
    NotLonger(b, j, a, i);
    var s, t := a + Decimal(i), b + Decimal(j);
    assert a == s[..|a|] && b == t[..|b|];
    assert Decimal(i) == s[|a|..] && Decimal(j) == t[|b|..];
    DecimalRoundTrip(i);
    DecimalRoundTrip(j);
  }

  lemma NumberedEndsInDigit(a: string, i: nat)
    ensures EndsInDigit(a + Decimal(i))
  {
    var s := a + Decimal(i);
    assert s[|s| - 1] == Decimal(i)[|Decimal(i)| - 1];
  }

  // ----- sanitizeKind

  predicate IsAlphanumeric(c: char)
  {
    'a' <= c <= 'z' || 'A' <= c <= 'Z' || IsDigit(c)
  }

  function Sanitized(kind: string): string
  {
    if kind == [] then []
    else Sanitized(kind[..|kind| - 1]) + (if IsAlphanumeric(kind[|kind| - 1]) then [kind[|kind| - 1]] else [])
  }

  /** Bytes outside ASCII are dropped one by one, which drops the characters they encode. */
  method SanitizeKind(kind: string) returns (r: string)
    ensures r == Sanitized(kind)
  {
    r := [];
    for i := 0 to |kind|
      invariant r == Sanitized(kind[..i])
    {
      assert kind[..i + 1][..i] == kind[..i];
      if IsAlphanumeric(kind[i]) {
        r := r + [kind[i]];
      }
    }
    assert kind[..|kind|] == kind;
  }

  // ----- the labels of two or more resources

  function KindLabel(res: Vars): string
  {
    Sanitized(StringOr(res, "kind", "none"))
  }

  function Name(res: Vars): string
  {
    StringOr(res, "name", "unknown")
  }

  /** The labels so far, the next number, and the kind label each resource was given. */
  datatype Labelling = Labelling(labels: Labels, increment: nat, given: seq<string>)

  function WithSandbox(labels: Labels, name: string): Labels
  {
    if "sandbox" !in labels || labels["sandbox"] == "" then labels["sandbox" := name] else labels
  }

  function LabelFor(l: Labelling, kind: string, name: string): string
  {
    if kind in WithSandbox(l.labels, name) then kind + Decimal(l.increment) else kind
  }

  function LabelOne(l: Labelling, kind: string, name: string): Labelling
  {
    var labels := WithSandbox(l.labels, name);
    Labelling(labels[LabelFor(l, kind, name) := name],
              if kind in labels then l.increment + 1 else l.increment,
              l.given + [LabelFor(l, kind, name)])
  }

  function Labelled(resources: seq<Vars>): Labelling
  {
    if resources == [] then Labelling(map[], 2, [])
    else LabelOne(Labelled(resources[..|resources| - 1]), KindLabel(resources[|resources| - 1]), Name(resources[|resources| - 1]))
  }

  function ExtractedLabels(resources: seq<Json>): Labels
  {
    if resources == [] then map[]
    else if |resources| == 1 then
      (if resources[0].Obj? then map["sandbox" := Name(resources[0].m), KindLabel(resources[0].m) := Name(resources[0].m)]
       else map[])
    else Labelled(Maps(resources)).labels
  }

  method ExtractSandboxLabels(placement: Vars) returns (labels: Labels)
    ensures labels == ExtractedLabels(Resources(placement))
  {
    if "resources" !in placement || !placement["resources"].Arr? || placement["resources"].items == [] {
      return map[];
    }
    var resources := placement["resources"].items;
    if |resources| == 1 {
      if !resources[0].Obj? {
        return map[];
      }
      var kind := SanitizeKind(StringOr(resources[0].m, "kind", "none"));
      var name := StringOr(resources[0].m, "name", "unknown");
      return map["sandbox" := name, kind := name];
    }
    labels := map[];
    var increment := 2;
    ghost var given: seq<string> := [];
    for i := 0 to |resources|
      invariant Labelling(labels, increment, given) == Labelled(Maps(resources[..i]))
    {
      assert resources[..i + 1][..i] == resources[..i];
      if resources[i].Obj? {
        var res := resources[i].m;
        assert Maps(resources[..i + 1]) == Maps(resources[..i]) + [res];
        assert Maps(resources[..i + 1])[..|Maps(resources[..i])|] == Maps(resources[..i]);
        given := given + [LabelFor(Labelling(labels, increment, given), KindLabel(res), Name(res))];
        var kind := SanitizeKind(StringOr(res, "kind", "none"));
        var name := StringOr(res, "name", "unknown");
        if "sandbox" !in labels || labels["sandbox"] == "" {
          labels := labels["sandbox" := name];
        }
        if kind in labels {
          labels := labels[kind + Decimal(increment) := name];
          increment := increment + 1;
        } else {
          labels := labels[kind := name];
        }
      } else {
        assert Maps(resources[..i + 1]) == Maps(resources[..i]);
      }
    }
    assert resources[..|resources|] == resources;
  }

  // ----- what is lost

  /** The generated label for the last resource is one that is there already. */
  predicate LastClashes(resources: seq<Vars>)
    requires resources != []
  {
    var before := Labelled(resources[..|resources| - 1]);
    var res := resources[|resources| - 1];
    LabelFor(before, KindLabel(res), Name(res)) in WithSandbox(before.labels, Name(res))
  }

  function Clashes(resources: seq<Vars>): nat
  {
    if resources == [] then 0
    else Clashes(resources[..|resources| - 1]) + (if LastClashes(resources) then 1 else 0)
  }

  /** One label for "sandbox" and one per resource, less one for every clash. */
  lemma {:induction false} LabelCount(resources: seq<Vars>)
    ensures |Labelled(resources).labels| == (if resources == [] then 0 else 1 + |resources| - Clashes(resources))
    ensures resources != [] ==> "sandbox" in Labelled(resources).labels
    decreases |resources|
  {
    if resources != [] {
      var last := |resources| - 1;
      LabelCount(resources[..last]);
      var before := Labelled(resources[..last]);
      var held := WithSandbox(before.labels, Name(resources[last]));
      CountInsert(before.labels, "sandbox", Name(resources[last]));
      CountInsert(held, LabelFor(before, KindLabel(resources[last]), Name(resources[last])), Name(resources[last]));
    }
  }

  lemma CountInsert(m: Labels, k: string, v: string)
    ensures |m[k := v]| == if k in m then |m| else |m| + 1
  {
    assert m[k := v].Keys == m.Keys + {k};
    assert |m[k := v].Keys| == |m[k := v]| && |m.Keys| == |m|;
  }

  predicate Distinct(s: seq<string>)
  {
    forall i, j :: 0 <= i < j < |s| ==> s[i] != s[j]
  }

  /** Each resource owns one label, which holds its name, and there are no others. */
  ghost predicate Lossless(labels: Labels, given: seq<string>, resources: seq<Vars>)
  {
    && |given| == |resources|
    && Distinct(given)
    && (forall i :: 0 <= i < |given| ==> given[i] != "sandbox" && given[i] in labels && labels[given[i]] == Name(resources[i]))
    && (forall k :: k in labels ==> k in given || k == "sandbox")
  }

  lemma {:induction false} LosslessWithoutClash(resources: seq<Vars>)
    requires Clashes(resources) == 0
    ensures Lossless(Labelled(resources).labels, Labelled(resources).given, resources)
    ensures resources != [] ==> "sandbox" in Labelled(resources).labels
    decreases |resources|
  {
    if resources != [] {
      hide Lossless, WithSandbox, LabelFor, KindLabel, Name;
      var last := |resources| - 1;
      LosslessWithoutClash(resources[..last]);
      var before := Labelled(resources[..last]);
      LosslessStep(before.labels, before.given, resources[..last], resources[last],
                   LabelFor(before, KindLabel(resources[last]), Name(resources[last])));
      assert resources[..last] + [resources[last]] == resources;
    }
  }

  lemma LosslessStep(labels: Labels, given: seq<string>, resources: seq<Vars>, res: Vars, chosen: string)
    requires Lossless(labels, given, resources)
    requires chosen !in WithSandbox(labels, Name(res))
    ensures Lossless(WithSandbox(labels, Name(res))[chosen := Name(res)], given + [chosen], resources + [res])
    ensures "sandbox" in WithSandbox(labels, Name(res))
  {
    var after := WithSandbox(labels, Name(res))[chosen := Name(res)];
    forall i | 0 <= i < |given|
      ensures given[i] != chosen && given[i] in after && after[given[i]] == Name(resources[i])
    {
      assert given[i] in labels;
    }
    assert (given + [chosen])[|given|] == chosen;
  }

  predicate NoKindEndsInDigit(resources: seq<Vars>)
  {
    forall i :: 0 <= i < |resources| ==> !EndsInDigit(KindLabel(resources[i]))
  }

  /** A label is a kind as it stands, or a kind with a number that was handed out. */
  ghost predicate Readable(name: string, increment: nat)
  {
    !EndsInDigit(name) || exists kind, n: nat | n < increment :: !EndsInDigit(kind) && name == kind + Decimal(n)
  }

  lemma {:induction false} AllReadable(resources: seq<Vars>)
    requires NoKindEndsInDigit(resources)
    ensures Clashes(resources) == 0
    ensures forall k :: k in Labelled(resources).labels ==> Readable(k, Labelled(resources).increment)
    decreases |resources|
  {
    if resources != [] {
      var last := |resources| - 1;
      var res := resources[last];
      AllReadable(resources[..last]);
      var before, after := Labelled(resources[..last]), Labelled(resources);
      var chosen := LabelFor(before, KindLabel(res), Name(res));
      assert !EndsInDigit("sandbox");
      assert !EndsInDigit(KindLabel(res));
      if KindLabel(res) in WithSandbox(before.labels, Name(res)) {
        NumberedEndsInDigit(KindLabel(res), before.increment);
        if chosen in before.labels {
          var kind, n: nat :| n < before.increment && !EndsInDigit(kind) && chosen == kind + Decimal(n);
          NumberedInjective(kind, n, KindLabel(res), before.increment);
        }
        assert Readable(chosen, after.increment);
      }
      forall k | k in after.labels ensures Readable(k, after.increment) {
        if k in before.labels && EndsInDigit(k) {
          var kind, n: nat :| n < before.increment && !EndsInDigit(kind) && k == kind + Decimal(n);
          assert n < after.increment;
        }
      }
    }
  }

  /** When no sanitized kind ends in a digit nothing is lost, whatever kinds are repeated
      and even when a kind is empty or is "sandbox" itself. */
  lemma {:induction false} LabelsLoseNothing(resources: seq<Json>)
    requires |resources| >= 2 && NoKindEndsInDigit(Maps(resources))
    ensures Lossless(ExtractedLabels(resources), Labelled(Maps(resources)).given, Maps(resources))
    ensures Maps(resources) != [] ==> |ExtractedLabels(resources)| == 1 + |Maps(resources)|
  {
    AllReadable(Maps(resources));
    LosslessWithoutClash(Maps(resources));
    LabelCount(Maps(resources));
  }

  // ----- exactly when a name is lost

  /** The sanitized kinds, in order. */
  function Kinds(resources: seq<Vars>): (r: seq<string>)
    ensures |r| == |resources|
  {
    seq(|resources|, i requires 0 <= i < |resources| => KindLabel(resources[i]))
  }

  /** Which label each kind is given and the next number, from the kinds alone. */
  function Numbering(kinds: seq<string>): (seq<string>, nat)
  {
    if kinds == [] then ([], 2)
    else
      var (given, increment) := Numbering(kinds[..|kinds| - 1]);
      var kind := kinds[|kinds| - 1];
      if kind == "sandbox" || kind in given then (given + [kind + Decimal(increment)], increment + 1)
      else (given + [kind], increment)
  }

  /** Names do not matter to which labels are given. */
  lemma {:induction false} KindsDecide(resources: seq<Vars>)
    ensures (Labelled(resources).given, Labelled(resources).increment) == Numbering(Kinds(resources))
    ensures forall k :: k in Labelled(resources).labels <==> resources != [] && (k == "sandbox" || k in Labelled(resources).given)
    decreases |resources|
  {
    if resources != [] {
      var last := |resources| - 1;
      KindsDecide(resources[..last]);
      assert Kinds(resources)[..last] == Kinds(resources[..last]);
    }
  }

  lemma {:induction false} ClashIff(resources: seq<Vars>)
    ensures Clashes(resources) == 0 <==> Distinct(Labelled(resources).given)
    decreases |resources|
  {
    if resources != [] {
      var last := |resources| - 1;
      var before := Labelled(resources[..last]);
      var chosen := LabelFor(before, KindLabel(resources[last]), Name(resources[last]));
      ClashIff(resources[..last]);
      KindsDecide(resources[..last]);
      NumberedEndsInDigit(KindLabel(resources[last]), before.increment);
      assert !EndsInDigit("sandbox");
      assert LastClashes(resources) <==> chosen in before.given;
      DistinctAppend(before.given, chosen);
    }
  }

  lemma DistinctAppend(s: seq<string>, x: string)
    ensures Distinct(s + [x]) <==> Distinct(s) && x !in s
  {
    var all := s + [x];
    if Distinct(all) {
      assert forall i, j :: 0 <= i < j < |s| ==> all[i] == s[i] && all[j] == s[j];
      assert forall i :: 0 <= i < |s| ==> all[i] != all[|s|];
    }
  }

  /** Every name is still there, each under a label of its own. */
  ghost predicate KeepsEveryName(labels: Labels, resources: seq<Vars>)
  {
    exists given :: Lossless(labels, given, resources)
  }

  /** A name is lost exactly when two of the labels given, which the sanitized kinds alone
      decide, are the same. */
  lemma LabelsLostIff(resources: seq<Json>)
    requires |resources| >= 2
    ensures KeepsEveryName(ExtractedLabels(resources), Maps(resources)) <==> Distinct(Numbering(Kinds(Maps(resources))).0)
    ensures Maps(resources) != [] ==>
              (|ExtractedLabels(resources)| == 1 + |Maps(resources)| <==> Distinct(Numbering(Kinds(Maps(resources))).0))
  {
    var maps := Maps(resources);
    var labels := ExtractedLabels(resources);
    LabelCount(maps);
    ClashIff(maps);
    KindsDecide(maps);
    if Distinct(Numbering(Kinds(maps)).0) {
      LosslessWithoutClash(maps);
      assert Lossless(labels, Labelled(maps).given, maps);
    } else if KeepsEveryName(labels, maps) {
      var owned :| Lossless(labels, owned, maps);
      TooFewLabels(labels, owned, maps);
      assert false;
    }
  }

  /** Labels of their own, beside "sandbox", need room. */
  lemma TooFewLabels(labels: Labels, owned: seq<string>, resources: seq<Vars>)
    requires Lossless(labels, owned, resources) && (resources != [] ==> "sandbox" in labels)
    ensures resources != [] ==> |labels| >= 1 + |resources|
  {
    if resources != [] {
      var all := owned + ["sandbox"];
      DistinctAppend(owned, "sandbox");
      Elements(all);
      Fewer(Within(all), labels.Keys);
      assert |labels.Keys| == |labels|;
    }
  }

  function Within(s: seq<string>): set<string>
  {
    set x | x in s
  }

  lemma {:induction false} Elements(s: seq<string>)
    requires Distinct(s)
    ensures |Within(s)| == |s|
    decreases |s|
  {
    if s != [] {
      var last := |s| - 1;
      Elements(s[..last]);
      DistinctAppend(s[..last], s[last]);
      assert s[..last] + [s[last]] == s;
      assert Within(s) == Within(s[..last]) + {s[last]};
    }
  }

  lemma {:induction false} Fewer(a: set<string>, b: set<string>)
    requires a <= b
    ensures |a| <= |b|
  {
    assert b == a + (b - a);
  }

  /** Kinds such as A2, A, A: the number given to the third makes the label of the first,
      whose name is lost. */
  lemma NumberedKindIsOverwritten(one: Vars, two: Vars, three: Vars)
    requires !EndsInDigit(KindLabel(two)) && KindLabel(two) != "sandbox" && KindLabel(three) == KindLabel(two)
    requires KindLabel(one) == KindLabel(two) + Decimal(2) && Name(one) != ""
    ensures Labelled([one, two, three]).labels
         == map["sandbox" := Name(one), KindLabel(one) := Name(three), KindLabel(two) := Name(two)]
  {
    assert Labelled([]) == Labelling(map[], 2, []);
    hide Labelled, LabelOne, KindLabel, Name, Decimal, EndsInDigit;
    OneMoreLabel([], one);
    OneMoreLabel([one], two);
    OneMoreLabel([one, two], three);
    assert [] + [one] == [one] && [one] + [two] == [one, two] && [one, two] + [three] == [one, two, three];
    ThreeLabels(KindLabel(two), Name(one), Name(two), Name(three));
  }

  lemma ThreeLabels(kind: string, x: string, y: string, z: string)
    requires !EndsInDigit(kind) && kind != "sandbox" && x != ""
    ensures LabelOne(LabelOne(LabelOne(Labelling(map[], 2, []), kind + Decimal(2), x), kind, y), kind, z).labels
         == map["sandbox" := x, kind + Decimal(2) := z, kind := y]
  {
    NumberedEndsInDigit(kind, 2);
    assert !EndsInDigit("sandbox");
    var one := LabelOne(Labelling(map[], 2, []), kind + Decimal(2), x);
    assert one == Labelling(map["sandbox" := x, kind + Decimal(2) := x], 2, [kind + Decimal(2)]);
    var two := LabelOne(one, kind, y);
    assert two.labels == map["sandbox" := x, kind + Decimal(2) := x, kind := y] && two.increment == 2;
  }

  lemma OneMoreLabel(resources: seq<Vars>, res: Vars)
    ensures Labelled(resources + [res]) == LabelOne(Labelled(resources), KindLabel(res), Name(res))
  {
    assert (resources + [res])[..|resources|] == resources;
  }

  /** The condition on the kinds is met by A2, A, A. */
  lemma KindsA2AndA()
    ensures !EndsInDigit(Sanitized("A")) && Sanitized("A") != "sandbox" && Sanitized("A2") == Sanitized("A") + Decimal(2)
  {
    assert "A2"[..1] == "A" && "A"[..0] == "";
    assert Sanitized("A") == "A" && Sanitized("A2") == "A2" && Decimal(2) == "2";
  }
}
