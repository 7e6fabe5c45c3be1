/** The job variables taken out of a sandbox placement, with credentials for Tower and
    without them for the subject. */
module SandboxVars {
  import opened Json
  import opened DeepMerge

  /** getStringDefault. */
  function StringOr(m: Vars, k: string, fallback: string): string
  {
    if k in m && m[k].Str? then m[k].s else fallback
  }

  function Field(m: Vars, k: string): Json
  {
    Str(StringOr(m, k, "unknown"))
  }

  // ----- what the extractors compute

  function Maps(items: seq<Json>): seq<Vars>
  {
    if items == [] then []
    else Maps(items[..|items| - 1]) + (if items[|items| - 1].Obj? then [items[|items| - 1].m] else [])
  }

  function Credentials(res: Vars): seq<Vars>
  {
    if "credentials" in res && res["credentials"].Arr? then Maps(res["credentials"].items) else []
  }

  function RawCredentials(res: Vars): Json
  {
    if "credentials" in res && res["credentials"].Arr? then res["credentials"] else Null
  }

  function AwsBase(res: Vars): Vars
  {
    map["sandbox_name" := Field(res, "name"),
        "sandbox_hosted_zone_id" := Field(res, "hosted_zone_id"),
        "HostedZoneId" := Field(res, "hosted_zone_id"),
        "sandbox_account" := Field(res, "account_id"),
        "sandbox_account_id" := Field(res, "account_id"),
        "sandbox_zone" := Field(res, "zone"),
        "subdomain_base_suffix" := Str("." + StringOr(res, "zone", "unknown"))]
  }

  function AwsKey(cred: Vars, raw: Json): Vars
  {
    map["sandbox_aws_access_key_id" := Field(cred, "aws_access_key_id"),
        "aws_access_key_id" := Field(cred, "aws_access_key_id"),
        "sandbox_aws_secret_access_key" := Field(cred, "aws_secret_access_key"),
        "aws_secret_access_key" := Field(cred, "aws_secret_access_key"),
        "sandbox_credentials" := raw]
  }

  /** The first IAM key counts. */
  function AwsCredentials(creds: seq<Vars>, raw: Json): Vars
  {
    if creds == [] then map[]
    else if StringOr(creds[0], "kind", "none") == "aws_iam_key" then AwsKey(creds[0], raw)
    else AwsCredentials(creds[1..], raw)
  }

  function OcpBase(res: Vars): Vars
  {
    map["sandbox_openshift_name" := Field(res, "name"),
        "sandbox_openshift_namespace" := Field(res, "namespace"),
        "sandbox_openshift_cluster" := Field(res, "ocp_cluster"),
        "sandbox_openshift_api_url" := Field(res, "api_url"),
        "sandbox_openshift_apps_domain" := Field(res, "ingress_domain"),
        "sandbox_openshift_console_url" := Field(res, "console_url")]
  }

  function OcpCredential(cred: Vars, raw: Json): Vars
  {
    if StringOr(cred, "kind", "none") == "ServiceAccount" then
      map["sandbox_openshift_api_key" := Field(cred, "token"),
          "sandbox_openshift_api_token" := Field(cred, "token"),
          "sandbox_openshift_credentials" := raw]
    else if StringOr(cred, "kind", "none") == "KeycloakUser" then
      map["sandbox_openshift_user" := Field(cred, "username"),
          "sandbox_openshift_password" := Field(cred, "password")]
    else
      map[]
  }

  /** The last credential of each kind counts. */
  function OcpCredentials(creds: seq<Vars>, raw: Json): Vars
  {
    if creds == [] then map[]
    else OcpCredentials(creds[..|creds| - 1], raw) + OcpCredential(creds[|creds| - 1], raw)
  }

  function IbmCredentials(creds: seq<Vars>): Vars
  {
    if exists i :: 0 <= i < |creds| && StringOr(creds[i], "apikey", "") != ""
    then map["ibmcloud_api_key" := Field(creds[0], "apikey"), "ibmcloud_resource_group_name" := Field(creds[0], "name")]
    else map[]
  }

  function OrEmpty(m: Option<Vars>): Vars
  {
    if m.Some? then m.value else map[]
  }

  function AdditionalVars(res: Vars): Vars
  {
    OrEmpty(NestedMap(res, ["additional_vars", "deployer"]))
  }

  function OcpAdditionalVars(res: Vars): Vars
  {
    var cluster := NestedMap(res, ["cluster_additional_vars", "deployer"]);
    if cluster.Some? then cluster.value else AdditionalVars(res)
  }

  function RosaBase(res: Vars): Vars
  {
    map["rosa_sandbox_name" := Field(res, "name"), "rosa_aws_account_name" := Field(res, "aws_account_name")]
  }

  function RosaCredentials(res: Vars): Vars
  {
    map["rosa_sa_client_id" := Field(res, "sa_client_id"), "rosa_sa_secret" := Field(res, "sa_secret")]
  }

  datatype Kind = Aws | Ocp | Ibm | Rosa | Other

  function KindOf(res: Vars): Kind
  {
    var kind := StringOr(res, "kind", "none");
    if kind == "AwsSandbox" then Aws
    else if kind == "OcpSandbox" then Ocp
    else if kind == "IBMResourceGroupSandbox" then Ibm
    else if kind == "RosaSandbox" then Rosa
    else Other
  }

  /** What is there whether or not credentials are asked for. */
  function Base(res: Vars): Vars
  {
    match KindOf(res)
    case Aws => AwsBase(res)
    case Ocp => OcpBase(res)
    case Rosa => RosaBase(res)
    case Ibm => map[]
    case Other => map[]
  }

  function Secrets(res: Vars): Vars
  {
    match KindOf(res)
    case Aws => AwsCredentials(Credentials(res), RawCredentials(res))
    case Ocp => OcpCredentials(Credentials(res), RawCredentials(res))
    case Ibm => IbmCredentials(Credentials(res))
    case Rosa => RosaCredentials(res)
    case Other => if RawCredentials(res).Arr? then map["credentials" := RawCredentials(res)] else map[]
  }

  function Extra(res: Vars): Vars
  {
    match KindOf(res)
    case Ocp => OcpAdditionalVars(res)
    case Ibm => AdditionalVars(res)
    case _ => map[]
  }

  function ResourceVars(res: Vars, creds: bool): Vars
  {
    Base(res) + (if creds then Secrets(res) else map[]) + Extra(res)
  }

  /** resolveVarName. */
  function VarName(res: Vars): string
  {
    if "annotations" in res && res["annotations"].Obj? && StringAt(res["annotations"].m, "var") != ""
    then StringAt(res["annotations"].m, "var")
    else "main"
  }

  function AddResource(vars: Vars, r: Json, creds: bool): Vars
  {
    if !r.Obj? then vars
    else if VarName(r.m) == "main" then Merge(vars, ResourceVars(r.m, creds))
    else vars[VarName(r.m) := Obj(ResourceVars(r.m, creds))]
  }

  function FromResources(resources: seq<Json>, creds: bool): Vars
  {
    if resources == [] then map[]
    else AddResource(FromResources(resources[..|resources| - 1], creds), resources[|resources| - 1], creds)
  }

  function Resources(placement: Vars): seq<Json>
  {
    if "resources" in placement && placement["resources"].Arr? then placement["resources"].items else []
  }

  function ExtractedVars(placement: Vars, creds: bool): Vars
  {
    var resources := Resources(placement);
    if resources == [] then map[]
    else if creds then FromResources(resources, true)["sandboxes" := Arr(resources)]
    else FromResources(resources, false)
  }

  // ----- the extractors

  method GetCredList(res: Vars) returns (creds: seq<Vars>)
    ensures creds == Credentials(res)
  {
    if "credentials" !in res || !res["credentials"].Arr? {
      return [];
    }
    var raw := res["credentials"].items;
    creds := [];
    for i := 0 to |raw|
      invariant creds == Maps(raw[..i])
    {
      assert raw[..i + 1][..i] == raw[..i];
      if raw[i].Obj? {
        creds := creds + [raw[i].m];
      }
    }
    assert raw[..|raw|] == raw;
  }

  method ExtractAwsSandboxVars(res: Vars, creds: bool) returns (toMerge: Vars)
    ensures toMerge == AwsBase(res) + (if creds then AwsCredentials(Credentials(res), RawCredentials(res)) else map[])
  {
    toMerge := AwsBase(res);
    if creds {
      var list := GetCredList(res);
      var i := 0;
      while i < |list|
        invariant 0 <= i <= |list| && toMerge == AwsBase(res)
        invariant AwsCredentials(list, RawCredentials(res)) == AwsCredentials(list[i..], RawCredentials(res))
      {
        if StringOr(list[i], "kind", "none") == "aws_iam_key" {
          toMerge := toMerge + AwsKey(list[i], RawCredentials(res));
          return;
        }
        i := i + 1;
      }
    }
  }

  lemma AnotherOcpCredential(start: Vars, list: seq<Vars>, i: nat, raw: Json)
    requires i < |list|
    ensures start + OcpCredentials(list[..i + 1], raw)
         == start + OcpCredentials(list[..i], raw) + OcpCredential(list[i], raw)
  {
    assert list[..i + 1][..i] == list[..i];
    PlusAssociates(start, OcpCredentials(list[..i], raw), OcpCredential(list[i], raw));
  }

  lemma PlusAssociates(a: Vars, b: Vars, c: Vars)
    ensures a + b + c == a + (b + c)
  {
  }

  method ExtractOcpSandboxVars(res: Vars, creds: bool) returns (toMerge: Vars)
    ensures toMerge == OcpBase(res) + (if creds then OcpCredentials(Credentials(res), RawCredentials(res)) else map[])
                       + OcpAdditionalVars(res)
  {
    toMerge := OcpBase(res);
    if creds {
      var list := GetCredList(res);
      ghost var start := toMerge;
      for i := 0 to |list|
        invariant toMerge == start + OcpCredentials(list[..i], RawCredentials(res))
      {
        AnotherOcpCredential(start, list, i, RawCredentials(res));
        toMerge := toMerge + OcpCredential(list[i], RawCredentials(res));
      }
      assert list[..|list|] == list;
    }
    toMerge := toMerge + OcpAdditionalVars(res);
  }

  method ExtractIbmSandboxVars(res: Vars, creds: bool) returns (toMerge: Vars)
    ensures toMerge == (if creds then IbmCredentials(Credentials(res)) else map[]) + AdditionalVars(res)
  {
    toMerge := map[];
    if creds {
      var list := GetCredList(res);
      var i := 0;
      while i < |list|
        invariant 0 <= i <= |list| && toMerge == map[]
        invariant forall j :: 0 <= j < i ==> StringOr(list[j], "apikey", "") == ""
      {
        if StringOr(list[i], "apikey", "") != "" {
          toMerge := map["ibmcloud_api_key" := Field(list[0], "apikey"),
                         "ibmcloud_resource_group_name" := Field(list[0], "name")];
          break;
        }
        i := i + 1;
      }
      assert toMerge == IbmCredentials(list);
    }
    toMerge := toMerge + AdditionalVars(res);
  }

  method ExtractResourceVars(res: Vars, creds: bool) returns (toMerge: Vars)
    ensures toMerge == ResourceVars(res, creds)
  {
    hide AwsBase, OcpBase, AwsCredentials, OcpCredentials, IbmCredentials, OcpAdditionalVars, AdditionalVars;
    match KindOf(res)
    case Aws =>
      toMerge := ExtractAwsSandboxVars(res, creds);
    case Ocp =>
      toMerge := ExtractOcpSandboxVars(res, creds);
    case Ibm =>
      toMerge := ExtractIbmSandboxVars(res, creds);
    case Rosa =>
      toMerge := RosaBase(res);
      if creds {
        toMerge := toMerge + RosaCredentials(res);
      }
    case Other =>
      toMerge := map[];
      if creds && RawCredentials(res).Arr? {
        toMerge := toMerge["credentials" := RawCredentials(res)];
      }
  }

  method ExtractSandboxVars(placement: Vars, creds: bool) returns (vars: Vars)
    ensures vars == ExtractedVars(placement, creds)
  {
    vars := map[];
    if "resources" !in placement || !placement["resources"].Arr? || placement["resources"].items == [] {
      return;
    }
    var resources := placement["resources"].items;
    for i := 0 to |resources|
      invariant vars == FromResources(resources[..i], creds)
    {
      assert resources[..i + 1][..i] == resources[..i];
      if resources[i].Obj? {
        var res := resources[i].m;
        var toMerge := ExtractResourceVars(res, creds);
        var varName := VarName(res);
        if varName == "main" {
          vars := Merge(vars, toMerge);
        } else {
          vars := vars[varName := Obj(toMerge)];
        }
      }
    }
    assert resources[..|resources|] == resources;
    if creds {
      vars := vars["sandboxes" := Arr(resources)];
    }
  }

  // ----- what is written to the subject does not depend on any secret

  predicate SecretField(k: string)
  {
    k == "credentials" || k == "sa_client_id" || k == "sa_secret"
  }

  /** The same outside the secret fields. */
  predicate SameButSecrets(a: Json, b: Json)
  {
    if a.Obj? && b.Obj? then
      && (forall k :: k in a.m && !SecretField(k) ==> k in b.m && a.m[k] == b.m[k])
      && (forall k :: k in b.m && !SecretField(k) ==> k in a.m)
    else a == b
  }

  lemma SameField(a: Vars, b: Vars, k: string)
    requires SameButSecrets(Obj(a), Obj(b)) && !SecretField(k)
    ensures Lookup(a, k) == Lookup(b, k)
    ensures Field(a, k) == Field(b, k) && StringOr(a, k, "none") == StringOr(b, k, "none")
    ensures StringOr(a, k, "unknown") == StringOr(b, k, "unknown")
  {
  }

  lemma SameKind(a: Vars, b: Vars)
    requires SameButSecrets(Obj(a), Obj(b))
    ensures KindOf(a) == KindOf(b) && VarName(a) == VarName(b)
  {
    SameField(a, b, "kind");
    SameField(a, b, "annotations");
  }

  lemma SameAwsBase(a: Vars, b: Vars)
    requires SameButSecrets(Obj(a), Obj(b))
    ensures AwsBase(a) == AwsBase(b) && RosaBase(a) == RosaBase(b)
  {
    SameField(a, b, "name");
    SameField(a, b, "hosted_zone_id");
    SameField(a, b, "account_id");
    SameField(a, b, "zone");
    SameField(a, b, "aws_account_name");
  }

  lemma {:induction false} SameOcpBase(a: Vars, b: Vars)
    requires SameButSecrets(Obj(a), Obj(b))
    ensures OcpBase(a) == OcpBase(b)
  {
    SameField(a, b, "name");
    SameField(a, b, "namespace");
    SameField(a, b, "ocp_cluster");
    SameField(a, b, "api_url");
    SameField(a, b, "ingress_domain");
    SameField(a, b, "console_url");
  }

  lemma SameNested(a: Vars, b: Vars, keys: seq<string>)
    requires SameButSecrets(Obj(a), Obj(b)) && keys != [] && !SecretField(keys[0])
    ensures NestedMap(a, keys) == NestedMap(b, keys)
  {
    SameField(a, b, keys[0]);
    assert SubMap(a, keys[0]) == SubMap(b, keys[0]);
  }

  lemma SameExtra(a: Vars, b: Vars)
    requires SameButSecrets(Obj(a), Obj(b))
    ensures AdditionalVars(a) == AdditionalVars(b) && OcpAdditionalVars(a) == OcpAdditionalVars(b)
  {
    SameNested(a, b, ["additional_vars", "deployer"]);
    SameNested(a, b, ["cluster_additional_vars", "deployer"]);
  }

  lemma {:induction false} SameResourceVars(a: Vars, b: Vars)
    requires SameButSecrets(Obj(a), Obj(b))
    ensures ResourceVars(a, false) == ResourceVars(b, false)
    ensures VarName(a) == VarName(b)
  {
    hide AwsBase, OcpBase, RosaBase, AdditionalVars, OcpAdditionalVars, KindOf, VarName;
    SameKind(a, b);
    SameAwsBase(a, b);
    SameOcpBase(a, b);
    SameExtra(a, b);
    assert Base(a) == Base(b) && Extra(a) == Extra(b);
  }

  lemma {:induction false} SameFromResources(a: seq<Json>, b: seq<Json>)
    requires |a| == |b|
    requires forall i :: 0 <= i < |a| ==> SameButSecrets(a[i], b[i])
    ensures FromResources(a, false) == FromResources(b, false)
    decreases |a|
  {
    if a != [] {
      var last := |a| - 1;
      SameFromResources(a[..last], b[..last]);
      assert SameButSecrets(a[last], b[last]);
      if a[last].Obj? && b[last].Obj? {
        SameResourceVars(a[last].m, b[last].m);
      }
    }
  }

  /** Placements whose resources differ only in credentials, sa_client_id and sa_secret
      give the subject the same variables. */
  lemma SubjectVarsHideSecrets(p: Vars, q: Vars)
    requires |Resources(p)| == |Resources(q)|
    requires forall i :: 0 <= i < |Resources(p)| ==> SameButSecrets(Resources(p)[i], Resources(q)[i])
    ensures ExtractedVars(p, false) == ExtractedVars(q, false)
  {
    SameFromResources(Resources(p), Resources(q));
  }

  // ----- with credentials there is more under the credential names, and nothing else changes

  predicate CredentialName(k: string)
  {
    || k == "sandbox_aws_access_key_id" || k == "aws_access_key_id"
    || k == "sandbox_aws_secret_access_key" || k == "aws_secret_access_key" || k == "sandbox_credentials"
    || k == "sandbox_openshift_api_key" || k == "sandbox_openshift_api_token" || k == "sandbox_openshift_credentials"
    || k == "sandbox_openshift_user" || k == "sandbox_openshift_password"
    || k == "ibmcloud_api_key" || k == "ibmcloud_resource_group_name"
    || k == "rosa_sa_client_id" || k == "rosa_sa_secret" || k == "credentials"
  }

  /** full has every key of bare, and outside the credential names it is the same, at every depth. */
  ghost predicate Hides(bare: Vars, full: Vars)
    decreases Obj(bare), 0
  {
    && bare.Keys <= full.Keys
    && forall k :: k in full && !CredentialName(k) ==> k in bare && (k in bare ==> HidesUnder(bare[k], full[k]))
  }

  ghost predicate HidesUnder(bare: Json, full: Json)
    decreases bare, 1
  {
    if bare.Obj? && full.Obj? then assert Obj(bare.m) == bare; Hides(bare.m, full.m) else bare == full
  }

  lemma {:induction false} HidesItself(vars: Vars)
    ensures Hides(vars, vars)
    decreases Obj(vars)
  {
    forall k | k in vars ensures HidesUnder(vars[k], vars[k]) {
      if vars[k].Obj? { HidesItself(vars[k].m); }
    }
  }

  /** Merging keeps the relation. */
  lemma {:induction false} MergeHides(bare: Vars, full: Vars, b: Vars, f: Vars)
    requires Hides(bare, full) && Hides(b, f)
    ensures Hides(Merge(bare, b), Merge(full, f))
    decreases Obj(b)
  {
    forall k | k in Merge(full, f) && !CredentialName(k)
      ensures k in Merge(bare, b) && HidesUnder(Merge(bare, b)[k], Merge(full, f)[k])
    {
      if k in f {
        assert HidesUnder(b[k], f[k]);
        if k in full && full[k].Obj? && f[k].Obj? {
          assert HidesUnder(bare[k], full[k]);
          MergeHides(bare[k].m, full[k].m, b[k].m, f[k].m);
        }
      }
    }
  }

  lemma {:induction false} AwsNames(creds: seq<Vars>, raw: Json)
    ensures forall k :: k in AwsCredentials(creds, raw) ==> CredentialName(k)
    decreases |creds|
  {
    if creds != [] { AwsNames(creds[1..], raw); }
  }

  lemma {:induction false} OcpNames(creds: seq<Vars>, raw: Json)
    ensures forall k :: k in OcpCredentials(creds, raw) ==> CredentialName(k)
    decreases |creds|
  {
    if creds != [] { OcpNames(creds[..|creds| - 1], raw); }
  }

  lemma SecretNames(res: Vars)
    ensures forall k :: k in Secrets(res) ==> CredentialName(k)
  {
    AwsNames(Credentials(res), RawCredentials(res));
    OcpNames(Credentials(res), RawCredentials(res));
  }

  lemma {:induction false} ResourceHides(res: Vars)
    ensures Hides(ResourceVars(res, false), ResourceVars(res, true))
  {
    SecretNames(res);
    var bare, full := ResourceVars(res, false), ResourceVars(res, true);
    forall k | k in full && !CredentialName(k) ensures k in bare && HidesUnder(bare[k], full[k]) {
      assert k !in Secrets(res) && bare[k] == full[k];
      if bare[k].Obj? { HidesItself(bare[k].m); }
    }
  }

  lemma {:induction false} FromResourcesHides(resources: seq<Json>)
    ensures Hides(FromResources(resources, false), FromResources(resources, true))
    decreases |resources|
  {
    if resources != [] {
      var last := |resources| - 1;
      FromResourcesHides(resources[..last]);
      if resources[last].Obj? {
        var res := resources[last].m;
        ResourceHides(res);
        if VarName(res) == "main" {
          MergeHides(FromResources(resources[..last], false), FromResources(resources[..last], true),
                     ResourceVars(res, false), ResourceVars(res, true));
        }
      }
    }
  }

  /** Tower gets every variable the subject gets, and apart from the credential names (at
      any depth) and the copy of the placement under "sandboxes" with the same value. */
  lemma TowerVarsExtendSubjectVars(p: Vars)
    ensures ExtractedVars(p, false).Keys <= ExtractedVars(p, true).Keys
    ensures Hides(ExtractedVars(p, false) - {"sandboxes"}, ExtractedVars(p, true) - {"sandboxes"})
  {
    FromResourcesHides(Resources(p));
  }
}
