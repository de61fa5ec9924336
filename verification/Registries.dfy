/** From a configuration to instances that can be looked up (internal/instances/credentials.go, instance.go
  * lines 42-67, registry.go).
  */
module Registries {
  import opened JsonValues
  import opened Sorting
  import opened Operations
  import opened Configs
  import opened Instances

  // ----- Credentials -----

  /** The libraries behind the credentials: the pod's own account and kubeconfig loading with the user agent they
    * fill in, base64, and whether the clients accept a configuration. */
  datatype Libraries = Libraries(
    podAccount: Option<string>,
    kubeconfig: (string, string) -> Option<string>,
    decode: string -> Option<seq<bv8>>,
    clients: RestConfig -> bool)

  datatype Base = FromPod | FromKubeconfig(file: string, context: string) | FromServer(host: string)

  /** The client configuration; what the libraries fill in for a pod or a kubeconfig stays theirs. */
  datatype RestConfig = RestConfig(
    base: Base, tokenFile: string, token: string, caFile: string, caData: Option<seq<bv8>>, insecure: bool,
    qps: int, burst: int, userAgent: string)

  datatype CredentialError = ModeProblem(e: ModeError) | NoPodAccount | BadKubeconfig | BadBase64 | BadClients

  function Blank(base: Base, userAgent: string): RestConfig {
    RestConfig(base, "", "", "", None, false, 0, 0, userAgent)
  }

  function Finished(cfg: RestConfig): RestConfig {
    cfg.(qps := 50, burst := 100, userAgent := Or(cfg.userAgent, "argocd-mcp"))
  }

  method RestConfigFor(c: InstanceConfig, libs: Libraries) returns (res: Result<RestConfig, CredentialError>)
    ensures res == RestConfigOf(c, libs)
  {
    var mode := Mode(c);
    if mode.Err? {
      return Err(ModeProblem(mode.error));
    }
    var cfg;
    if c.inCluster {
      if libs.podAccount.None? {
        return Err(NoPodAccount);
      }
      cfg := Blank(FromPod, libs.podAccount.value);
    } else if c.kubeconfigFile != "" {
      var agent := libs.kubeconfig(c.kubeconfigFile, c.context);
      if agent.None? {
        return Err(BadKubeconfig);
      }
      cfg := Blank(FromKubeconfig(c.kubeconfigFile, c.context), agent.value);
    } else {
      cfg := Blank(FromServer(c.server), "");
      if c.tokenFile != "" {
        cfg := cfg.(tokenFile := c.tokenFile);
      } else if c.token != "" {
        cfg := cfg.(token := c.token);
      }
      if c.caFile != "" {
        cfg := cfg.(caFile := c.caFile);
      } else if c.caData != "" {
        var data := libs.decode(c.caData);
        if data.None? {
          return Err(BadBase64);
        }
        cfg := cfg.(caData := data);
      }
      if c.insecure {
        cfg := cfg.(insecure := true);
      }
    }
    cfg := cfg.(qps := 50, burst := 100);
    if cfg.userAgent == "" {
      cfg := cfg.(userAgent := "argocd-mcp");
    }
    return Ok(cfg);
  }

  /** What the nested choices come to. */
  function RestConfigOf(c: InstanceConfig, libs: Libraries): Result<RestConfig, CredentialError> {
    match Mode(c)
    case Err(e) => Err(ModeProblem(e))
    case Ok(InCluster) =>
      if libs.podAccount.Some? then Ok(Finished(Blank(FromPod, libs.podAccount.value))) else Err(NoPodAccount)
    case Ok(Kubeconfig) =>
      var agent := libs.kubeconfig(c.kubeconfigFile, c.context);
      if agent.None? then Err(BadKubeconfig)
      else Ok(Finished(Blank(FromKubeconfig(c.kubeconfigFile, c.context), agent.value)))
    case Ok(Explicit) =>
      var inline := c.caFile == "" && c.caData != "";
      if inline && libs.decode(c.caData).None? then Err(BadBase64)
      else Ok(RestConfig(FromServer(c.server), c.tokenFile, if c.tokenFile == "" then c.token else "",
                         c.caFile, if inline then libs.decode(c.caData) else None, c.insecure, 50, 100, "argocd-mcp"))
  }

  /** A validated instance gets the credentials of its one mode. An explicit one carries exactly one form of
    * token and exactly one of a CA file, CA data, or no verification, the last only when no CA was configured. */
  lemma ValidatedCredentials(c: InstanceConfig, libs: Libraries)
    requires ValidInstance(c) && RestConfigOf(c, libs).Ok?
    ensures var r := RestConfigOf(c, libs).value;
            && (Mode(c).value == InCluster <==> r.base.FromPod?)
            && (Mode(c).value == Kubeconfig <==> r.base.FromKubeconfig?)
            && (Mode(c).value == Explicit <==> r.base.FromServer?)
            && (r.base.FromKubeconfig? ==>
                r.base == FromKubeconfig(c.kubeconfigFile, c.context) && r.base.context != "")
            && r.userAgent != "" && r.qps == 50 && r.burst == 100
            && (!r.base.FromServer? ==>
                r.tokenFile == r.token == r.caFile == "" && r.caData == None && !r.insecure)
            && (r.base.FromServer? ==>
                && r.base.host == c.server != "" && r.userAgent == "argocd-mcp"
                && ((r.tokenFile != "") != (r.token != ""))
                && r.tokenFile == c.tokenFile && (r.token != "" ==> r.token == c.token)
                && (r.insecure <==> c.caFile == "" && c.caData == "")
                && (r.insecure ==> r.caFile == "" && r.caData == None)
                && (!r.insecure ==> ((r.caFile != "") != r.caData.Some?))
                && r.caFile == c.caFile && (r.caData.Some? ==> r.caData == libs.decode(c.caData)))
  {
  }

  /** The credentials of a validated instance fail only for what its mode takes from outside, and the agent named to
    * the API server is the library's, or else this server. */
  lemma CredentialsFailIff(c: InstanceConfig, libs: Libraries)
    requires ValidInstance(c)
    ensures var r := RestConfigOf(c, libs);
            && (r == Err(NoPodAccount) <==> c.inCluster && libs.podAccount == None)
            && (r == Err(BadKubeconfig) <==>
                c.kubeconfigFile != "" && libs.kubeconfig(c.kubeconfigFile, c.context) == None)
            && (r == Err(BadBase64) <==>
                c.server != "" && c.caFile == "" && c.caData != "" && libs.decode(c.caData) == None)
            && (r.Err? ==> r.error in {NoPodAccount, BadKubeconfig, BadBase64})
            && (r.Ok? && c.inCluster ==>
                r.value.userAgent == if libs.podAccount.value != "" then libs.podAccount.value else "argocd-mcp")
            && (r.Ok? && c.kubeconfigFile != "" ==>
                var agent := libs.kubeconfig(c.kubeconfigFile, c.context).value;
                r.value.userAgent == if agent != "" then agent else "argocd-mcp")
  {
    ModeExact(c);
  }

  // ----- The registry -----

  function InstanceOf(c: InstanceConfig): Instance {
    var nss := FirstOccurrences(Mentioned(c));
    FirstStays(Mentioned(c));
    Instance(c.name, nss[0], nss, c.readOnly)
  }

  /** The instance is the one configured: its name, its read-only flag, its namespace, and the namespaces to search. */
  ghost predicate HeldAs(inst: Instance, c: InstanceConfig) {
    && inst.name == c.name && inst.readOnly == c.readOnly
    && inst.namespace == (if c.namespace != "" then c.namespace else "argocd")
    && inst.namespaces != [] && inst.namespaces[0] == inst.namespace && NoDuplicates(inst.namespaces)
    && forall x :: x in inst.namespaces <==> x == inst.namespace || (x != "" && x in c.applicationNamespaces)
  }

  lemma InstanceAsConfigured(c: InstanceConfig)
    ensures HeldAs(InstanceOf(c), c)
  {
    NamespacesExact(c);
  }

  /** Every instance configured is held under its name as it was configured, and no other name is known. */
  ghost predicate AsConfigured(instances: map<string, Instance>, ins: seq<InstanceConfig>) {
    && (forall i :: 0 <= i < |ins| ==> ins[i].name in instances && HeldAs(instances[ins[i].name], ins[i]))
    && (forall n :: n in instances ==> exists i :: 0 <= i < |ins| && ins[i].name == n)
  }

  /** Why the clients of an instance cannot be built, if they cannot. */
  function ClientProblem(c: InstanceConfig, libs: Libraries): Option<CredentialError> {
    match RestConfigOf(c, libs)
    case Err(e) => Some(e)
    case Ok(rc) => if libs.clients(rc) then None else Some(BadClients)
  }

  /** The clients of an instance can be built exactly when its credentials can and the clients take them. */
  lemma ClientsBuildIff(c: InstanceConfig, libs: Libraries)
    ensures var r, e := RestConfigOf(c, libs), ClientProblem(c, libs);
            && (e == None <==> r.Ok? && libs.clients(r.value))
            && (e == Some(BadClients) <==> r == Err(BadClients) || (r.Ok? && !libs.clients(r.value)))
            && (r.Err? ==> e == Some(r.error))
  {
  }

  method NewInstance(c: InstanceConfig, libs: Libraries) returns (res: Result<Instance, CredentialError>)
    ensures res == if ClientProblem(c, libs).Some? then Err(ClientProblem(c, libs).value) else Ok(InstanceOf(c))
  {
    var rc := RestConfigFor(c, libs);
    if rc.Err? {
      return Err(rc.error);
    }
    if !libs.clients(rc.value) {
      return Err(BadClients);
    }
    var nss := Namespaces(c);
    FirstStays(Mentioned(c));
    return Ok(Instance(c.name, nss[0], nss, c.readOnly));
  }

  datatype BuildError = ClientFailed(e: CredentialError) | DefaultMissing

  /** Every name once, every instance under its own name, the default among them. */
  ghost predicate ValidRegistry(instances: map<string, Instance>, order: seq<string>, defaultName: string) {
    && NoDuplicates(order)
    && (forall n :: n in instances <==> n in order)
    && (forall n :: n in instances ==> n != "" && instances[n].name == n)
    && defaultName in instances
  }

  /** The empty name means the default, and any other name is found exactly when it is configured. */
  lemma ResolveOnValid(instances: map<string, Instance>, order: seq<string>, defaultName: string, name: string)
    requires ValidRegistry(instances, order, defaultName)
    ensures Resolve(instances, defaultName, "") == Some(instances[defaultName])
    ensures name != "" ==> (Resolve(instances, defaultName, name).Some? <==> name in order)
    ensures Resolve(instances, defaultName, name).Some? ==>
            Resolve(instances, defaultName, name).value.name == if name == "" then defaultName else name
  {
  }

  function Pick(instances: map<string, Instance>, names: seq<string>): seq<Instance>
    requires forall n :: n in names ==> n in instances
  {
    seq(|names|, i requires 0 <= i < |names| => instances[names[i]])
  }

  /** The instances in the order of their sorted names. */
  function AllOf(instances: map<string, Instance>, order: seq<string>): seq<Instance>
    requires forall n :: n in order ==> n in instances
  {
    StableSortMembers(order, StringLess);
    Pick(instances, StableSort(order, StringLess))
  }

  /** Every instance once, strictly in the order of the names. */
  lemma AllExact(instances: map<string, Instance>, order: seq<string>, defaultName: string)
    requires ValidRegistry(instances, order, defaultName)
    ensures var out := AllOf(instances, order);
            && |out| == |order|
            && (forall i :: 0 <= i < |out| ==> out[i].name in order && out[i] == instances[out[i].name])
            && (forall i, j :: 0 <= i < j < |out| ==> StringLess(out[i].name, out[j].name))
            && (forall n :: n in order ==> exists i :: 0 <= i < |out| && out[i].name == n)
  {
    var out, names := AllOf(instances, order), StableSort(order, StringLess);
    SortedNames(order);
    forall i | 0 <= i < |out| ensures out[i] == instances[names[i]] && out[i].name == names[i] && names[i] in order {
      assert names[i] in names;
    }
    forall n | n in order ensures exists i :: 0 <= i < |out| && out[i].name == n {
      assert n in names;
      var i :| 0 <= i < |names| && names[i] == n;
      assert out[i].name == n;
    }
  }

  class Registry {
    var instances: map<string, Instance>
    var order: seq<string>
    var defaultName: string

    constructor (defaultName: string)
      ensures instances == map[] && order == [] && this.defaultName == defaultName
    {
      instances, order, this.defaultName := map[], [], defaultName;
    }

    ghost predicate Valid()
      reads this
    {
      ValidRegistry(instances, order, defaultName)
    }

    method Get(name: string) returns (res: Result<Instance, seq<string>>)
      ensures res.Ok? <==> Resolve(instances, defaultName, name).Some?
      ensures res.Ok? ==> Resolve(instances, defaultName, name) == Some(res.value)
      ensures res.Err? ==> res.error == order
    {
      var n := name;
      if n == "" {
        n := defaultName;
      }
      if n !in instances {
        var names := Names();
        return Err(names);
      }
      return Ok(instances[n]);
    }

    method Default() returns (inst: Instance)
      requires Valid()
      ensures Resolve(instances, defaultName, "") == Some(inst)
    {
      inst := instances[defaultName];
    }

    method Names() returns (out: seq<string>)
      ensures out == order
    {
      out := order;
    }

    method All() returns (out: seq<Instance>)
      requires forall n :: n in order ==> n in instances
      ensures out == AllOf(instances, order)
    {
      var names := SortStrings(order);
      StableSortMembers(order, StringLess);
      out := [];
      for i := 0 to |names|
        invariant |out| == i
        invariant forall k :: 0 <= k < i ==> names[k] in instances && out[k] == instances[names[k]]
      {
        assert names[i] in names;
        out := out + [instances[names[i]]];
      }
    }
  }

  /** Sorting distinct names gives the same names, strictly ascending. */
  lemma SortedNames(names: seq<string>)
    requires NoDuplicates(names)
    ensures var s := StableSort(names, StringLess);
            && |s| == |names|
            && (forall n :: n in s <==> n in names)
            && (forall i, j :: 0 <= i < j < |s| ==> StringLess(s[i], s[j]))
  {
    var s := StableSort(names, StringLess);
    StringLessOrder();
    StableSortPermutes(names, StringLess);
    StableSortMembers(names, StringLess);
    StableSortSorted(names, StringLess);
    forall i, j | 0 <= i < j < |s| ensures StringLess(s[i], s[j]) {
      assert !StringLess(s[j], s[i]);
      StringLessTotal(s[i], s[j]);
      DistinctStays(names, s, i, j);
    }
  }

  ghost predicate AllClientsBuild(ins: seq<InstanceConfig>, libs: Libraries) {
    forall i :: 0 <= i < |ins| ==> ClientProblem(ins[i], libs) == None
  }

  /** Why the first instance whose clients cannot be built fails. */
  function FirstClientProblem(ins: seq<InstanceConfig>, libs: Libraries): (e: Option<CredentialError>)
    ensures e == None <==> AllClientsBuild(ins, libs)
    ensures e.Some? ==> exists n :: 0 <= n < |ins| && ClientProblem(ins[n], libs) == e
  {
    if ins == [] then None
    else
      var n := |ins| - 1;
      var before := FirstClientProblem(ins[..n], libs);
      if before.Some? then before else ClientProblem(ins[n], libs)
  }

  lemma {:induction false} FirstClientStays(ins: seq<InstanceConfig>, libs: Libraries, n: nat)
    requires n <= |ins| && FirstClientProblem(ins[..n], libs).Some?
    ensures FirstClientProblem(ins, libs) == FirstClientProblem(ins[..n], libs)
  {
    if n < |ins| {
      assert ins[..|ins| - 1][..n] == ins[..n];
      FirstClientStays(ins[..|ins| - 1], libs, n);
    } else {
      assert ins[..n] == ins;
    }
  }

  /** No later instance has the same name. */
  ghost predicate Last(ins: seq<InstanceConfig>, i: nat)
    requires i < |ins|
  {
    forall j :: i < j < |ins| ==> ins[j].name != ins[i].name
  }

  /** What building leaves: all the names in order, and under each name the last instance that has it. */
  ghost predicate Filled(instances: map<string, Instance>, order: seq<string>, ins: seq<InstanceConfig>) {
    && order == InstanceNames(ins)
    && (forall n :: n in instances <==> n in order)
    && (forall i :: 0 <= i < |ins| && Last(ins, i) ==>
          ins[i].name in instances && instances[ins[i].name] == InstanceOf(ins[i]))
  }

  /** The map after every instance has been written under its name in turn. */
  function InstanceMap(ins: seq<InstanceConfig>): map<string, Instance> {
    if ins == [] then map[]
    else
      var c := ins[|ins| - 1];
      InstanceMap(ins[..|ins| - 1])[c.name := InstanceOf(c)]
  }

  lemma LastBefore(ins: seq<InstanceConfig>, i: nat)
    requires i < |ins| - 1 && Last(ins, i)
    ensures Last(ins[..|ins| - 1], i) && ins[i].name != ins[|ins| - 1].name
  {
  }

  lemma {:induction false} NamesInMap(ins: seq<InstanceConfig>, n: string)
    ensures n in InstanceMap(ins) <==> n in InstanceNames(ins)
  {
    if ins != [] {
      NamesInMap(ins[..|ins| - 1], n);
      NamesMore(ins, |ins| - 1);
      assert ins[..|ins|] == ins;
    }
  }

  lemma {:induction false} LastInMap(ins: seq<InstanceConfig>, i: nat)
    requires i < |ins| && Last(ins, i)
    ensures ins[i].name in InstanceMap(ins) && InstanceMap(ins)[ins[i].name] == InstanceOf(ins[i])
  {
    if i < |ins| - 1 {
      LastBefore(ins, i);
      LastInMap(ins[..|ins| - 1], i);
    }
  }

  lemma MapIsFilled(ins: seq<InstanceConfig>)
    ensures Filled(InstanceMap(ins), InstanceNames(ins), ins)
  {
    forall n ensures n in InstanceMap(ins) <==> n in InstanceNames(ins) {
      NamesInMap(ins, n);
    }
    forall i | 0 <= i < |ins| && Last(ins, i)
      ensures ins[i].name in InstanceMap(ins) && InstanceMap(ins)[ins[i].name] == InstanceOf(ins[i])
    {
      LastInMap(ins, i);
    }
  }

  lemma BuildMore(ins: seq<InstanceConfig>, libs: Libraries, n: nat)
    requires n < |ins|
    ensures InstanceMap(ins[..n + 1]) == InstanceMap(ins[..n])[ins[n].name := InstanceOf(ins[n])]
    ensures FirstClientProblem(ins[..n], libs) == None ==>
              FirstClientProblem(ins[..n + 1], libs) == ClientProblem(ins[n], libs)
  {
    assert ins[..n + 1][..n] == ins[..n];
  }

  /** Builds the clients in order and stops at the first that fails. Building contacts no cluster. */
  method BuildRegistry(cfg: Config, libs: Libraries) returns (res: Result<Registry, BuildError>)
    ensures res.Ok? ==>
      var r := res.value;
      && fresh(r)
      && r.instances == InstanceMap(cfg.instances) && r.order == InstanceNames(cfg.instances)
      && r.defaultName == cfg.defaultInstance && r.defaultName in r.instances
    ensures res.Err? ==>
      var e := FirstClientProblem(cfg.instances, libs);
      res.error == if e.Some? then ClientFailed(e.value) else DefaultMissing
    ensures res.Ok? <==>
            FirstClientProblem(cfg.instances, libs) == None && cfg.defaultInstance in InstanceMap(cfg.instances)
  {
    var r := new Registry(cfg.defaultInstance);
    var ics := cfg.instances;
    for n := 0 to |ics|
      invariant cfg.instances == ics && r.defaultName == cfg.defaultInstance
      invariant r.instances == InstanceMap(ics[..n])
      invariant r.order == InstanceNames(ics[..n])
      invariant FirstClientProblem(ics[..n], libs) == None
    {
      BuildMore(ics, libs, n);
      var inst := NewInstance(ics[n], libs);
      if inst.Err? {
        FirstClientStays(ics, libs, n + 1);
        return Err(ClientFailed(inst.error));
      }
      NamesMore(ics, n);
      r.instances := r.instances[ics[n].name := inst.value];
      r.order := r.order + [ics[n].name];
    }
    assert ics[..|ics|] == ics;
    if r.defaultName !in r.instances {
      return Err(DefaultMissing);
    }
    return Ok(r);
  }

  /** The pipeline: a configuration that Validate accepts cannot fail the default check, and once its clients
    * are built the registry is valid and holds each instance as configured. */
  method BuildValidated(cfg: Config, absolute: string -> bool, libs: Libraries)
    returns (res: Result<Registry, BuildError>)
    requires cfg.Valid(absolute)
    ensures res != Err(DefaultMissing)
    ensures res.Ok? <==> AllClientsBuild(cfg.instances, libs)
    ensures res.Ok? ==>
      var r := res.value;
      && r.Valid()
      && r.order == InstanceNames(cfg.instances) && r.defaultName == cfg.defaultInstance
      && AsConfigured(r.instances, cfg.instances)
  {
    res := BuildRegistry(cfg, libs);
    MapIsFilled(cfg.instances);
    if res.Ok? {
      ValidatedIsValid(cfg.instances, res.value.instances, res.value.order);
      ValidatedAsConfigured(cfg.instances, res.value.instances, res.value.order);
    }
  }

  lemma ValidatedAsConfigured(ins: seq<InstanceConfig>, instances: map<string, Instance>, order: seq<string>)
    requires ValidInstances(ins) && Filled(instances, order, ins)
    ensures AsConfigured(instances, ins)
  {
    ValidatedIsValid(ins, instances, order);
    forall i | 0 <= i < |ins| ensures ins[i].name in instances && HeldAs(instances[ins[i].name], ins[i]) {
      InstanceAsConfigured(ins[i]);
    }
    forall n | n in instances ensures exists i :: 0 <= i < |ins| && ins[i].name == n {
      var i :| 0 <= i < |order| && order[i] == n;
      assert ins[i].name == n;
    }
  }

  lemma ValidatedIsValid(ins: seq<InstanceConfig>, instances: map<string, Instance>, order: seq<string>)
    requires ValidInstances(ins) && Filled(instances, order, ins)
    ensures NoDuplicates(order)
    ensures forall n :: n in instances ==> n != "" && instances[n].name == n
    ensures forall i :: 0 <= i < |ins| ==> ins[i].name in instances && instances[ins[i].name] == InstanceOf(ins[i])
  {
    forall i | 0 <= i < |ins| ensures ins[i].name in instances && instances[ins[i].name] == InstanceOf(ins[i]) {
      assert Last(ins, i);
    }
    forall n | n in instances ensures n != "" && instances[n].name == n {
      var i :| 0 <= i < |ins| && order[i] == n;
      assert ValidInstance(ins[i]);
    }
  }
}
