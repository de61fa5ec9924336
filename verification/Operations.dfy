/** The patches the server writes and the checks before them (internal/argocd/operation.go). */
module Operations {
  import opened JsonValues
  import opened Applications

  const STRATEGY_APPLY := "apply"
  const STRATEGY_HOOK := "hook"
  const DEFAULT_INITIATOR := "argocd-mcp"

  datatype ResourceRef = ResourceRef(group: string, kind: string, namespace: string, name: string)

  /** A nil source map is None; a nil list and an empty list mean the same. */
  datatype SyncRequest = SyncRequest(
    revision: string, prune: bool, dryRun: bool,
    syncOptions: seq<string>, resources: seq<ResourceRef>,
    strategy: string, force: bool, retryLimit: int,
    initiatedBy: string, reason: string,
    source: Option<map<string, Json>>, sources: seq<Json>)

  datatype SyncError = InvalidStrategy | ForceWithoutApply | EmptyRevision | IncompleteResource(index: nat)

  datatype Result<+T, +E> = Ok(value: T) | Err(error: E)

  predicate ValidStrategy(s: string) {
    s == "" || s == STRATEGY_APPLY || s == STRATEGY_HOOK
  }

  predicate Complete(r: ResourceRef) {
    r.kind != "" && r.name != ""
  }

  /** What a request must satisfy to become a patch. */
  predicate Acceptable(r: SyncRequest) {
    && ValidStrategy(r.strategy)
    && (r.force ==> r.strategy == STRATEGY_APPLY)
    && r.revision != ""
    && forall i :: 0 <= i < |r.resources| ==> Complete(r.resources[i])
  }

  /** The first violation, in the order the checks are made. */
  predicate FirstViolation(r: SyncRequest, e: SyncError) {
    match e
    case InvalidStrategy => !ValidStrategy(r.strategy)
    case ForceWithoutApply => ValidStrategy(r.strategy) && r.force && r.strategy != STRATEGY_APPLY
    case EmptyRevision =>
      ValidStrategy(r.strategy) && (r.force ==> r.strategy == STRATEGY_APPLY) && r.revision == ""
    case IncompleteResource(n) =>
      && ValidStrategy(r.strategy) && (r.force ==> r.strategy == STRATEGY_APPLY) && r.revision != ""
      && n < |r.resources| && !Complete(r.resources[n])
      && forall i :: 0 <= i < n ==> Complete(r.resources[i])
  }

  /** Check number n fails: strategy, force, revision, then one for each resource. */
  predicate FailsCheck(r: SyncRequest, n: nat) {
    if n == 0 then r.strategy !in {"", "apply", "hook"}
    else if n == 1 then r.force && r.strategy != "apply"
    else if n == 2 then r.revision == ""
    else n - 3 < |r.resources| && (r.resources[n - 3].kind == "" || r.resources[n - 3].name == "")
  }

  function CheckOf(e: SyncError): nat {
    match e
    case InvalidStrategy => 0
    case ForceWithoutApply => 1
    case EmptyRevision => 2
    case IncompleteResource(n) => 3 + n
  }

  /** A request is refused exactly when some check fails, and what is reported is the first that does. */
  lemma FirstFailingCheck(r: SyncRequest)
    ensures Acceptable(r) <==> forall n: nat :: !FailsCheck(r, n)
    ensures forall e :: FirstViolation(r, e) <==>
              FailsCheck(r, CheckOf(e)) && forall n: nat :: n < CheckOf(e) ==> !FailsCheck(r, n)
  {
    assert |STRATEGY_APPLY| == 5 && |STRATEGY_HOOK| == 4;
    forall e ensures FirstViolation(r, e) <==>
      FailsCheck(r, CheckOf(e)) && forall n: nat :: n < CheckOf(e) ==> !FailsCheck(r, n)
    {
      ViolationIff(r, e);
    }
    if Acceptable(r) {
      forall n: nat ensures !FailsCheck(r, n) {
        if n >= 3 && n - 3 < |r.resources| {
          assert Complete(r.resources[n - 3]);
        }
      }
    } else if !FailsCheck(r, 0) && !FailsCheck(r, 1) && !FailsCheck(r, 2) {
      var i :| 0 <= i < |r.resources| && !Complete(r.resources[i]);
      assert FailsCheck(r, 3 + i);
    }
  }

  lemma ViolationIff(r: SyncRequest, e: SyncError)
    ensures FirstViolation(r, e) <==>
              FailsCheck(r, CheckOf(e)) && forall n: nat :: n < CheckOf(e) ==> !FailsCheck(r, n)
  {
    assert !FailsCheck(r, 0) <==> ValidStrategy(r.strategy);
    assert !FailsCheck(r, 1) <==> (r.force ==> r.strategy == STRATEGY_APPLY);
    assert !FailsCheck(r, 2) <==> r.revision != "";
    if e.IncompleteResource? {
      var m := e.index;
      if FirstViolation(r, e) {
        forall n: nat | n < 3 + m ensures !FailsCheck(r, n) {
          if n >= 3 {
            assert Complete(r.resources[n - 3]);
          }
        }
      } else if FailsCheck(r, 3 + m) && forall n: nat :: n < 3 + m ==> !FailsCheck(r, n) {
        forall i | 0 <= i < m ensures Complete(r.resources[i]) {
          assert !FailsCheck(r, 3 + i);
        }
      }
    }
  }

  // ----- Objects written key by key -----

  /** A key and what is stored under it, when anything is. */
  datatype Field = Field(key: string, value: Option<Json>)

  function When(present: bool, v: Json): Option<Json> {
    if present then Some(v) else None
  }

  function With(m: map<string, Json>, f: Field): map<string, Json> {
    if f.value.Some? then m[f.key := f.value.value] else m
  }

  function Build(fs: seq<Field>): map<string, Json> {
    if fs == [] then map[] else With(Build(fs[..|fs| - 1]), fs[|fs| - 1])
  }

  ghost predicate DistinctKeys(fs: seq<Field>) {
    forall i, j :: 0 <= i < j < |fs| ==> fs[i].key != fs[j].key
  }

  lemma BuildStep(fs: seq<Field>, n: nat)
    requires n < |fs|
    ensures Build(fs[..n + 1]) == With(Build(fs[..n]), fs[n])
  {
    assert fs[..n + 1][..n] == fs[..n];
  }

  lemma {:induction false} BuildKeys(fs: seq<Field>, k: string)
    requires k in Build(fs)
    ensures exists i :: 0 <= i < |fs| && fs[i].key == k && fs[i].value.Some?
  {
    if fs != [] {
      var last := |fs| - 1;
      if fs[last].key == k && fs[last].value.Some? {
      } else {
        BuildKeys(fs[..last], k);
        var i :| 0 <= i < last && fs[..last][i].key == k && fs[..last][i].value.Some?;
        assert fs[i].key == k;
      }
    }
  }

  /** Under distinct keys every key holds exactly what was written under it. */
  lemma {:induction false} BuildMember(fs: seq<Field>, i: nat)
    requires DistinctKeys(fs) && i < |fs|
    ensures Has(Obj(Build(fs)), fs[i].key) <==> fs[i].value.Some?
    ensures fs[i].value.Some? ==> Member(Obj(Build(fs)), fs[i].key) == fs[i].value.value
    ensures fs[i].value.None? ==> Member(Obj(Build(fs)), fs[i].key) == Null
  {
    var front := fs[..|fs| - 1];
    if i < |front| {
      BuildMember(front, i);
    } else if fs[i].key in Build(front) {
      BuildKeys(front, fs[i].key);
    }
  }

  // ----- The operation a request stands for -----

  function StringList(xs: seq<string>): (j: seq<Json>)
    ensures |j| == |xs|
    ensures forall i :: 0 <= i < |xs| ==> j[i] == Str(xs[i])
  {
    seq(|xs|, i requires 0 <= i < |xs| => Str(xs[i]))
  }

  function ResourceFields(r: ResourceRef): seq<Field> {
    [Field("kind", Some(Str(r.kind))), Field("name", Some(Str(r.name))),
     Field("group", When(r.group != "", Str(r.group))),
     Field("namespace", When(r.namespace != "", Str(r.namespace)))]
  }

  function ResourceJson(r: ResourceRef): Json {
    Obj(Build(ResourceFields(r)))
  }

  function ResourceList(rs: seq<ResourceRef>): (j: seq<Json>)
    ensures |j| == |rs|
    ensures forall i :: 0 <= i < |rs| ==> j[i] == ResourceJson(rs[i])
  {
    seq(|rs|, i requires 0 <= i < |rs| => ResourceJson(rs[i]))
  }

  function ApplyJson(force: bool): Json {
    Obj(map["apply" := Obj(if force then map["force" := Bool(true)] else map[])])
  }

  function HookJson(): Json {
    Obj(map["hook" := Obj(map[])])
  }

  function StrategyField(r: SyncRequest): Option<Json> {
    if r.strategy == STRATEGY_APPLY then Some(ApplyJson(r.force))
    else if r.strategy == STRATEGY_HOOK then Some(HookJson())
    else None
  }

  function SyncFields(r: SyncRequest): seq<Field> {
    [Field("revision", Some(Str(r.revision))),
     Field("prune", When(r.prune, Bool(true))),
     Field("dryRun", When(r.dryRun, Bool(true))),
     Field("syncOptions", When(r.syncOptions != [], Arr(StringList(r.syncOptions)))),
     Field("resources", When(r.resources != [], Arr(ResourceList(r.resources)))),
     Field("syncStrategy", StrategyField(r)),
     Field("source", if r.source.Some? then Some(Obj(r.source.value)) else None),
     Field("sources", When(r.sources != [], Arr(r.sources)))]
  }

  function SyncJson(r: SyncRequest): Json {
    Obj(Build(SyncFields(r)))
  }

  function RetryJson(limit: int): Json {
    Obj(map["limit" := Int(limit),
            "backoff" := Obj(map["duration" := Str("5s"), "factor" := Int(2), "maxDuration" := Str("3m")])])
  }

  function InfoJson(reason: string): Json {
    Arr([Obj(map["name" := Str("Reason"), "value" := Str(reason)])])
  }

  function InitiatorOf(r: SyncRequest): string {
    if r.initiatedBy == "" then DEFAULT_INITIATOR else r.initiatedBy
  }

  function UserJson(name: string): Json {
    Obj(map["username" := Str(name)])
  }

  function OperationFields(r: SyncRequest): seq<Field> {
    [Field("sync", Some(SyncJson(r))),
     Field("initiatedBy", Some(UserJson(InitiatorOf(r)))),
     Field("info", When(r.reason != "", InfoJson(r.reason))),
     Field("retry", When(r.retryLimit > 0, RetryJson(r.retryLimit)))]
  }

  function OperationJson(r: SyncRequest): Json {
    Obj(Build(OperationFields(r)))
  }

  function SyncPatchOf(r: SyncRequest): Json {
    Obj(map["operation" := OperationJson(r)])
  }

  /** Builds the patch key by key; refuses exactly the requests that are not acceptable. */
  method SyncPatch(r: SyncRequest) returns (res: Result<Json, SyncError>)
    ensures res.Ok? <==> Acceptable(r)
    ensures res.Ok? ==> res.value == SyncPatchOf(r)
    ensures res.Err? ==> FirstViolation(r, res.error)
  {
    if r.strategy != "" && r.strategy != STRATEGY_APPLY && r.strategy != STRATEGY_HOOK {
      return Err(InvalidStrategy);
    }
    if r.force && r.strategy != STRATEGY_APPLY {
      return Err(ForceWithoutApply);
    }
    if r.revision == "" {
      return Err(EmptyRevision);
    }
    for i := 0 to |r.resources|
      invariant forall k :: 0 <= k < i ==> Complete(r.resources[k])
    {
      if r.resources[i].kind == "" || r.resources[i].name == "" {
        return Err(IncompleteResource(i));
      }
    }
    var sync := BuildSync(r);
    var op := BuildOperation(r, sync);
    return Ok(Obj(map["operation" := Obj(op)]));
  }

  method BuildOperation(r: SyncRequest, sync: map<string, Json>) returns (op: map<string, Json>)
    requires Obj(sync) == SyncJson(r)
    ensures Obj(op) == OperationJson(r)
  {
    ghost var fs := OperationFields(r);
    var initiator := r.initiatedBy;
    if initiator == "" {
      initiator := DEFAULT_INITIATOR;
    }
    op := map["sync" := Obj(sync)];
    op := op["initiatedBy" := UserJson(initiator)];
    assert fs[..0] == [] && fs[..4] == fs;
    BuildStep(fs, 0); BuildStep(fs, 1);
    if r.reason != "" {
      op := op["info" := InfoJson(r.reason)];
    }
    BuildStep(fs, 2);
    if r.retryLimit > 0 {
      op := op["retry" := RetryJson(r.retryLimit)];
    }
    BuildStep(fs, 3);
  }

  /** Fills `sync`: first what is always there or a flag, */
  method BuildFlags(r: SyncRequest) returns (sync: map<string, Json>)
    ensures sync == Build(SyncFields(r)[..4])
  {
    ghost var fs := SyncFields(r);
    assert fs[..0] == [];
    sync := map["revision" := Str(r.revision)];
    BuildStep(fs, 0);
    if r.prune {
      sync := sync["prune" := Bool(true)];
    }
    BuildStep(fs, 1);
    if r.dryRun {
      sync := sync["dryRun" := Bool(true)];
    }
    BuildStep(fs, 2);
    if |r.syncOptions| > 0 {
      sync := sync["syncOptions" := Arr(StringList(r.syncOptions))];
    }
    BuildStep(fs, 3);
  }

  /** then the selection and the strategy, */
  method BuildSelection(r: SyncRequest) returns (sync: map<string, Json>)
    ensures sync == Build(SyncFields(r)[..6])
  {
    ghost var fs := SyncFields(r);
    sync := BuildFlags(r);
    if |r.resources| > 0 {
      var list := BuildResources(r.resources);
      sync := sync["resources" := Arr(list)];
    }
    BuildStep(fs, 4);
    if r.strategy == STRATEGY_APPLY {
      sync := sync["syncStrategy" := ApplyJson(r.force)];
    } else if r.strategy == STRATEGY_HOOK {
      sync := sync["syncStrategy" := HookJson()];
    }
    BuildStep(fs, 5);
  }

  /** and last the source override of a rollback. */
  method BuildSync(r: SyncRequest) returns (sync: map<string, Json>)
    ensures Obj(sync) == SyncJson(r)
  {
    ghost var fs := SyncFields(r);
    sync := BuildSelection(r);
    if r.source.Some? {
      sync := sync["source" := Obj(r.source.value)];
    }
    BuildStep(fs, 6);
    if |r.sources| > 0 {
      sync := sync["sources" := Arr(r.sources)];
    }
    BuildStep(fs, 7);
    assert fs[..8] == fs;
  }

  method BuildResources(rs: seq<ResourceRef>) returns (list: seq<Json>)
    ensures list == ResourceList(rs)
  {
    list := [];
    for i := 0 to |rs|
      invariant |list| == i && forall k :: 0 <= k < i ==> list[k] == ResourceJson(rs[k])
    {
      ghost var fs := ResourceFields(rs[i]);
      assert fs[..0] == [] && fs[..4] == fs;
      var m := map["kind" := Str(rs[i].kind)];
      m := m["name" := Str(rs[i].name)];
      BuildStep(fs, 0); BuildStep(fs, 1);
      if rs[i].group != "" {
        m := m["group" := Str(rs[i].group)];
      }
      BuildStep(fs, 2);
      if rs[i].namespace != "" {
        m := m["namespace" := Str(rs[i].namespace)];
      }
      BuildStep(fs, 3);
      list := list + [Obj(m)];
    }
  }

  // ----- Reading an operation back -----

  function StrategyName(st: Json): string {
    if Has(st, STRATEGY_APPLY) then STRATEGY_APPLY else if Has(st, STRATEGY_HOOK) then STRATEGY_HOOK else ""
  }

  function DecodeResource(j: Json): ResourceRef {
    ResourceRef(Text(Member(j, "group")), Text(Member(j, "kind")),
                Text(Member(j, "namespace")), Text(Member(j, "name")))
  }

  function DecodeResources(js: seq<Json>): seq<ResourceRef> {
    seq(|js|, i requires 0 <= i < |js| => DecodeResource(js[i]))
  }

  function DecodeStrings(js: seq<Json>): seq<string> {
    seq(|js|, i requires 0 <= i < |js| => Text(js[i]))
  }

  function DecodeReason(info: Json): string {
    if Elements(info) == [] then "" else Text(Member(Elements(info)[0], "value"))
  }

  /** What the controller reads out of an operation. */
  function DecodeOperation(op: Json): SyncRequest {
    var sync := Member(op, "sync");
    var st := Member(sync, "syncStrategy");
    var source := Member(sync, "source");
    SyncRequest(
      Text(Member(sync, "revision")), Flag(Member(sync, "prune")), Flag(Member(sync, "dryRun")),
      DecodeStrings(Elements(Member(sync, "syncOptions"))),
      DecodeResources(Elements(Member(sync, "resources"))),
      StrategyName(st), Flag(Member(Member(st, STRATEGY_APPLY), "force")),
      Integer(Member(Member(op, "retry"), "limit")),
      Text(Member(Member(op, "initiatedBy"), "username")),
      DecodeReason(Member(op, "info")),
      if source.Obj? then Some(source.members) else None,
      Elements(Member(sync, "sources")))
  }

  /** What of a request an operation can express. */
  function Normalise(r: SyncRequest): SyncRequest {
    r.(retryLimit := if r.retryLimit > 0 then r.retryLimit else 0, initiatedBy := InitiatorOf(r))
  }

  function OrNull(v: Option<Json>): Json {
    if v.Some? then v.value else Null
  }

  lemma SyncKeysDistinct(r: SyncRequest)
    ensures DistinctKeys(SyncFields(r))
  {
    assert "dryRun"[0] != "source"[0];
  }

  lemma OperationKeysDistinct(r: SyncRequest)
    ensures DistinctKeys(OperationFields(r))
  {
    assert "sync"[0] != "info"[0];
  }

  lemma ResourceKeysDistinct(r: ResourceRef)
    ensures DistinctKeys(ResourceFields(r))
  {
    assert "kind"[0] != "name"[0];
  }

  /** What the members of `sync` are. */
  lemma SyncMembers(r: SyncRequest, i: nat)
    requires i < 8
    ensures var f := SyncFields(r)[i];
            Member(SyncJson(r), f.key) == OrNull(f.value) && (Has(SyncJson(r), f.key) <==> f.value.Some?)
  {
    SyncKeysDistinct(r);
    BuildMember(SyncFields(r), i);
  }

  lemma OperationMembers(r: SyncRequest, i: nat)
    requires i < 4
    ensures var f := OperationFields(r)[i]; Member(OperationJson(r), f.key) == OrNull(f.value)
  {
    OperationKeysDistinct(r);
    BuildMember(OperationFields(r), i);
  }

  lemma ResourceRoundTrip(r: ResourceRef)
    ensures DecodeResource(ResourceJson(r)) == r
  {
    ResourceKeysDistinct(r);
    BuildMember(ResourceFields(r), 0);
    BuildMember(ResourceFields(r), 1);
    BuildMember(ResourceFields(r), 2);
    BuildMember(ResourceFields(r), 3);
  }

  lemma ListsRoundTrip(r: SyncRequest)
    ensures DecodeStrings(StringList(r.syncOptions)) == r.syncOptions
    ensures DecodeResources(ResourceList(r.resources)) == r.resources
  {
    forall i | 0 <= i < |r.resources| ensures DecodeResource(ResourceJson(r.resources[i])) == r.resources[i] {
      ResourceRoundTrip(r.resources[i]);
    }
  }

  lemma StrategyRoundTrip(r: SyncRequest)
    requires Acceptable(r)
    ensures var st := OrNull(StrategyField(r));
            StrategyName(st) == r.strategy && Flag(Member(Member(st, STRATEGY_APPLY), "force")) == r.force
  {
    assert |STRATEGY_APPLY| != |STRATEGY_HOOK|;
  }

  lemma SmallRoundTrips(r: SyncRequest)
    ensures Text(Member(UserJson(InitiatorOf(r)), "username")) == InitiatorOf(r)
    ensures DecodeReason(InfoJson(r.reason)) == r.reason
    ensures Member(RetryJson(r.retryLimit), "limit") == Int(r.retryLimit)
  {
    assert |"name"| != |"value"| && |"limit"| != |"backoff"|;
  }

  /** The members of `sync`, read back. */
  lemma SyncDecodes(r: SyncRequest)
    requires Acceptable(r)
    ensures var sync := SyncJson(r);
            var st := Member(sync, "syncStrategy");
            && Text(Member(sync, "revision")) == r.revision
            && Flag(Member(sync, "prune")) == r.prune
            && Flag(Member(sync, "dryRun")) == r.dryRun
            && DecodeStrings(Elements(Member(sync, "syncOptions"))) == r.syncOptions
            && DecodeResources(Elements(Member(sync, "resources"))) == r.resources
            && StrategyName(st) == r.strategy && Flag(Member(Member(st, STRATEGY_APPLY), "force")) == r.force
            && Member(sync, "source") == (if r.source.Some? then Obj(r.source.value) else Null)
            && Elements(Member(sync, "sources")) == r.sources
  {
    SyncMembers(r, 0); SyncMembers(r, 1); SyncMembers(r, 2); SyncMembers(r, 3);
    SyncMembers(r, 4); SyncMembers(r, 5); SyncMembers(r, 6); SyncMembers(r, 7);
    ListsRoundTrip(r);
    StrategyRoundTrip(r);
  }

  /** An accepted request is read back as it was sent, up to what an operation cannot express. */
  lemma SyncRoundTrip(r: SyncRequest)
    requires Acceptable(r)
    ensures DecodeOperation(OperationJson(r)) == Normalise(r)
    ensures Normalise(r) == r.(retryLimit := if r.retryLimit > 0 then r.retryLimit else 0,
                               initiatedBy := if r.initiatedBy == "" then "argocd-mcp" else r.initiatedBy)
  {
    OperationMembers(r, 0); OperationMembers(r, 1); OperationMembers(r, 2); OperationMembers(r, 3);
    SyncDecodes(r);
    SmallRoundTrips(r);
  }

  /** The parts of a patch that no request can change: it writes `operation` alone, a retry always backs off from
    * five seconds to three minutes, and the reason is recorded under its own name. */
  lemma FixedParts(r: SyncRequest)
    ensures SyncPatchOf(r).members.Keys == {"operation"}
    ensures r.retryLimit > 0 <==> Has(OperationJson(r), "retry")
    ensures r.retryLimit > 0 ==>
              At(SyncPatchOf(r), ["operation", "retry", "backoff"]) ==
              Some(Obj(map["duration" := Str("5s"), "factor" := Int(2), "maxDuration" := Str("3m")]))
    ensures r.reason != "" ==>
              At(SyncPatchOf(r), ["operation", "info"]) ==
              Some(Arr([Obj(map["name" := Str("Reason"), "value" := Str(r.reason)])]))
  {
    OperationMembers(r, 2);
    OperationMembers(r, 3);
    OperationKeysDistinct(r);
    BuildMember(OperationFields(r), 2);
    BuildMember(OperationFields(r), 3);
    assert |"limit"| != |"backoff"|;
    AtThree(SyncPatchOf(r), "operation", "retry", "backoff");
    AtTwo(SyncPatchOf(r), "operation", "info");
  }

  /** Path by path, what an operation asks of a sync: */
  lemma SyncPaths(r: SyncRequest)
    ensures var op := OperationJson(r);
            && At(op, ["sync", "revision"]) == Some(Str(r.revision))
            && At(op, ["sync", "prune"]) == When(r.prune, Bool(true))
            && At(op, ["sync", "dryRun"]) == When(r.dryRun, Bool(true))
            && At(op, ["sync", "syncOptions"]) == When(r.syncOptions != [], Arr(StringList(r.syncOptions)))
            && At(op, ["sync", "resources"]) == When(r.resources != [], Arr(ResourceList(r.resources)))
            && At(op, ["sync", "source"]) == (if r.source.Some? then Some(Obj(r.source.value)) else None)
            && At(op, ["sync", "sources"]) == When(r.sources != [], Arr(r.sources))
  {
    var op := OperationJson(r);
    OperationMembers(r, 0);
    SyncMembers(r, 0); SyncMembers(r, 1); SyncMembers(r, 2); SyncMembers(r, 3);
    SyncMembers(r, 4); SyncMembers(r, 6); SyncMembers(r, 7);
    AtTwo(op, "sync", "revision"); AtTwo(op, "sync", "prune"); AtTwo(op, "sync", "dryRun");
    AtTwo(op, "sync", "syncOptions"); AtTwo(op, "sync", "resources");
    AtTwo(op, "sync", "source"); AtTwo(op, "sync", "sources");
  }

  /** the strategy, */
  lemma StrategyPaths(r: SyncRequest)
    ensures var op := OperationJson(r);
            && (At(op, ["sync", "syncStrategy", "apply"]).Some? <==> r.strategy == "apply")
            && (At(op, ["sync", "syncStrategy", "hook"]).Some? <==> r.strategy == "hook")
            && At(op, ["sync", "syncStrategy", "apply", "force"]) ==
               When(r.strategy == "apply" && r.force, Bool(true))
  {
    var op := OperationJson(r);
    assert |"apply"| == 5 && |"hook"| == 4;
    OperationMembers(r, 0);
    SyncMembers(r, 5);
    AtThree(op, "sync", "syncStrategy", "apply");
    AtThree(op, "sync", "syncStrategy", "hook");
    AtFour(op, "sync", "syncStrategy", "apply", "force");
  }

  /** who asked, why, and how often to try; */
  lemma RestPaths(r: SyncRequest)
    ensures var op := OperationJson(r);
            && At(op, ["initiatedBy", "username"]) ==
               Some(Str(if r.initiatedBy == "" then "argocd-mcp" else r.initiatedBy))
            && At(op, ["info"]) ==
               When(r.reason != "", Arr([Obj(map["name" := Str("Reason"), "value" := Str(r.reason)])]))
            && At(op, ["retry", "limit"]) == When(r.retryLimit > 0, Int(r.retryLimit))
  {
    var op := OperationJson(r);
    assert |"limit"| != |"backoff"|;
    OperationKeysDistinct(r);
    BuildMember(OperationFields(r), 1); BuildMember(OperationFields(r), 2); BuildMember(OperationFields(r), 3);
    AtTwo(op, "initiatedBy", "username");
    AtOne(op, "info");
    AtTwo(op, "retry", "limit");
  }

  /** and each resource selected. */
  lemma ResourcePaths(r: ResourceRef)
    ensures var j := ResourceJson(r);
            && At(j, ["kind"]) == Some(Str(r.kind)) && At(j, ["name"]) == Some(Str(r.name))
            && At(j, ["group"]) == When(r.group != "", Str(r.group))
            && At(j, ["namespace"]) == When(r.namespace != "", Str(r.namespace))
  {
    ResourceKeysDistinct(r);
    BuildMember(ResourceFields(r), 0); BuildMember(ResourceFields(r), 1);
    BuildMember(ResourceFields(r), 2); BuildMember(ResourceFields(r), 3);
    AtOne(ResourceJson(r), "kind"); AtOne(ResourceJson(r), "name");
    AtOne(ResourceJson(r), "group"); AtOne(ResourceJson(r), "namespace");
  }

  /** Two accepted requests build the same patch exactly when they normalise to the same request. */
  lemma SyncPatchInjective(r: SyncRequest, q: SyncRequest)
    requires Acceptable(r) && Acceptable(q)
    ensures SyncPatchOf(r) == SyncPatchOf(q) <==> Normalise(r) == Normalise(q)
  {
    SyncRoundTrip(r);
    SyncRoundTrip(q);
    if SyncPatchOf(r) == SyncPatchOf(q) {
      assert SyncPatchOf(r).members["operation"] == SyncPatchOf(q).members["operation"];
    }
    NormaliseKeepsOperation(r);
    NormaliseKeepsOperation(q);
  }

  lemma NormaliseKeepsOperation(r: SyncRequest)
    ensures OperationJson(Normalise(r)) == OperationJson(r)
  {
    assert SyncFields(Normalise(r)) == SyncFields(r);
    assert OperationFields(Normalise(r)) == OperationFields(r);
  }

  // ----- Checks made on the projection before a patch is built -----

  datatype Busy = OperationRunning | OperationQueued

  /** Refuses an application that is already busy: first one that is running, then one that is queued. */
  function CheckNoOperationInProgress(a: App): Option<Busy> {
    if Running(a.operation) then Some(OperationRunning)
    else if a.hasPendingOp then Some(OperationQueued)
    else None
  }

  datatype HistoryError = NoHistory | UnknownId(available: seq<int>)

  function Ids(h: seq<HistoryEntry>): seq<int> {
    seq(|h|, i requires 0 <= i < |h| => h[i].id)
  }

  /** Scans for the id; a miss reports the ids there are. */
  method FindHistoryEntry(a: App, id: int) returns (res: Result<HistoryEntry, HistoryError>)
    ensures res.Ok? <==> exists i :: 0 <= i < |a.history| && a.history[i].id == id
    ensures res.Ok? ==> FirstWithId(a.history, id) == Some(res.value)
    ensures res.Err? ==> FirstWithId(a.history, id) == None
    ensures res.Err? ==> (res.error.NoHistory? <==> a.history == [])
    ensures res.Err? && res.error.UnknownId? ==>
              |res.error.available| == |a.history|
              && forall i :: 0 <= i < |a.history| ==> res.error.available[i] == a.history[i].id
  {
    for i := 0 to |a.history|
      invariant forall k :: 0 <= k < i ==> a.history[k].id != id
      invariant FirstWithId(a.history[i..], id) == FirstWithId(a.history, id)
    {
      assert a.history[i..][1..] == a.history[i + 1..];
      if a.history[i].id == id {
        return Ok(a.history[i]);
      }
    }
    if |a.history| == 0 {
      return Err(NoHistory);
    }
    var ids := [];
    for i := 0 to |a.history|
      invariant ids == Ids(a.history[..i])
    {
      ids := ids + [a.history[i].id];
    }
    assert a.history[..|a.history|] == a.history;
    return Err(UnknownId(ids));
  }

  /** The revision synced to when the caller gives none: that of the first source, or HEAD; never empty. */
  function DefaultRevision(a: App): (r: string)
    ensures r != ""
    ensures r != "HEAD" ==> |a.sources| > 0 && r == a.sources[0].targetRevision
    ensures r == "HEAD" && |a.sources| > 0 ==> a.sources[0].targetRevision in {"", "HEAD"}
  {
    if |a.sources| > 0 && a.sources[0].targetRevision != "" then a.sources[0].targetRevision else "HEAD"
  }
}
