/** The four write tools as decisions and effects (internal/mcpserver/tools_write.go and params.go):
  * what a call concludes from the object it read, and what the answer to its patch leaves behind.
  */
module Calls {
  import opened JsonValues
  import opened Applications
  import opened Operations
  import opened Patches
  import opened WriteGuard
  import opened Instances

  // ----- What is called, and on what -----

  datatype AppRef = AppRef(instance: string, namespace: string, name: string)

  /** A write call; `caller` is the authenticated user, if there is one. */
  datatype Call =
    | Sync(ref: AppRef, caller: Option<string>, revision: string, prune: bool, dryRun: bool,
           syncOptions: seq<string>, resources: seq<ResourceRef>, strategy: string, force: bool,
           retryLimit: int, reason: string)
    | RefreshApp(ref: AppRef, hard: bool)
    | Rollback(ref: AppRef, caller: Option<string>, id: int, prune: bool, dryRun: bool, force: bool)
    | TerminateOperation(ref: AppRef)

  /** An Application of one instance. Instances are separate clusters. */
  datatype Key = Key(instance: string, namespace: string, name: string)

  type Store = map<Key, Json>

  datatype Settings = Settings(readOnly: bool, instances: map<string, Instance>, defaultName: string, parse: TimeParser)

  // ----- What is recorded -----

  datatype OpKind = SyncOp | RefreshOp | RollbackOp | TerminateOp
  datatype OpResult = OkResult | ConflictResult | ErrorResult
  datatype OpLabel = OpLabel(instance: string, op: OpKind, result: OpResult)
  datatype BlockReason = GlobalReadOnly | InstanceReadOnly
  datatype BlockLabel = BlockLabel(instance: string, reason: BlockReason)

  /** A counter vector: how often each label has been counted. */
  type OpCounters = multiset<OpLabel>

  function KindOf(c: Call): OpKind {
    if c.Sync? then SyncOp else if c.RefreshApp? then RefreshOp else if c.Rollback? then RollbackOp else TerminateOp
  }

  /** The instance label of an operation; an empty one is written as a dash. */
  function Label(instance: string): string {
    if instance == "" then "-" else instance
  }

  // ----- What a call decides -----

  datatype Reply =
    | UnknownInstance
    | WritesDisabled(reason: BlockReason)
    | NameRequired
    | ReadFailed(cause: ApiError)
    | InProgress(busy: Busy)
    | NoSuchEntry
    | AutoSyncEnabled
    | BadRequest
    | NothingRunning
    | PatchFailed(cause: ApiError)
    | Requested

  /** What a call that got through prepareWrite is counted as, from what it tells its caller. */
  function ResultOf(reply: Reply): OpResult {
    if reply == Requested then OkResult else if reply.InProgress? then ConflictResult else ErrorResult
  }

  datatype Decision = Refuse(result: OpResult, reply: Reply) | Send(patch: ToolPatch)

  function Initiator(caller: Option<string>): string {
    if caller.Some? && caller.value != "" then "argocd-mcp:" + caller.value else "argocd-mcp"
  }

  function Digits(n: nat): string {
    (if n < 10 then "" else Digits(n / 10)) + [['0', '1', '2', '3', '4', '5', '6', '7', '8', '9'][n % 10]]
  }

  function Decimal(n: int): string {
    if n < 0 then "-" + Digits(-n) else Digits(n)
  }

  function SyncRequestOf(c: Call, a: App): SyncRequest
    requires c.Sync?
  {
    SyncRequest(
      if c.revision == "" then DefaultRevision(a) else c.revision,
      c.prune, c.dryRun, c.syncOptions, c.resources, c.strategy, c.force, c.retryLimit,
      Initiator(c.caller),
      if c.reason == "" then "requested via argocd-mcp" else c.reason,
      None, [])
  }

  function RollbackRequestOf(c: Call, e: HistoryEntry): SyncRequest
    requires c.Rollback?
  {
    SyncRequest(
      e.revision, c.prune, c.dryRun, [], [], "", false, 0,
      Initiator(c.caller),
      "rollback to history id " + Decimal(e.id) + " via argocd-mcp",
      e.source, e.sources)
  }

  function SendRequest(r: SyncRequest): Decision {
    if Acceptable(r) then Send(Operation(OperationJson(r))) else Refuse(ErrorResult, BadRequest)
  }

  /** What a call concludes from the application it read. */
  function Decide(c: Call, a: App): Decision {
    var busy := CheckNoOperationInProgress(a);
    if c.Sync? then
      if busy.Some? then Refuse(ConflictResult, InProgress(busy.value))
      else SendRequest(SyncRequestOf(c, a))
    else if c.RefreshApp? then
      Send(Refresh(c.hard))
    else if c.Rollback? then
      var entry := FirstWithId(a.history, c.id);
      if busy.Some? then Refuse(ConflictResult, InProgress(busy.value))
      else if entry.None? then Refuse(ErrorResult, NoSuchEntry)
      else if a.autoSync && !c.force then Refuse(ErrorResult, AutoSyncEnabled)
      else SendRequest(RollbackRequestOf(c, entry.value))
    else
      if Running(a.operation) then Send(Terminate) else Refuse(ErrorResult, NothingRunning)
  }

  // ----- Exact send conditions -----

  predicate Idle(a: App) {
    !Running(a.operation) && !a.hasPendingOp
  }

  /** A sync is sent exactly when the application is idle and the request is well formed; the revision never matters. */
  lemma SyncSendsIff(c: Call, a: App)
    requires c.Sync?
    ensures Decide(c, a).Send? <==>
            && Idle(a)
            && c.strategy in {"", "apply", "hook"} && (c.force ==> c.strategy == "apply")
            && (forall i :: 0 <= i < |c.resources| ==> c.resources[i].kind != "" && c.resources[i].name != "")
  {
    var r := SyncRequestOf(c, a);
    assert r.revision != "" && r.resources == c.resources && r.strategy == c.strategy && r.force == c.force;
  }

  /** A rollback is sent exactly when the application is idle, the id exists, automated sync is off or
    * overridden, and the entry found first has a revision. */
  lemma RollbackSendsIff(c: Call, a: App)
    requires c.Rollback?
    ensures Decide(c, a).Send? <==>
            && Idle(a)
            && (a.autoSync ==> c.force)
            && FirstWithId(a.history, c.id).Some?
            && FirstWithId(a.history, c.id).value.revision != ""
  {
    if FirstWithId(a.history, c.id).Some? {
      var r := RollbackRequestOf(c, FirstWithId(a.history, c.id).value);
      assert r.strategy == "" && !r.force && r.resources == [];
    }
  }

  /** A terminate is sent exactly on a running or terminating operation. Hence a sync or rollback and a
    * terminate are never both sent for one state, and an operation that is only queued lets neither through,
    * although the refusal of the former names the latter as the remedy. */
  lemma TerminateExcludesRequests(t: Call, c: Call, a: App)
    requires t.TerminateOperation? && (c.Sync? || c.Rollback?)
    ensures Decide(t, a).Send? <==>
            a.operation.Some? && a.operation.value.phase in {"Running", "Terminating"}
    ensures !(Decide(t, a).Send? && Decide(c, a).Send?)
    ensures a.hasPendingOp && !Running(a.operation) ==>
            Decide(t, a) == Refuse(ErrorResult, NothingRunning) &&
            Decide(c, a) == Refuse(ConflictResult, InProgress(OperationQueued))
  {
  }

  /** Whatever is sent has the shape the write guard expects, and a request to sync comes from an idle application. */
  lemma SentIsWellShaped(c: Call, a: App)
    requires Decide(c, a).Send?
    ensures WellShaped(Decide(c, a).patch)
    ensures Decide(c, a).patch.Operation? <==> c.Sync? || c.Rollback?
    ensures Decide(c, a).patch.Operation? ==> Idle(a)
    ensures Decide(c, a).patch.Terminate? ==> Running(a.operation)
  {
    if c.Sync? {
      RequestShape(SyncRequestOf(c, a));
    } else if c.Rollback? {
      RequestShape(RollbackRequestOf(c, FirstWithId(a.history, c.id).value));
    }
  }

  lemma IdleOverridesNothing(live: Json, parse: TimeParser)
    requires Idle(Project(live, parse))
    ensures !Member(live, "operation").Obj? && !OverridesSource(live)
  {
  }

  /** The patch of a request that is sent. */
  lemma SentPatch(c: Call, a: App)
    requires Decide(c, a).Send?
    ensures c.Sync? ==> Decide(c, a).patch == Operation(OperationJson(SyncRequestOf(c, a)))
    ensures c.Rollback? ==>
            FirstWithId(a.history, c.id).Some? &&
            Decide(c, a).patch == Operation(OperationJson(RollbackRequestOf(c, FirstWithId(a.history, c.id).value)))
    ensures c.Sync? || c.Rollback? ==> Idle(a)
    ensures c.Sync? ==> Acceptable(SyncRequestOf(c, a))
    ensures c.Rollback? ==> Acceptable(RollbackRequestOf(c, FirstWithId(a.history, c.id).value))
  {
  }

  // ----- What is asked for -----

  /** The operation asks for what the caller of app_sync asked for: everything as given, with a revision, an initiator
    * and a reason filled in where there is none, a retry limit only when it is positive, and no source of its own. */
  predicate AsksForSync(q: SyncRequest, c: Call, a: App)
    requires c.Sync?
  {
    && q.revision == (if c.revision != "" then c.revision
                      else if a.sources != [] && a.sources[0].targetRevision != "" then a.sources[0].targetRevision
                      else "HEAD")
    && q.prune == c.prune && q.dryRun == c.dryRun
    && q.syncOptions == c.syncOptions && q.resources == c.resources
    && q.strategy == c.strategy && q.force == c.force
    && q.retryLimit == (if c.retryLimit > 0 then c.retryLimit else 0)
    && q.initiatedBy == (if c.caller in {None, Some("")} then "argocd-mcp" else "argocd-mcp:" + c.caller.value)
    && q.reason == (if c.reason != "" then c.reason else "requested via argocd-mcp")
    && q.source == None && q.sources == []
  }

  /** What app_sync sends is read back as what its caller asked for. */
  lemma SyncAsks(c: Call, a: App)
    requires c.Sync? && Decide(c, a).Send?
    ensures Decide(c, a).patch.Operation?
    ensures AsksForSync(DecodeOperation(Decide(c, a).patch.op), c, a)
  {
    SentPatch(c, a);
    SyncRoundTrip(SyncRequestOf(c, a));
  }

  /** The operation asks for the deployment recorded in this entry of status.history, as it stands there. */
  predicate AsksForRollback(q: SyncRequest, c: Call, entry: Json)
    requires c.Rollback?
  {
    && q.revision == TextAt(entry, ["revision"]) != ""
    && q.source == (if ObjectAt(entry, ["source"]) then Some(At(entry, ["source"]).value.members) else None)
    && q.sources == ElementsAt(entry, ["sources"])
    && q.prune == c.prune && q.dryRun == c.dryRun
    && q.syncOptions == [] && q.resources == [] && q.strategy == "" && !q.force && q.retryLimit == 0
    && q.initiatedBy == (if c.caller in {None, Some("")} then "argocd-mcp" else "argocd-mcp:" + c.caller.value)
    && q.reason == "rollback to history id " + Decimal(c.id) + " via argocd-mcp"
  }

  /** What app_rollback sends is read back as the first map-shaped entry of status.history with the id. */
  lemma RollbackAsks(c: Call, o: Json, parse: TimeParser)
    requires c.Rollback? && Decide(c, Project(o, parse)).Send?
    ensures Decide(c, Project(o, parse)).patch.Operation?
    ensures var raw := ElementsAt(o, ["status", "history"]);
            var n := FirstRaw(raw, c.id);
            n < |raw| && AsksForRollback(DecodeOperation(Decide(c, Project(o, parse)).patch.op), c, raw[n])
  {
    SentPatch(c, Project(o, parse));
    EntryFound(o, parse, c.id);
    var raw := ElementsAt(o, ["status", "history"]);
    var entry := raw[FirstRaw(raw, c.id)];
    SyncRoundTrip(RollbackRequestOf(c, HistoryFromMap(entry, parse)));
    EntryAsks(c, entry, parse);
  }

  lemma EntryFound(o: Json, parse: TimeParser, id: int)
    ensures var raw, e := ElementsAt(o, ["status", "history"]), FirstWithId(Project(o, parse).history, id);
            var n := FirstRaw(raw, id);
            e == if n < |raw| then Some(HistoryFromMap(raw[n], parse)) else None
  {
    AtTwo(o, "status", "history");
    LookupReadsRawList(o, parse, id);
  }

  lemma EntryAsks(c: Call, entry: Json, parse: TimeParser)
    requires c.Rollback? && Integer(Member(entry, "id")) == c.id && Text(Member(entry, "revision")) != ""
    ensures AsksForRollback(Normalise(RollbackRequestOf(c, HistoryFromMap(entry, parse))), c, entry)
  {
    AtOne(entry, "source");
    OneStep(entry, "revision");
    OneStep(entry, "sources");
  }

  /** The number a string of digits stands for. */
  function ReadDigits(s: string): int {
    if s == [] then 0 else ReadDigits(s[..|s| - 1]) * 10 + (s[|s| - 1] as int - '0' as int)
  }

  predicate Plain(s: string) {
    && s != [] && (|s| > 1 ==> s[0] != '0')
    && forall i :: 0 <= i < |s| ==> '0' <= s[i] <= '9'
  }

  /** The last digit of a number, and what comes before it. */
  lemma LastDigit(n: nat)
    ensures Digits(n) != []
    ensures var front, last := Digits(n)[..|Digits(n)| - 1], Digits(n)[|Digits(n)| - 1];
            && front == (if n < 10 then "" else Digits(n / 10))
            && '0' <= last <= '9' && last as int - '0' as int == n % 10
  {
  }

  lemma {:induction false} DigitsRead(n: nat)
    ensures Plain(Digits(n)) && ReadDigits(Digits(n)) == n
    ensures n > 0 ==> Digits(n)[0] != '0'
  {
    LastDigit(n);
    if n >= 10 {
      DigitsRead(n / 10);
    }
  }

  /** The id in a rollback's reason reads back as the id. */
  lemma DecimalReads(n: int)
    ensures n >= 0 ==> Plain(Decimal(n)) && ReadDigits(Decimal(n)) == n
    ensures n < 0 ==> Decimal(n)[0] == '-' && Plain(Decimal(n)[1..]) && ReadDigits(Decimal(n)[1..]) == -n
  {
    DigitsRead(if n < 0 then -n else n);
    if n < 0 {
      assert Decimal(n)[1..] == Digits(-n);
    }
  }

  // ----- What a call concludes, in terms of the object it read -----

  /** The phase the last operation is recorded in, if there was one. */
  function PhaseIn(o: Json): string {
    TextAt(o, ["status", "operationState", "phase"])
  }

  predicate RunningIn(o: Json) {
    PhaseIn(o) in {"Running", "Terminating"}
  }

  predicate QueuedIn(o: Json) {
    ObjectAt(o, ["operation"])
  }

  lemma IdleReads(o: Json, parse: TimeParser)
    ensures Running(Project(o, parse).operation) <==> RunningIn(o)
    ensures Project(o, parse).hasPendingOp <==> QueuedIn(o)
  {
    AtOne(o, "operation");
    PhaseReads(o, parse);
    assert Project(o, parse).operation == OperationOf(Member(o, "status"), parse);
  }

  lemma PhaseReads(o: Json, parse: TimeParser)
    ensures Running(OperationOf(Member(o, "status"), parse)) <==> RunningIn(o)
  {
    ThreeSteps(o, "status", "operationState", "phase");
  }

  /** A busy application refuses both requests, and a running operation is reported before a queued one. */
  lemma BusyOutcome(c: Call, o: Json, parse: TimeParser)
    requires c.Sync? || c.Rollback?
    ensures var d := Decide(c, Project(o, parse));
            && (d == Refuse(ConflictResult, InProgress(OperationRunning)) <==> RunningIn(o))
            && (d == Refuse(ConflictResult, InProgress(OperationQueued)) <==> !RunningIn(o) && QueuedIn(o))
            && (d.Refuse? && d.reply.InProgress? <==> RunningIn(o) || QueuedIn(o))
  {
    IdleReads(o, parse);
  }

  /** On one that is not busy, a sync is refused only as malformed. */
  lemma SyncOutcome(c: Call, o: Json, parse: TimeParser)
    requires c.Sync? && !RunningIn(o) && !QueuedIn(o)
    ensures var d := Decide(c, Project(o, parse));
            d.Send? || d == Refuse(ErrorResult, BadRequest)
  {
    IdleReads(o, parse);
  }

  /** A rollback is refused for want of the entry, then because automated sync would revert it, then for want of a
    * revision in the entry. */
  lemma RollbackOutcome(c: Call, o: Json, parse: TimeParser)
    requires c.Rollback? && !RunningIn(o) && !QueuedIn(o)
    ensures var d, raw := Decide(c, Project(o, parse)), ElementsAt(o, ["status", "history"]);
            var n := FirstRaw(raw, c.id);
            if n == |raw| then d == Refuse(ErrorResult, NoSuchEntry)
            else if ObjectAt(o, ["spec", "syncPolicy", "automated"]) && !c.force then
              d == Refuse(ErrorResult, AutoSyncEnabled)
            else if TextAt(raw[n], ["revision"]) == "" then d == Refuse(ErrorResult, BadRequest)
            else d.Send?
  {
    var raw := ElementsAt(o, ["status", "history"]);
    IdleReads(o, parse);
    RollbackConcludes(c, Project(o, parse));
    EntryFound(o, parse, c.id);
    AutoSyncReads(o, parse);
    if FirstRaw(raw, c.id) < |raw| {
      OneStep(raw[FirstRaw(raw, c.id)], "revision");
    }
  }

  lemma AutoSyncReads(o: Json, parse: TimeParser)
    ensures Project(o, parse).autoSync == ObjectAt(o, ["spec", "syncPolicy", "automated"])
  {
    ThreeSteps(o, "spec", "syncPolicy", "automated");
  }

  lemma RollbackConcludes(c: Call, a: App)
    requires c.Rollback? && Idle(a)
    ensures var d, e := Decide(c, a), FirstWithId(a.history, c.id);
            if e == None then d == Refuse(ErrorResult, NoSuchEntry)
            else if a.autoSync && !c.force then d == Refuse(ErrorResult, AutoSyncEnabled)
            else if e.value.revision == "" then d == Refuse(ErrorResult, BadRequest)
            else d.Send?
  {
    RollbackSendsIff(c, a);
  }

  /** A terminate is sent exactly on a running operation, a refresh always and as hard as it was asked for. */
  lemma OtherOutcomes(c: Call, o: Json, parse: TimeParser)
    ensures c.TerminateOperation? ==>
              Decide(c, Project(o, parse)) ==
              if RunningIn(o) then Send(Terminate) else Refuse(ErrorResult, NothingRunning)
    ensures c.RefreshApp? ==> Decide(c, Project(o, parse)) == Send(Refresh(c.hard))
  {
    IdleReads(o, parse);
  }

  /** With the guard in force and no write in between, a sync is always admitted. */
  lemma UndisturbedSyncAdmitted(live: Json, c: Call, parse: TimeParser)
    requires SchemaValid(live) && c.Sync? && Decide(c, Project(live, parse)).Send?
    ensures Admits(live, Apply(live, Decide(c, Project(live, parse)).patch))
  {
    var a := Project(live, parse);
    SentPatch(c, a);
    IdleOverridesNothing(live, parse);
    RequestAdmittedIff(live, SyncRequestOf(c, a));
  }

  /** With the guard in force and no write in between, a rollback is admitted exactly when the history
    * entry it goes back to names no source: the rollback of an entry that does name one is always denied. */
  lemma UndisturbedRollbackAdmittedIff(live: Json, c: Call, parse: TimeParser)
    requires SchemaValid(live) && c.Rollback? && Decide(c, Project(live, parse)).Send?
    ensures var e := FirstWithId(Project(live, parse).history, c.id).value;
            Admits(live, Apply(live, Decide(c, Project(live, parse)).patch)) <==> e.source.None? && e.sources == []
  {
    var a := Project(live, parse);
    SentPatch(c, a);
    IdleOverridesNothing(live, parse);
    RequestAdmittedIff(live, RollbackRequestOf(c, FirstWithId(a.history, c.id).value));
  }

  // ----- The API server's answer -----

  datatype ApiError = PolicyDenied | Forbidden | NotFound | OtherError

  /** What the API server lets these credentials do at the moment of a patch. */
  datatype Policy = Policy(canPatch: bool, guarded: bool)

  /** What becomes of a request: answered; never processed; or processed with the answer lost. */
  datatype Fate = Answered | Dropped(cause: ApiError) | Lost(cause: ApiError)

  /** The verdict on a patch: authorization, then existence, then admission. */
  function Verdict(live: Option<Json>, body: Json, policy: Policy): Option<ApiError> {
    if !policy.canPatch then Some(Forbidden)
    else if live.None? then Some(NotFound)
    else if policy.guarded && !Admits(live.value, MergePatch(live.value, body)) then Some(PolicyDenied)
    else None
  }

  predicate Persists(live: Option<Json>, body: Json, policy: Policy, fate: Fate) {
    !fate.Dropped? && Verdict(live, body, policy).None?
  }

  /** The error the client sees, if any. */
  function Reported(live: Option<Json>, body: Json, policy: Policy, fate: Fate): Option<ApiError> {
    match fate
    case Answered => Verdict(live, body, policy)
    case Dropped(e) => Some(e)
    case Lost(e) => Some(e)
  }

  // ----- The world a call acts on -----

  /** One patch this server has sent, with what was read before it and what it met. */
  datatype Sent = Sent(
    call: Call, key: Key, patch: ToolPatch,
    read: Json, readVersion: nat, live: Option<Json>, version: nat,
    persisted: bool, answered: bool)

  /** Stored objects with a count of the writes to each, the two counter vectors, and the log of patches sent. */
  datatype World = World(
    store: Store, versions: map<Key, nat>,
    operations: OpCounters, blocked: multiset<BlockLabel>,
    sent: seq<Sent>)

  function Lookup(store: Store, k: Key): Option<Json> {
    if k in store then Some(store[k]) else None
  }

  function CountOf(versions: map<Key, nat>, k: Key): nat {
    if k in versions then versions[k] else 0
  }

  function VersionOf(w: World, k: Key): nat {
    CountOf(w.versions, k)
  }

  /** A write by anybody else; the API server does not let a write rename an object. */
  function Outside(w: World, k: Key, o: Option<Json>): World {
    w.(store := OutsideStore(w.store, k, o), versions := OutsideVersions(w.versions, k, o))
  }

  function OutsideStore(store: Store, k: Key, o: Option<Json>): Store {
    if o.None? then store - {k} else if Named(o.value, k) then store[k := o.value] else store
  }

  function OutsideVersions(versions: map<Key, nat>, k: Key, o: Option<Json>): map<Key, nat> {
    if o.None? || Named(o.value, k) then versions[k := CountOf(versions, k) + 1] else versions
  }

  /** The object carries the namespace and the name it is stored under. */
  predicate Named(o: Json, k: Key) {
    var m := Member(o, "metadata");
    Text(Member(m, "namespace")) == k.namespace && Text(Member(m, "name")) == k.name
  }

  ghost predicate WellNamed(store: Store) {
    forall k :: k in store ==> Named(store[k], k)
  }

  /** A patch a call is about to send: where, what, and what it was decided on. */
  datatype Ready = Ready(call: Call, instance: string, key: Key, patch: ToolPatch, read: Json, readVersion: nat)

  datatype Begun = Finished(reply: Reply) | Waiting(ready: Ready)

  function Record(w: World, instance: string, op: OpKind, result: OpResult): World {
    w.(operations := w.operations + multiset{OpLabel(Label(instance), op, result)})
  }

  function Block(w: World, instance: string, reason: BlockReason): World {
    w.(blocked := w.blocked + multiset{BlockLabel(instance, reason)})
  }

  /** The application a call names, once its instance is known. */
  function TargetOf(inst: Instance, ref: AppRef): Key {
    Key(inst.name, ResolveNamespace(inst, ref.namespace), ref.name)
  }

  /** prepareWrite up to the read: the instance and where to read, or why not. */
  datatype Access = Denied(reply: Reply) | Granted(inst: Instance, target: Key)

  function Authorise(s: Settings, c: Call): Access {
    var found := Resolve(s.instances, s.defaultName, c.ref.instance);
    if found.None? then Denied(UnknownInstance)
    else if s.readOnly then Denied(WritesDisabled(GlobalReadOnly))
    else if found.value.readOnly then Denied(WritesDisabled(InstanceReadOnly))
    else if c.ref.name == "" then Denied(NameRequired)
    else Granted(found.value, TargetOf(found.value, c.ref))
  }

  /** The one label a call that got through prepareWrite is recorded under. */
  function LabelFor(s: Settings, c: Call, reply: Reply): OpLabel {
    var access := Authorise(s, c);
    OpLabel(Label(if access.Granted? then access.inst.name else ""), KindOf(c), ResultOf(reply))
  }

  /** Writes are refused exactly on a known instance that is read-only itself or in a read-only server, whatever
    * else is wrong with the call, and the global reason wins. */
  lemma ReadOnlyRefusalIff(s: Settings, c: Call)
    ensures var inst, access := Resolve(s.instances, s.defaultName, c.ref.instance), Authorise(s, c);
            && (access.Denied? && access.reply.WritesDisabled? <==> inst.Some? && (s.readOnly || inst.value.readOnly))
            && (access == Denied(WritesDisabled(GlobalReadOnly)) <==> inst.Some? && s.readOnly)
  {
  }

  /** The name of the instance a call is about. */
  function InstanceName(s: Settings, ref: AppRef): string {
    if ref.instance == "" then s.defaultName else ref.instance
  }

  /** A call is let through to its application exactly when its instance is known, neither the server nor the
    * instance is read-only, and it gives a name. The application is the one of that name in the namespace the call
    * gives, or else in the instance's own. What is missing is reported in this order. */
  lemma AuthoriseExact(s: Settings, c: Call)
    ensures var access, ref, name := Authorise(s, c), c.ref, InstanceName(s, c.ref);
            if name !in s.instances then access == Denied(UnknownInstance)
            else
              var inst := s.instances[name];
              if s.readOnly then access == Denied(WritesDisabled(GlobalReadOnly))
              else if inst.readOnly then access == Denied(WritesDisabled(InstanceReadOnly))
              else if ref.name == "" then access == Denied(NameRequired)
              else
                access == Granted(inst,
                  Key(inst.name, if ref.namespace != "" then ref.namespace else inst.namespace, ref.name))
  {
  }

  /** What a call that got through prepareWrite is counted as. */
  lemma LabelExact(s: Settings, c: Call, reply: Reply)
    requires Authorise(s, c).Granted?
    ensures var l, inst := LabelFor(s, c, reply), Authorise(s, c).inst;
            && l.instance == (if inst.name == "" then "-" else inst.name)
            && (l.op == SyncOp <==> c.Sync?) && (l.op == RefreshOp <==> c.RefreshApp?)
            && (l.op == RollbackOp <==> c.Rollback?) && (l.op == TerminateOp <==> c.TerminateOperation?)
            && (l.result == OkResult <==> reply == Requested) && (l.result == ConflictResult <==> reply.InProgress?)
  {
  }

  /** The first half of a call: up to the decision whether to send, and what. */
  function Begin(s: Settings, w: World, c: Call, readError: Option<ApiError>): (World, Begun) {
    var access := Authorise(s, c);
    if access.Denied? then
      if access.reply.WritesDisabled? then
        var inst := Resolve(s.instances, s.defaultName, c.ref.instance).value;
        (Block(w, inst.name, access.reply.reason), Finished(access.reply))
      else (w, Finished(access.reply))
    else
      var live := Lookup(w.store, access.target);
      if readError.Some? then (w, Finished(ReadFailed(readError.value)))
      else if live.None? then (w, Finished(ReadFailed(NotFound)))
      else
        var a := Project(live.value, s.parse);
        match Decide(c, a)
        case Refuse(result, reply) => (Record(w, access.inst.name, KindOf(c), result), Finished(reply))
        case Send(patch) =>
          var key := Key(access.inst.name, a.namespace, a.name);
          (w, Waiting(Ready(c, access.inst.name, key, patch, live.value, VersionOf(w, access.target))))
  }

  /** A call that is not let through, or whose application cannot be read, ends with the reason and counts no
    * operation; */
  lemma ReadStops(s: Settings, w: World, c: Call, readError: Option<ApiError>)
    ensures var access, (w', b) := Authorise(s, c), Begin(s, w, c, readError);
            && (access.Denied? ==> b == Finished(access.reply) && w'.operations == w.operations)
            && (access.Granted? && (readError.Some? || access.target !in w.store) ==>
                  w' == w && b == Finished(ReadFailed(if readError.Some? then readError.value else NotFound)))
  {
  }

  /** any other ends as it decides on what it read, or waits to send what it decided on. */
  lemma ReadDecides(s: Settings, w: World, c: Call)
    requires Authorise(s, c).Granted? && Authorise(s, c).target in w.store
    ensures var d, b := Decide(c, Project(w.store[Authorise(s, c).target], s.parse)), Begin(s, w, c, None).1;
            if d.Send? then b.Waiting? && b.ready.patch == d.patch else b == Finished(d.reply)
  {
  }

  /** What the API servers hold after a patch, and the entry it leaves in the log. */
  function StoreAfter(store: Store, r: Ready, persisted: bool): Store {
    if persisted && r.key in store then store[r.key := Apply(store[r.key], r.patch)] else store
  }

  function VersionsAfter(versions: map<Key, nat>, r: Ready, persisted: bool): map<Key, nat> {
    if persisted then versions[r.key := CountOf(versions, r.key) + 1] else versions
  }

  function EntryFor(store: Store, versions: map<Key, nat>, r: Ready, persisted: bool, fate: Fate): Sent {
    Sent(r.call, r.key, r.patch, r.read, r.readVersion, Lookup(store, r.key), CountOf(versions, r.key),
         persisted, fate.Answered?)
  }

  /** The second half: the patch meets whatever is stored by then. */
  function Deliver(w: World, r: Ready, policy: Policy, fate: Fate): (World, Reply) {
    var live := Lookup(w.store, r.key);
    var persisted := Persists(live, Body(r.patch), policy, fate);
    var error := Reported(live, Body(r.patch), policy, fate);
    Delivered(w, r, persisted, error, fate)
  }

  function Delivered(w: World, r: Ready, persisted: bool, error: Option<ApiError>, fate: Fate): (World, Reply) {
    var result := if error.None? then OkResult else ErrorResult;
    (World(StoreAfter(w.store, r, persisted), VersionsAfter(w.versions, r, persisted),
           Record(w, r.instance, KindOf(r.call), result).operations, w.blocked,
           w.sent + [EntryFor(w.store, w.versions, r, persisted, fate)]),
     if error.None? then Requested else PatchFailed(error.value))
  }

  // ----- A whole call -----

  /** What surrounds a call: whether its read fails, what others write before its patch, how that is answered. */
  datatype Weather = Weather(readError: Option<ApiError>, others: seq<(Key, Option<Json>)>, policy: Policy, fate: Fate)

  function OutsideAll(w: World, writes: seq<(Key, Option<Json>)>): World {
    if writes == [] then w
    else
      var last := writes[|writes| - 1];
      Outside(OutsideAll(w, writes[..|writes| - 1]), last.0, last.1)
  }

  function StoreAfterAll(store: Store, writes: seq<(Key, Option<Json>)>): Store {
    if writes == [] then store
    else
      var last := writes[|writes| - 1];
      OutsideStore(StoreAfterAll(store, writes[..|writes| - 1]), last.0, last.1)
  }

  function VersionsAfterAll(versions: map<Key, nat>, writes: seq<(Key, Option<Json>)>): map<Key, nat> {
    if writes == [] then versions
    else
      var last := writes[|writes| - 1];
      OutsideVersions(VersionsAfterAll(versions, writes[..|writes| - 1]), last.0, last.1)
  }

  /** The writes of others touch the store and the versions only. */
  lemma {:induction false} OutsideAllParts(w: World, writes: seq<(Key, Option<Json>)>)
    ensures OutsideAll(w, writes) ==
            w.(store := StoreAfterAll(w.store, writes), versions := VersionsAfterAll(w.versions, writes))
  {
    if writes != [] {
      OutsideAllParts(w, writes[..|writes| - 1]);
    }
  }

  function RunCall(s: Settings, w: World, c: Call, x: Weather): (World, Reply) {
    var (w1, begun) := Begin(s, w, c, x.readError);
    match begun
    case Finished(reply) => (w1, reply)
    case Waiting(ready) => Deliver(OutsideAll(w1, x.others), ready, x.policy, x.fate)
  }

  /** A call that got through prepareWrite and decides to refuse. */
  lemma RunRefused(s: Settings, w: World, c: Call, x: Weather, result: OpResult, reply: Reply)
    requires Authorise(s, c).Granted? && x.readError == None && Authorise(s, c).target in w.store
    requires Decide(c, Project(w.store[Authorise(s, c).target], s.parse)) == Refuse(result, reply)
    ensures RunCall(s, w, c, x) == (Record(w, Authorise(s, c).inst.name, KindOf(c), result), reply)
  {
  }

  /** The patch a call sends when it does not refuse. */
  function ReadyFor(w: World, c: Call, inst: Instance, target: Key, read: Json, a: App, patch: ToolPatch): Ready {
    Ready(c, inst.name, Key(inst.name, a.namespace, a.name), patch, read, VersionOf(w, target))
  }

  lemma RunSent(s: Settings, w: World, c: Call, x: Weather, a: App, patch: ToolPatch)
    requires Authorise(s, c).Granted? && x.readError == None && Authorise(s, c).target in w.store
    requires a == Project(w.store[Authorise(s, c).target], s.parse) && Decide(c, a) == Send(patch)
    ensures var access := Authorise(s, c);
            RunCall(s, w, c, x) ==
            Deliver(OutsideAll(w, x.others),
                    ReadyFor(w, c, access.inst, access.target, w.store[access.target], a, patch), x.policy, x.fate)
  {
  }
}
