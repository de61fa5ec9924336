/** The server itself: its counters, the clusters it talks to, and the handlers of the four write tools, step by
  * step (internal/mcpserver/tools_write.go, params.go, internal/metrics/metrics.go). Each handler is proved to do
  * what the model of a whole call says; what that means over runs is proved about the model.
  */
module Servers {
  import opened JsonValues
  import opened Applications
  import opened Operations
  import opened Patches
  import opened Instances
  import opened Registries
  import opened Calls
  import opened Polling
  import opened Waiting

  class Metrics {
    var operations: OpCounters
    var blocked: multiset<BlockLabel>
    /** 1 and 0 of the write-guard gauge; an instance without an entry has no sample. */
    var guard: map<string, bool>

    constructor ()
      ensures operations == multiset{} && blocked == multiset{} && guard == map[]
    {
      operations, blocked, guard := multiset{}, multiset{}, map[];
    }

    method RecordOperation(instance: string, op: OpKind, result: OpResult)
      modifies this`operations
      ensures operations == old(operations) + multiset{OpLabel(Label(instance), op, result)}
    {
      var name := instance;
      if name == "" {
        name := "-";
      }
      operations := operations + multiset{OpLabel(name, op, result)};
    }

    method RecordWriteBlocked(instance: string, reason: BlockReason)
      modifies this`blocked
      ensures blocked == old(blocked) + multiset{BlockLabel(instance, reason)}
    {
      blocked := blocked + multiset{BlockLabel(instance, reason)};
    }

    method SetWriteGuardActive(instance: string, active: bool)
      modifies this`guard
      ensures guard == old(guard)[instance := active]
    {
      guard := guard[instance := active];
    }

    method ClearWriteGuard(instance: string)
      modifies this`guard
      ensures guard == old(guard) - {instance}
    {
      guard := guard - {instance};
    }
  }

  /** The API servers of all instances. */
  class Clusters {
    var store: Store
    ghost var versions: map<Key, nat>
    ghost var sent: seq<Sent>

    method GetApp(k: Key, readError: Option<ApiError>) returns (res: Result<Json, ApiError>)
      ensures res == if readError.Some? then Err(readError.value)
                     else if k in store then Ok(store[k]) else Err(NotFound)
    {
      if readError.Some? {
        return Err(readError.value);
      }
      if k !in store {
        return Err(NotFound);
      }
      return Ok(store[k]);
    }

    /** Merges the patch into what is stored by now, unless it is refused or never arrives. */
    method PatchApp(ghost r: Ready, k: Key, body: Json, policy: Policy, fate: Fate) returns (error: Option<ApiError>)
      requires r.key == k && Body(r.patch) == body
      modifies this
      ensures error == Reported(Lookup(old(store), k), body, policy, fate)
      ensures var persisted := Persists(Lookup(old(store), k), body, policy, fate);
        && store == StoreAfter(old(store), r, persisted)
        && versions == VersionsAfter(old(versions), r, persisted)
        && sent == old(sent) + [EntryFor(old(store), old(versions), r, persisted, fate)]
    {
      var live := Lookup(store, k);
      var persisted := Persists(live, body, policy, fate);
      sent := sent + [EntryFor(store, versions, r, persisted, fate)];
      versions := VersionsAfter(versions, r, persisted);
      error := Reported(live, body, policy, fate);
      if persisted && k in store {
        store := store[k := MergePatch(store[k], body)];
      }
    }

    /** Others write while a call is under way. */
    method Interfere(writes: seq<(Key, Option<Json>)>)
      modifies this
      ensures store == StoreAfterAll(old(store), writes) && versions == VersionsAfterAll(old(versions), writes)
      ensures sent == old(sent)
    {
      for i := 0 to |writes|
        invariant store == StoreAfterAll(old(store), writes[..i])
        invariant versions == VersionsAfterAll(old(versions), writes[..i])
        invariant sent == old(sent)
      {
        assert writes[..i + 1][..i] == writes[..i];
        store := OutsideStore(store, writes[i].0, writes[i].1);
        versions := OutsideVersions(versions, writes[i].0, writes[i].1);
      }
      assert writes[..|writes|] == writes;
    }
  }

  datatype Prepared = Stopped(reply: Reply) | Loaded(inst: Instance, app: App, read: Json)

  class Server {
    const readOnly: bool
    const reg: Registry
    const metrics: Metrics
    const api: Clusters
    const parse: TimeParser

    constructor (readOnly: bool, reg: Registry, metrics: Metrics, api: Clusters, parse: TimeParser)
      ensures this.readOnly == readOnly && this.reg == reg && this.metrics == metrics
      ensures this.api == api && this.parse == parse
    {
      this.readOnly, this.reg, this.metrics, this.api, this.parse := readOnly, reg, metrics, api, parse;
    }

    ghost function Settings(): Settings
      reads reg
    {
      Calls.Settings(readOnly, reg.instances, reg.defaultName, parse)
    }

    ghost function World(): World
      reads metrics, api
    {
      Calls.World(api.store, api.versions, metrics.operations, metrics.blocked, api.sent)
    }

    method AssertWritable(inst: Instance) returns (blocked: Option<BlockReason>)
      modifies metrics`blocked
      ensures blocked == if readOnly then Some(GlobalReadOnly)
              else if inst.readOnly then Some(InstanceReadOnly) else None
      ensures World() == if blocked.Some? then Block(old(World()), inst.name, blocked.value) else old(World())
    {
      if readOnly {
        metrics.RecordWriteBlocked(inst.name, GlobalReadOnly);
        return Some(GlobalReadOnly);
      }
      if inst.readOnly {
        metrics.RecordWriteBlocked(inst.name, InstanceReadOnly);
        return Some(InstanceReadOnly);
      }
      return None;
    }

    /** Resolves the instance, enforces the read-only guards, and loads the application. */
    method PrepareWrite(c: Call, readError: Option<ApiError>) returns (p: Prepared)
      modifies metrics`blocked
      ensures p.Stopped? ==> Begin(Settings(), old(World()), c, readError) == (World(), Finished(p.reply))
      ensures p.Loaded? ==>
        var access := Authorise(Settings(), c);
        && World() == old(World())
        && access.Granted? && readError == None && access.inst == p.inst
        && access.target in api.store && api.store[access.target] == p.read
        && p.app == Project(p.read, parse)
      ensures p.Loaded? ==>
        var k := Key(p.inst.name, if c.ref.namespace != "" then c.ref.namespace else p.inst.namespace, c.ref.name);
        k in api.store && api.store[k] == p.read
    {
      var found := reg.Get(c.ref.instance);
      if found.Err? {
        return Stopped(UnknownInstance);
      }
      var inst := found.value;
      var blocked := AssertWritable(inst);
      if blocked.Some? {
        return Stopped(WritesDisabled(blocked.value));
      }
      if c.ref.name == "" {
        return Stopped(NameRequired);
      }
      var ns := ResolveNamespace(inst, c.ref.namespace);
      var obj := api.GetApp(Key(inst.name, ns, c.ref.name), readError);
      if obj.Err? {
        return Stopped(ReadFailed(obj.error));
      }
      var app := AppFromUnstructured(obj.value, parse);
      return Loaded(inst, app, obj.value);
    }

    /** Records a refusal. */
    method Refused(p: Prepared, c: Call, op: OpKind, result: OpResult, reply: Reply, x: Weather)
      requires p.Loaded? && op == KindOf(c)
      requires var access := Authorise(Settings(), c);
        access.Granted? && x.readError == None && access.inst == p.inst
        && access.target in api.store && api.store[access.target] == p.read && p.app == Project(p.read, parse)
      requires Decide(c, p.app) == Refuse(result, reply)
      modifies metrics`operations
      ensures RunCall(Settings(), old(World()), c, x) == (World(), reply)
    {
      RunRefused(Settings(), World(), c, x, result, reply);
      metrics.RecordOperation(p.inst.name, op, result);
    }

    /** Sends a patch and records its outcome, while others may have written since the read. */
    method Deliver(p: Prepared, op: OpKind, body: Json, x: Weather, ghost ready: Ready) returns (reply: Reply)
      requires p.Loaded? && op == KindOf(ready.call)
      requires ready.instance == p.inst.name && Body(ready.patch) == body
      requires ready.key == Key(p.inst.name, p.app.namespace, p.app.name)
      modifies metrics`operations, api
      ensures Calls.Deliver(OutsideAll(old(World()), x.others), ready, x.policy, x.fate) == (World(), reply)
    {
      Elapse(x.others);
      var error := api.PatchApp(ready, Key(p.inst.name, p.app.namespace, p.app.name), body, x.policy, x.fate);
      if error.Some? {
        metrics.RecordOperation(p.inst.name, op, ErrorResult);
        return PatchFailed(error.value);
      }
      metrics.RecordOperation(p.inst.name, op, OkResult);
      return Requested;
    }

    /** Others write for a while. */
    method Elapse(writes: seq<(Key, Option<Json>)>)
      modifies api
      ensures World() == OutsideAll(old(World()), writes)
    {
      OutsideAllParts(World(), writes);
      api.Interfere(writes);
    }

    /** The patch the model sends for a call that does not refuse. */
    lemma Sending(c: Call, x: Weather, p: Prepared, patch: ToolPatch) returns (ready: Ready)
      requires p.Loaded? && x.readError == None
      requires var access := Authorise(Settings(), c);
        access.Granted? && access.inst == p.inst
        && access.target in api.store && api.store[access.target] == p.read && p.app == Project(p.read, parse)
      requires Decide(c, p.app) == Send(patch)
      ensures ready.call == c && ready.instance == p.inst.name
      ensures ready.key == Key(p.inst.name, p.app.namespace, p.app.name) && ready.patch == patch
      ensures RunCall(Settings(), World(), c, x) ==
              Calls.Deliver(OutsideAll(World(), x.others), ready, x.policy, x.fate)
    {
      Calls.RunSent(Settings(), World(), c, x, p.app, patch);
      ready := ReadyFor(World(), c, p.inst, Authorise(Settings(), c).target, p.read, p.app, patch);
    }

    /** Sends the body that was built, which is that of the patch decided on. */
    method SendPatch(p: Prepared, c: Call, op: OpKind, body: Json, x: Weather, ghost patch: ToolPatch)
      returns (reply: Reply)
      requires p.Loaded? && op == KindOf(c) && x.readError == None
      requires var access := Authorise(Settings(), c);
        access.Granted? && access.inst == p.inst
        && access.target in api.store && api.store[access.target] == p.read && p.app == Project(p.read, parse)
      requires Decide(c, p.app) == Send(patch) && Body(patch) == body
      modifies metrics`operations, api
      ensures RunCall(Settings(), old(World()), c, x) == (World(), reply)
    {
      ghost var ready := Sending(c, x, p, patch);
      reply := Deliver(p, op, body, x, ready);
    }

    method AppSync(c: Call, x: Weather) returns (reply: Reply)
      requires c.Sync?
      modifies metrics`operations, metrics`blocked, api
      ensures RunCall(Settings(), old(World()), c, x) == (World(), reply)
    {
      var p := PrepareWrite(c, x.readError);
      if p.Stopped? {
        return p.reply;
      }
      var busy := CheckNoOperationInProgress(p.app);
      if busy.Some? {
        Refused(p, c, SyncOp, ConflictResult, InProgress(busy.value), x);
        return InProgress(busy.value);
      }
      var revision := c.revision;
      if revision == "" {
        revision := DefaultRevision(p.app);
      }
      var reason := c.reason;
      if reason == "" {
        reason := "requested via argocd-mcp";
      }
      var request := SyncRequest(revision, c.prune, c.dryRun, c.syncOptions, c.resources, c.strategy, c.force,
                                 c.retryLimit, Initiator(c.caller), reason, None, []);
      assert request == SyncRequestOf(c, p.app);
      var patch := SyncPatch(request);
      if patch.Err? {
        Refused(p, c, SyncOp, ErrorResult, BadRequest, x);
        return BadRequest;
      }
      reply := SendPatch(p, c, SyncOp, patch.value, x, Operation(OperationJson(request)));
    }

    method AppRollback(c: Call, x: Weather) returns (reply: Reply)
      requires c.Rollback?
      modifies metrics`operations, metrics`blocked, api
      ensures RunCall(Settings(), old(World()), c, x) == (World(), reply)
    {
      var p := PrepareWrite(c, x.readError);
      if p.Stopped? {
        return p.reply;
      }
      var busy := CheckNoOperationInProgress(p.app);
      if busy.Some? {
        Refused(p, c, RollbackOp, ConflictResult, InProgress(busy.value), x);
        return InProgress(busy.value);
      }
      var entry := FindHistoryEntry(p.app, c.id);
      if entry.Err? {
        Refused(p, c, RollbackOp, ErrorResult, NoSuchEntry, x);
        return NoSuchEntry;
      }
      if p.app.autoSync && !c.force {
        Refused(p, c, RollbackOp, ErrorResult, AutoSyncEnabled, x);
        return AutoSyncEnabled;
      }
      var e := entry.value;
      var request := SyncRequest(e.revision, c.prune, c.dryRun, [], [], "", false, 0, Initiator(c.caller),
                                 "rollback to history id " + Decimal(e.id) + " via argocd-mcp", e.source, e.sources);
      assert request == RollbackRequestOf(c, e);
      var patch := SyncPatch(request);
      if patch.Err? {
        Refused(p, c, RollbackOp, ErrorResult, BadRequest, x);
        return BadRequest;
      }
      reply := SendPatch(p, c, RollbackOp, patch.value, x, Operation(OperationJson(request)));
    }

    method AppTerminateOperation(c: Call, x: Weather) returns (reply: Reply)
      requires c.TerminateOperation?
      modifies metrics`operations, metrics`blocked, api
      ensures RunCall(Settings(), old(World()), c, x) == (World(), reply)
    {
      var p := PrepareWrite(c, x.readError);
      if p.Stopped? {
        return p.reply;
      }
      if p.app.operation.None? || !Running(p.app.operation) {
        Refused(p, c, TerminateOp, ErrorResult, NothingRunning, x);
        return NothingRunning;
      }
      reply := SendPatch(p, c, TerminateOp, Body(Terminate), x, Terminate);
    }

    /** The part of app_refresh before its wait: the baseline is what was read before the patch. */
    method RequestRefresh(c: Call, x: Weather) returns (reply: Reply, key: Key, before: Option<int>)
      requires c.RefreshApp?
      modifies metrics`operations, metrics`blocked, api
      ensures RunCall(Settings(), old(World()), c, x) == (World(), reply)
      ensures reply == Requested ==>
        var access := Authorise(Settings(), c);
        && access.Granted? && access.target in old(api.store)
        && var a := Project(old(api.store)[access.target], parse);
        key == Key(access.inst.name, a.namespace, a.name) && before == a.reconciledAt
    {
      key, before := Key("", "", ""), None;
      var p := PrepareWrite(c, x.readError);
      if p.Stopped? {
        reply := p.reply;
        return;
      }
      key, before := Key(p.inst.name, p.app.namespace, p.app.name), p.app.reconciledAt;
      reply := SendPatch(p, c, RefreshOp, Body(Refresh(c.hard)), x, Refresh(c.hard));
    }

    /** Read i of the wait of app_refresh. */
    method PollKey(key: Key, polls: Polls, i: nat, ghost w: World, ghost tr: Trace) returns (o: Observation)
      requires World() == Elapsed(w, polls, i) && Reads(tr, w, key, polls, parse)
      modifies api
      ensures World() == Elapsed(w, polls, i + 1)
      ensures o == Seeing(tr, i)
    {
      Elapse(OthersAt(polls, i));
      var obj := api.GetApp(key, FailedAt(polls, i));
      assert KeyReadAt(w, key, polls, parse, i) == Seeing(tr, i);
      if obj.Err? {
        return Unreadable;
      }
      var cur := AppFromUnstructured(obj.value, parse);
      return Seen(cur);
    }

    /** Iteration i of the wait of app_refresh: how the wait ends there, if it does. */
    method RefreshOnce(key: Key, deadline: int, before: Option<int>, polls: Polls, i: nat,
                       ghost most: nat, ghost w: World, ghost tr: Trace)
      returns (end: Option<RefreshResult>)
      requires RoomFor(polls.clock, deadline, SECOND, most)
      requires World() == Elapsed(w, polls, i) && Reads(tr, w, key, polls, parse)
      modifies api
      ensures World() == Elapsed(w, polls, i + 1)
      ensures end.None? <==> RefreshGoesOn(tr, deadline, before, i)
      ensures end.None? ==> i < most
      ensures end.Some? ==> end.value == RefreshEnd(tr, deadline, before, i)
    {
      var o := PollKey(key, polls, i, w, tr);
      if o.Unreadable? {
        return Some(RefreshUnreadable);
      }
      var cur := o.app;
      if cur.refreshRequested == "" || ReconciledAfter(cur.reconciledAt, before) {
        return Some(Completed(cur));
      }
      if CheckAt(polls.clock, i) + SECOND > deadline {
        return Some(NotYet(cur));
      }
      if CancelledAt(polls, i) {
        return Some(RefreshCancelled);
      }
      assert Room(polls.clock, deadline, SECOND, i);
      return None;
    }

    /** Reads until the refresh is done, time is up, or the call is cancelled. */
    method WaitUntilRefreshed(key: Key, deadline: int, before: Option<int>, polls: Polls,
                              ghost most: nat, ghost tr: Trace)
      returns (res: RefreshResult, count: nat)
      requires RoomFor(polls.clock, deadline, SECOND, most) && Reads(tr, World(), key, polls, parse)
      modifies api
      ensures RefreshSpec(tr, deadline, before, res, count)
      ensures count <= most + 1
      ensures World() == Elapsed(old(World()), polls, count)
    {
      ghost var w := World();
      count := 0;
      while true
        invariant forall i: nat :: i < count ==> RefreshGoesOn(tr, deadline, before, i)
        invariant count <= most
        invariant World() == Elapsed(w, polls, count)
        decreases most - count
      {
        var end := RefreshOnce(key, deadline, before, polls, count, most, w, tr);
        count := count + 1;
        if end.Some? {
          return end.value, count;
        }
      }
    }

    method WaitForRefresh(key: Key, timeoutSeconds: int, before: Option<int>, t0: int, polls: Polls)
      returns (res: RefreshResult, count: nat)
      requires Timed(polls.clock, t0, 2 * SECOND)
      modifies api
      ensures var timeout := Clamp(timeoutSeconds, 1, 300, 60);
        && RefreshSpec(ReadsOf(old(World()), key, polls, parse), t0 + timeout * SECOND, before, res, count)
        && count <= (timeout + 1) / 2 + 1
      ensures World() == Elapsed(old(World()), polls, count)
    {
      var timeout := Clamp(timeoutSeconds, 1, 300, 60);
      RefreshRoomFor(polls.clock, t0, timeout);
      res, count := WaitUntilRefreshed(key, t0 + timeout * SECOND, before, polls, (timeout + 1) / 2,
                                       ReadsOf(World(), key, polls, parse));
    }

    method AppRefresh(c: Call, x: Weather, wait: Option<bool>, timeoutSeconds: int, t0: int, polls: Polls)
      returns (reply: Reply, waited: Option<RefreshResult>, count: nat)
      requires c.RefreshApp? && Timed(polls.clock, t0, 2 * SECOND)
      modifies metrics`operations, metrics`blocked, api
      ensures var (mid, r) := RunCall(Settings(), old(World()), c, x);
        reply == r && World() == Elapsed(mid, polls, count)
      ensures waited.Some? <==> reply == Requested && wait != Some(false)
      ensures waited.None? ==> count == 0
      ensures waited.Some? ==>
        var access, mid := Authorise(Settings(), c), RunCall(Settings(), old(World()), c, x).0;
        && access.Granted? && access.target in old(api.store)
        && var a := Project(old(api.store)[access.target], parse);
        RefreshSpec(ReadsOf(mid, Key(access.inst.name, a.namespace, a.name), polls, parse),
                    t0 + Clamp(timeoutSeconds, 1, 300, 60) * SECOND, a.reconciledAt, waited.value, count)
    {
      waited, count := None, 0;
      var key, before;
      reply, key, before := RequestRefresh(c, x);
      if reply != Requested {
        return;
      }
      if wait == Some(false) {
        return;
      }
      var res, n := WaitForRefresh(key, timeoutSeconds, before, t0, polls);
      waited, count := Some(res), n;
    }

    /** Resolves the instance and loads one application. */
    method GetProjected(ref: AppRef, readError: Option<ApiError>) returns (app: Option<App>)
      ensures var k := NamedBy(Settings(), ref);
        app == if k.Some? && readError == None && k.value in api.store
               then Some(Project(api.store[k.value], parse)) else None
    {
      var found := reg.Get(ref.instance);
      if found.Err? {
        return None;
      }
      if ref.name == "" {
        return None;
      }
      var inst := found.value;
      var obj := api.GetApp(Key(inst.name, ResolveNamespace(inst, ref.namespace), ref.name), readError);
      if obj.Err? {
        return None;
      }
      var a := AppFromUnstructured(obj.value, parse);
      return Some(a);
    }

    /** Read i of app_wait. */
    method PollRef(ref: AppRef, polls: Polls, i: nat, ghost s: Settings, ghost w: World, ghost tr: Trace)
      returns (o: Observation)
      requires World() == Elapsed(w, polls, i) && Watches(tr, s, w, ref, polls) && s == Settings()
      modifies api
      ensures World() == Elapsed(w, polls, i + 1)
      ensures o == Seeing(tr, i)
    {
      Elapse(OthersAt(polls, i));
      var app := GetProjected(ref, FailedAt(polls, i));
      o := if app.None? then Unreadable else Seen(app.value);
      assert o == ReadAt(s, w, ref, polls, i);
    }

    /** Iteration i of app_wait: how the wait ends there, if it does. */
    method WaitOnce(ref: AppRef, deadline: int, poll: int, forHealthy: bool, polls: Polls, i: nat,
                    ghost most: nat, ghost s: Settings, ghost w: World, ghost tr: Trace)
      returns (end: Option<WaitResult>)
      requires RoomFor(polls.clock, deadline, poll, most)
      requires World() == Elapsed(w, polls, i) && Watches(tr, s, w, ref, polls) && s == Settings()
      modifies api
      ensures World() == Elapsed(w, polls, i + 1)
      ensures end.None? <==> WaitGoesOn(tr, deadline, poll, forHealthy, i)
      ensures end.None? ==> i < most
      ensures end.Some? ==> end.value == WaitEnd(tr, deadline, poll, forHealthy, i)
    {
      var o := PollRef(ref, polls, i, s, w, tr);
      if o.Unreadable? {
        return Some(WaitUnreadable);
      }
      var a := o.app;
      if a.operation.Some? && (a.operation.value.phase == PHASE_FAILED || a.operation.value.phase == PHASE_ERROR) {
        return Some(OperationEnded(a));
      }
      if Synced(a, forHealthy) {
        return Some(Reached(a));
      }
      if CheckAt(polls.clock, i) + poll > deadline {
        return Some(TimedOut(a));
      }
      if CancelledAt(polls, i) {
        return Some(WaitCancelled);
      }
      assert Room(polls.clock, deadline, poll, i);
      return None;
    }

    /** Reads until an operation has failed, the steady state is reached, time is up, or the call is cancelled. */
    method WaitUntilSteady(ref: AppRef, deadline: int, poll: int, forHealthy: bool, polls: Polls, ghost most: nat,
                           ghost tr: Trace)
      returns (res: WaitResult, count: nat)
      requires RoomFor(polls.clock, deadline, poll, most) && Watches(tr, Settings(), World(), ref, polls)
      modifies api
      ensures WaitSpec(tr, deadline, poll, forHealthy, res, count)
      ensures count <= most + 1
      ensures World() == Elapsed(old(World()), polls, count)
    {
      ghost var s, w := Settings(), World();
      count := 0;
      while true
        invariant forall i: nat :: i < count ==> WaitGoesOn(tr, deadline, poll, forHealthy, i)
        invariant count <= most && Settings() == s
        invariant World() == Elapsed(w, polls, count)
        decreases most - count
      {
        var end := WaitOnce(ref, deadline, poll, forHealthy, polls, count, most, s, w, tr);
        count := count + 1;
        if end.Some? {
          return end.value, count;
        }
      }
    }

    /** app_wait once its arguments are in range. */
    method WaitFor(ref: AppRef, t0: int, timeout: nat, poll: nat, forHealthy: bool, polls: Polls, ghost tr: Trace)
      returns (res: WaitResult, count: nat)
      requires poll > 0 && Timed(polls.clock, t0, poll * SECOND) && Watches(tr, Settings(), World(), ref, polls)
      modifies api
      ensures WaitSpec(tr, t0 + timeout * SECOND, poll * SECOND, forHealthy, res, count)
      ensures count <= timeout / poll + 1
      ensures World() == Elapsed(old(World()), polls, count)
    {
      WaitRoom(polls.clock, t0, timeout, poll);
      res, count := WaitUntilSteady(ref, t0 + timeout * SECOND, poll * SECOND, forHealthy, polls, timeout / poll, tr);
    }

    method AppWait(ref: AppRef, timeoutSeconds: int, pollSeconds: int, forHealthy: Option<bool>, t0: int, polls: Polls)
      returns (res: WaitResult, count: nat)
      requires Timed(polls.clock, t0, Clamp(pollSeconds, 1, 30, 3) * SECOND)
      modifies api
      ensures var timeout, poll := Clamp(timeoutSeconds, 1, 900, 300), Clamp(pollSeconds, 1, 30, 3);
        && WaitSpec(Watch(Settings(), old(World()), ref, polls), t0 + timeout * SECOND, poll * SECOND,
                    forHealthy == None || forHealthy.value, res, count)
        && count <= timeout / poll + 1
      ensures World() == Elapsed(old(World()), polls, count)
    {
      var timeout := Clamp(timeoutSeconds, 1, 900, 300);
      var poll := Clamp(pollSeconds, 1, 30, 3);
      var healthy := true;
      if forHealthy.Some? {
        healthy := forHealthy.value;
      }
      res, count := WaitFor(ref, t0, timeout, poll, healthy, polls, Watch(Settings(), World(), ref, polls));
    }
  }
}
