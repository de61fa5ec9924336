/** One concrete input for each property that the program does not have. The objects carry what the Application
  * schema requires (test/e2e/testdata/crds/applications.yaml); how timestamps are parsed is left open.
  */
module Witnesses {
  import opened JsonValues
  import opened Applications
  import opened Operations
  import opened Patches
  import opened WriteGuard
  import opened Instances
  import opened Calls
  import opened Protocol
  import opened Runs
  import opened Polling
  import opened Waiting
  import opened Probe

  // ----- Objects an API server can hold -----

  /** The members that the schema requires of a history entry and of an operation state. */
  predicate CompleteEntry(e: Json) {
    && e.Obj? && Member(e, "id").Int? && Member(e, "deployedAt").Str?
    && (Has(e, "source") ==> Member(Member(e, "source"), "repoURL").Str?)
  }

  predicate CompleteState(os: Json) {
    os.Obj? && Member(os, "operation").Obj? && Member(os, "phase").Str? && Member(os, "startedAt").Str?
  }

  /** The object can be stored under k: it has its names and all that the schema requires. */
  predicate Storable(o: Json, k: Key) {
    && Named(o, k) && k.namespace != "" && k.name != "" && SchemaValid(o)
    && Member(Member(o, "spec"), "project").Str? && Member(Member(o, "spec"), "destination").Obj?
    && (forall e :: e in Elements(Member(Member(o, "status"), "history")) ==> CompleteEntry(e))
    && (Has(Member(o, "status"), "operationState") ==> CompleteState(Member(Member(o, "status"), "operationState")))
  }

  function SpecJson(project: string): Json {
    Obj(map["project" := Str(project),
            "destination" := Obj(map["server" := Str("https://kubernetes.default.svc"), "namespace" := Str("web")]),
            "source" := Obj(map["repoURL" := Str("https://git.example.com/web.git"), "path" := Str("a")])])
  }

  function AppJson(name: string, project: string, status: map<string, Json>): Json {
    Obj(map["metadata" := Obj(map["namespace" := Str("argocd"), "name" := Str(name)]),
            "spec" := SpecJson(project), "status" := Obj(status)])
  }

  function AppKey(name: string): Key {
    Key("local", "argocd", name)
  }

  lemma SpecReads(project: string)
    ensures Member(SpecJson(project), "project") == Str(project) && Member(SpecJson(project), "destination").Obj?
    ensures !Has(SpecJson(project), "syncPolicy")
  {
    assert |"project"| == 7 && |"destination"| == 11 && |"source"| == 6 && |"syncPolicy"| == 10;
  }

  lemma AppJsonReads(name: string, project: string, status: map<string, Json>)
    ensures var o := AppJson(name, project, status);
            && Member(o, "spec") == SpecJson(project) && Member(o, "status") == Obj(status)
            && !Has(o, "operation") && Named(o, AppKey(name)) && SchemaValid(o) && !OverridesSource(o)
  {
    assert |"metadata"| == 8 && |"spec"| == 4 && |"status"| == 6 && |"operation"| == 9;
    assert |"namespace"| == 9 && |"name"| == 4;
  }

  /** An application without a history or an operation state. */
  lemma PlainIsStorable(name: string, project: string, status: map<string, Json>)
    requires name != "" && "history" !in status && "operationState" !in status
    ensures Storable(AppJson(name, project, status), AppKey(name))
  {
    AppJsonReads(name, project, status);
    SpecReads(project);
    assert Member(Obj(status), "history") == Null;
  }

  // ----- A server with one instance -----

  function Local(): Instance {
    Instance("local", "argocd", ["argocd"], false)
  }

  function LocalSettings(parse: TimeParser): Settings {
    Settings(false, map["local" := Local()], "local", parse)
  }

  function StartState(store: Store): State {
    State(World(store, map[], multiset{}, multiset{}, []), map[], [], 0, [])
  }

  function Ref(name: string): AppRef {
    AppRef("", "", name)
  }

  function PlainSync(prune: bool): Call {
    Sync(Ref("web"), None, "", prune, false, [], [], "", false, 0, "")
  }

  lemma LocalNames(c: Call, parse: TimeParser)
    requires c.ref == Ref("web")
    ensures Names(LocalSettings(parse), c, AppKey("web")) && Authorise(LocalSettings(parse), c).inst == Local()
    ensures WellFormed(LocalSettings(parse))
  {
    assert Resolve(LocalSettings(parse).instances, "local", "") == Some(Local());
  }

  /** An application that nothing has happened to, and a server that holds it. */
  function Fresh(): Json {
    AppJson("web", "default", map[])
  }

  function FreshState(): State {
    StartState(map[AppKey("web") := Fresh()])
  }

  lemma FreshReads(parse: TimeParser)
    ensures Storable(Fresh(), AppKey("web")) && Initial(FreshState()) && Idle(Project(Fresh(), parse))
  {
    PlainIsStorable("web", "default", map[]);
    AppJsonReads("web", "default", map[]);
  }

  lemma PlainSyncSends(c: Call, parse: TimeParser)
    requires c == PlainSync(true) || c == PlainSync(false)
    ensures Decide(c, Project(Fresh(), parse)).Send?
    ensures NamesNoSource(RequestOf(c, Project(Fresh(), parse)))
  {
    FreshReads(parse);
    SyncSendsIff(c, Project(Fresh(), parse));
  }

  // ----- Two syncs that race, with the guard in force, and what they leave -----

  /** The first sync prunes and the second does not; both are accepted, and the operation stored prunes. */
  lemma RaceHappens(parse: TimeParser)
    ensures Storable(Fresh(), AppKey("web")) && Initial(FreshState())
    ensures var c, d := PlainSync(true), PlainSync(false);
            var end := Race(LocalSettings(parse), FreshState(), c, d, Policy(true, true)).world;
            && |end.sent| == 2
            && AcceptedRequest(end.sent[0], AppKey("web")) && AcceptedRequest(end.sent[1], AppKey("web"))
            && AppKey("web") in end.store && end.store[AppKey("web")] == RacedObject(Fresh(), c, d, parse)
  {
    var c, d := PlainSync(true), PlainSync(false);
    FreshReads(parse);
    LocalNames(c, parse);
    LocalNames(d, parse);
    PlainSyncSends(c, parse);
    PlainSyncSends(d, parse);
    RaceAcceptsBoth(LocalSettings(parse), FreshState(), c, d, AppKey("web"), Fresh(), Policy(true, true));
  }

  lemma OperationsMix(parse: TimeParser)
    ensures var c, d, a := PlainSync(true), PlainSync(false), Project(Fresh(), parse);
            && Decide(c, a).Send? && Decide(d, a).Send? && !RequestOf(d, a).prune
            && DecodeOperation(Member(RacedObject(Fresh(), c, d, parse), "operation")).prune
  {
    PlainSyncSends(PlainSync(true), parse);
    PlainSyncSends(PlainSync(false), parse);
    RaceMixes(Fresh(), PlainSync(true), PlainSync(false), parse);
  }

  // ----- An answer that is lost -----

  lemma AnswerIsLost(parse: TimeParser)
    ensures Storable(Fresh(), AppKey("web")) && Initial(FreshState())
    ensures var evs := [Event.Read(0, RefreshApp(Ref("web"), true), None),
                        Event.Patch(0, Policy(true, false), Lost(OtherError))];
            var end := Run(LocalSettings(parse), FreshState(), evs).world;
            && Accepted(end.sent, "local") == 1 && AnswersLost(end.sent, "local") == 1
            && OkTotal(end.operations, "local") == 0
  {
    var s, st, c := LocalSettings(parse), FreshState(), RefreshApp(Ref("web"), true);
    var read, patch := Event.Read(0, c, None), Event.Patch(0, Policy(true, false), Lost(OtherError));
    FreshReads(parse);
    LocalNames(c, parse);
    TwoEvents(s, st, read, patch);
    RefreshWaits(parse);
    ReadStep(s, st, 0, c, None);
    LostPatch(s, Step(s, st, read), Begin(s, st.world, c, None).1.ready);
    LedgerBalances(s, st, [read, patch], "local");
  }

  lemma LostPatch(s: Settings, st: State, r: Ready)
    requires st.pending == map[0 := r] && st.world.sent == []
    requires r.key == AppKey("web") && r.key in st.world.store
    ensures var sent := Step(s, st, Event.Patch(0, Policy(true, false), Lost(OtherError))).world.sent;
            Accepted(sent, "local") == 1 && AnswersLost(sent, "local") == 1
  {
    var e, l := DeliverEffect(st.world, r, Policy(true, false), Lost(OtherError));
    SentAppend([], e, "local");
    assert [] + [e] == [e];
  }

  lemma RefreshWaits(parse: TimeParser)
    ensures var c := RefreshApp(Ref("web"), true);
            var (w, b) := Begin(LocalSettings(parse), FreshState().world, c, None);
            w == FreshState().world && b.Waiting? && b.ready.key == AppKey("web")
  {
    var s, c := LocalSettings(parse), RefreshApp(Ref("web"), true);
    LocalNames(c, parse);
    FreshReads(parse);
    ReadyIsOk(s, FreshState().world, c, Authorise(s, c), Fresh(), Refresh(true));
  }

  // ----- A rollback under the guard -----

  function Entry(): Json {
    Obj(map["id" := Int(1), "revision" := Str("main"), "deployedAt" := Str("2024-05-01T10:00:00Z"),
            "source" := Obj(map["repoURL" := Str("https://git.example.com/web.git"), "path" := Str("a")])])
  }

  function WithHistory(): Json {
    AppJson("web", "default", map["history" := Arr([Entry()])])
  }

  lemma EntryReads()
    ensures Member(Entry(), "id") == Int(1) && Member(Entry(), "revision") == Str("main")
    ensures Member(Entry(), "deployedAt").Str? && Member(Entry(), "source").Obj?
    ensures CompleteEntry(Entry())
  {
    assert |"id"| == 2 && |"revision"| == 8 && |"deployedAt"| == 10 && |"source"| == 6;
    assert |"repoURL"| == 7 && |"path"| == 4;
  }

  lemma RollbackIsDenied(parse: TimeParser)
    ensures Storable(WithHistory(), AppKey("web"))
    ensures var c := Rollback(Ref("web"), None, 1, false, false, false);
            var d := Decide(c, Project(WithHistory(), parse));
            d.Send? && Verdict(Some(WithHistory()), Body(d.patch), Policy(true, true)) == Some(PolicyDenied)
  {
    var c := Rollback(Ref("web"), None, 1, false, false, false);
    HistoryReads();
    RollbackTargetIdles(parse);
    EntryIsFound(parse);
    RollbackSendsIff(c, Project(WithHistory(), parse));
    UndisturbedRollbackAdmittedIff(WithHistory(), c, parse);
  }

  lemma HistoryReads()
    ensures Storable(WithHistory(), AppKey("web"))
    ensures Elements(Member(Member(WithHistory(), "status"), "history")) == [Entry()]
    ensures !Has(Member(WithHistory(), "status"), "operationState") && !Has(WithHistory(), "operation")
  {
    var status := map["history" := Arr([Entry()])];
    AppJsonReads("web", "default", status);
    SpecReads("default");
    EntryReads();
    assert Member(Obj(status), "history") == Arr([Entry()]) && |"history"| == 7 && |"operationState"| == 14;
  }

  lemma RollbackTargetIdles(parse: TimeParser)
    ensures Idle(Project(WithHistory(), parse)) && !Project(WithHistory(), parse).autoSync
  {
    HistoryReads();
    AppJsonReads("web", "default", map["history" := Arr([Entry()])]);
    SpecReads("default");
  }

  lemma EntryIsFound(parse: TimeParser)
    ensures var e := FirstWithId(Project(WithHistory(), parse).history, 1);
            e.Some? && e.value.revision == "main" && e.value.source.Some?
  {
    HistoryReads();
    EntryReads();
    LookupReadsRawList(WithHistory(), parse, 1);
    assert FirstRaw([Entry()], 1) == 0;
  }

  // ----- A queued operation that nobody can terminate -----

  /** The application with a sync queued that the controller has not picked up. */
  function Queued(): Json {
    Obj(Fresh().members["operation" := Obj(map["sync" := Obj(map[])])])
  }

  lemma QueuedReads()
    ensures Storable(Queued(), AppKey("web"))
    ensures Member(Queued(), "operation") == Obj(map["sync" := Obj(map[])]) && Member(Queued(), "status") == Obj(map[])
  {
    assert |"metadata"| == 8 && |"spec"| == 4 && |"status"| == 6 && |"operation"| == 9;
    assert |"namespace"| == 9 && |"name"| == 4;
    SpecReads("default");
    assert Member(Queued(), "spec") == SpecJson("default");
    assert Member(Obj(map[]), "history") == Null;
  }

  lemma NothingToTerminate(parse: TimeParser)
    ensures Storable(Queued(), AppKey("web"))
    ensures var a := Project(Queued(), parse);
            && Decide(PlainSync(false), a) == Refuse(ConflictResult, InProgress(OperationQueued))
            && Decide(TerminateOperation(Ref("web")), a) == Refuse(ErrorResult, NothingRunning)
  {
    QueuedReads();
    TerminateExcludesRequests(TerminateOperation(Ref("web")), PlainSync(false), Project(Queued(), parse));
  }

  // ----- A refresh that looks completed -----

  /** The application as it was reconciled at some time, and with the refresh requested. */
  function ReconciledApp(at: string): Json {
    AppJson("web", "default", map["reconciledAt" := Str(at)])
  }

  function Requested(at: string): Json {
    Apply(ReconciledApp(at), Refresh(true))
  }

  lemma ReconciledReads(at: string, parse: TimeParser)
    requires at != ""
    ensures Storable(ReconciledApp(at), AppKey("web")) && Project(ReconciledApp(at), parse).reconciledAt == parse(at)
  {
    assert |"reconciledAt"| == 12 && |"history"| == 7 && |"operationState"| == 14;
    PlainIsStorable("web", "default", map["reconciledAt" := Str(at)]);
    AppJsonReads("web", "default", map["reconciledAt" := Str(at)]);
  }

  lemma RequestedReads(at: string, parse: TimeParser)
    requires at != ""
    ensures var a := Project(Requested(at), parse);
            a.refreshRequested == "hard" && a.reconciledAt == parse(at) && Named(Requested(at), AppKey("web"))
    ensures Annotated(Requested(at))
  {
    ReconciledReads(at, parse);
    assert |"annotations"| == 11 && |"namespace"| == 9 && |"name"| == 4 && |"metadata"| == 8;
    RefreshProjects(ReconciledApp(at), true, parse);
    ApplyKeepsName(ReconciledApp(at), Refresh(true), AppKey("web"));
    RefreshLeaves(ReconciledApp(at), true);
    MetadataLeaves(Member(ReconciledApp(at), "metadata"), true);
    MergeMember(Annotations(ReconciledApp(at)), AnnotationsPatch(true), ANNOTATION_REFRESH);
  }

  /** No time passes but in the sleeps. */
  function Instantly(): Clock {
    Clock((i: nat) => i * (2 * SECOND), (i: nat) => i * (2 * SECOND))
  }

  /** A reconcile that was under way when the patch landed writes its result before the first read. */
  function InFlight(later: string): Polls {
    Polls((i: nat) => if i == 0 then [(AppKey("web"), Some(Requested(later)))] else [],
          (i: nat) => None, Instantly(), (i: nat) => false)
  }

  function RequestedWorld(at: string): World {
    StartState(map[AppKey("web") := Requested(at)]).world
  }

  /** The object patched is the one the baseline was read from, and right after the patch the refresh is not taken
    * for done; yet the first read reports it as completed, the request having been in place all along. */
  lemma InFlightReconcileCompletes(now: string, later: string, parse: TimeParser)
    requires now != "" && later != "" && parse(now).Some? && parse(later).Some? && parse(now).value < parse(later).value
    ensures Storable(ReconciledApp(now), AppKey("web")) && Storable(ReconciledApp(later), AppKey("web"))
    ensures var w, k := RequestedWorld(now), AppKey("web");
            var before, cur := Project(ReconciledApp(now), parse).reconciledAt, Project(Requested(later), parse);
            && !RefreshDone(Project(w.store[k], parse), before)
            && RefreshSpec(ReadsOf(w, k, InFlight(later), parse), 60 * SECOND, before, Completed(cur), 1)
            && CompletedUnanswered(w, k, InFlight(later), Completed(cur), 1)
  {
    ReconciledReads(now, parse);
    ReconciledReads(later, parse);
    RequestedReads(now, parse);
    RequestedReads(later, parse);
    FirstReadSeesIt(now, later, parse);
    CompletesTooEarly(ReadsOf(RequestedWorld(now), AppKey("web"), InFlight(later), parse), parse(now),
                      Project(Requested(now), parse), Project(Requested(later), parse));
    StaysInPlace(now, later, parse);
  }

  lemma CompletesTooEarly(tr: Trace, before: Option<int>, patched: App, cur: App)
    requires patched.reconciledAt == before && patched.refreshRequested == "hard"
    requires ReconciledAfter(cur.reconciledAt, before) && tr.read(0) == Seen(cur) && before.Some?
    ensures !RefreshDone(patched, before)
    ensures RefreshSpec(tr, 60 * SECOND, before, Completed(cur), 1)
  {
    assert !RefreshGoesOn(tr, 60 * SECOND, before, 0);
  }

  lemma OneWrite(later: string)
    ensures PollWrites(InFlight(later), 1) == [(AppKey("web"), Some(Requested(later)))]
  {
    var writes := [(AppKey("web"), Some(Requested(later)))];
    assert OthersAt(InFlight(later), 0) == writes && PollWrites(InFlight(later), 0) + writes == writes;
  }

  lemma FirstReadSeesIt(now: string, later: string, parse: TimeParser)
    requires later != ""
    ensures ReadsOf(RequestedWorld(now), AppKey("web"), InFlight(later), parse).read(0) ==
            Seen(Project(Requested(later), parse))
  {
    RequestedReads(later, parse);
    OneWrite(later);
    ElapsedIsWrites(RequestedWorld(now), InFlight(later), 1);
    LookupAfterAll(RequestedWorld(now).store, PollWrites(InFlight(later), 1), AppKey("web"));
  }

  lemma StaysInPlace(now: string, later: string, parse: TimeParser)
    requires now != "" && later != ""
    ensures Unanswered(RequestedWorld(now), AppKey("web"), InFlight(later), 0)
  {
    RequestedReads(now, parse);
    RequestedReads(later, parse);
    OneWrite(later);
    var w, k, writes := RequestedWorld(now), AppKey("web"), PollWrites(InFlight(later), 1);
    LookupAfterAll(w.store, writes, k);
    LookupAfterAll(w.store, [], k);
    assert writes[..0] == [];
    assert InPlaceThroughout(w, k, []);
  }

  // ----- A read after the deadline -----

  /** With a timeout of one second the second and last read starts a second late. */
  lemma LateRead(at: string, parse: TimeParser)
    requires at != ""
    ensures Storable(ReconciledApp(at), AppKey("web"))
    ensures var a := Project(Requested(at), parse);
            var tr := Trace((i: nat) => Seen(a), Instantly(), (i: nat) => false);
            && Clamp(1, 1, 300, 60) == 1 && ExactSleeps(tr.clock, 0, 2 * SECOND)
            && RefreshSpec(tr, 1 * SECOND, a.reconciledAt, NotYet(a), 2)
            && tr.clock.start(1) == 1 * SECOND + SECOND
  {
    ReconciledReads(at, parse);
    RequestedReads(at, parse);
    SecondReadIsLate(Project(Requested(at), parse));
  }

  lemma SecondReadIsLate(a: App)
    requires a.refreshRequested != ""
    ensures var tr := Trace((i: nat) => Seen(a), Instantly(), (i: nat) => false);
            && ExactSleeps(tr.clock, 0, 2 * SECOND)
            && RefreshSpec(tr, 1 * SECOND, a.reconciledAt, NotYet(a), 2)
            && tr.clock.start(1) == 1 * SECOND + SECOND
  {
    var tr := Trace((i: nat) => Seen(a), Instantly(), (i: nat) => false);
    assert RefreshGoesOn(tr, 1 * SECOND, a.reconciledAt, 0);
    assert !RefreshGoesOn(tr, 1 * SECOND, a.reconciledAt, 1);
  }

  // ----- An old failure reported as that of a new operation -----

  function FailedState(): Json {
    Obj(map["operation" := Obj(map[]), "phase" := Str(PHASE_FAILED), "startedAt" := Str("2024-05-01T10:00:00Z")])
  }

  /** The application after its last operation has failed. */
  function AfterFailure(): Json {
    AppJson("web", "default", map["operationState" := FailedState()])
  }

  lemma FailedStateReads()
    ensures Member(FailedState(), "phase") == Str(PHASE_FAILED) && CompleteState(FailedState())
  {
    assert |"operation"| == 9 && |"phase"| == 5 && |"startedAt"| == 9 && "operation"[0] != "startedAt"[0];
  }

  lemma AfterFailureStorable()
    ensures Storable(AfterFailure(), AppKey("web"))
    ensures Member(Member(AfterFailure(), "status"), "operationState") == FailedState()
    ensures !Has(AfterFailure(), "operation")
  {
    AppJsonReads("web", "default", map["operationState" := FailedState()]);
    SpecReads("default");
    FailedStateReads();
    assert |"operationState"| == 14 && |"history"| == 7;
  }

  lemma AfterFailureReads(parse: TimeParser)
    ensures Idle(Project(AfterFailure(), parse)) && FailedIn(AfterFailure())
  {
    AfterFailureStorable();
    FailedStateReads();
    assert PHASE_FAILED[0] != PHASE_RUNNING[0] && |PHASE_FAILED| != |PHASE_TERMINATING|;
    BrokenReads(AfterFailure(), parse);
  }

  lemma SyncAfterFailure(parse: TimeParser)
    ensures var a := Project(AfterFailure(), parse);
            Decide(PlainSync(false), a) == Send(Operation(OperationJson(SyncRequestOf(PlainSync(false), a))))
  {
    AfterFailureReads(parse);
    SyncSendsIff(PlainSync(false), Project(AfterFailure(), parse));
    SentPatch(PlainSync(false), Project(AfterFailure(), parse));
  }

  /** The new sync is sent, and app_wait, reading before anybody else has written, reports that it failed. */
  lemma OldFailureReported(w: World, p: Polls, deadline: int, poll: int, forHealthy: bool, res: WaitResult, n: nat,
                           parse: TimeParser)
    requires AppKey("web") in w.store
    requires w.store[AppKey("web")] == Apply(AfterFailure(), PatchOf(PlainSync(false), AfterFailure(), parse))
    requires LatestWrite(PollWrites(p, 1), AppKey("web")).None? && FailedAt(p, 0).None?
    requires WaitSpec(Watch(LocalSettings(parse), w, Ref("web"), p), deadline, poll, forHealthy, res, n)
    ensures Storable(AfterFailure(), AppKey("web"))
    ensures Decide(PlainSync(false), Project(AfterFailure(), parse)).Send? && n == 1 && res.OperationEnded?
  {
    AfterFailureStorable();
    AfterFailureReads(parse);
    SyncAfterFailure(parse);
    LocalNames(PlainSync(false), parse);
    OldFailureReportedIff(LocalSettings(parse), w, Ref("web"), p, AppKey("web"), AfterFailure(),
                          OperationJson(SyncRequestOf(PlainSync(false), Project(AfterFailure(), parse))),
                          deadline, poll, forHealthy, res, n);
  }

  // ----- Probes that mislead -----

  function OwnProject(): Json {
    AppJson("api", PROBE_PROJECT, map[])
  }

  lemma GuardedButMissing()
    ensures var store := map[AppKey("api") := OwnProject()];
            var x := Surroundings(Result.Ok([OwnProject()]), [], (k: Key) => Policy(true, true), Answered);
            && Storable(OwnProject(), AppKey("api"))
            && Conclusive(store, Local(), x) && Conclusion(store, Local(), x) == GuardMissing
            && AllProtected(store, "local", x.grants)
  {
    var store := map[AppKey("api") := OwnProject()];
    var x := Surroundings(Result.Ok([OwnProject()]), [], (k: Key) => Policy(true, true), Answered);
    PlainIsStorable("api", PROBE_PROJECT, map[]);
    AppJsonReads("api", PROBE_PROJECT, map[]);
    SpecReads(PROBE_PROJECT);
    assert TargetKey(Local(), OwnProject()) == AppKey("api");
    ConclusionExact(store, Local(), x);
    ProtectedIff(OwnProject(), Policy(true, true));
  }

  /** A role that names the one object it lets the credentials patch, and no guard. */
  function OnlyWeb(): Grants {
    (k: Key) => Policy(k == AppKey("web"), false)
  }

  /** The probe meets another application, is refused, and reports the instance as protected, while any patch of
    * the named one is accepted. */
  lemma ActiveButExposed()
    ensures var api := AppJson("api", "default", map[]);
            var store := map[AppKey("api") := api, AppKey("web") := Fresh()];
            var x := Surroundings(Result.Ok([api]), [], OnlyWeb(), Answered);
            && Storable(api, AppKey("api")) && Storable(Fresh(), AppKey("web"))
            && Conclusive(store, Local(), x) && Conclusion(store, Local(), x) == GuardActive
            && Reading(GaugeAfter(map[], RoundLog(store, [Local()], [x])), "local") == Some(true)
            && !Protected(store[AppKey("web")], x.grants(AppKey("web")))
            && !AllProtected(store, "local", x.grants)
  {
    var api := AppJson("api", "default", map[]);
    var store := map[AppKey("api") := api, AppKey("web") := Fresh()];
    var x := Surroundings(Result.Ok([api]), [], OnlyWeb(), Answered);
    PlainIsStorable("api", "default", map[]);
    PlainIsStorable("web", "default", map[]);
    AppJsonReads("api", "default", map[]);
    assert |"api"| == 3 && "api"[0] != "web"[0];
    assert TargetKey(Local(), api) == AppKey("api");
    ConclusionExact(store, Local(), x);
    ProtectedIff(Fresh(), OnlyWeb()(AppKey("web")));
    var log := RoundLog(store, [Local()], [x]);
    assert [x][..1] == [x] && StoreBefore(store, [x], 1) == store;
    assert Latest(log, 0);
    GaugeShowsLatest(map[], log, 0);
  }
}
