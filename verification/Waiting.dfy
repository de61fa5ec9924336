/** What the waits of app_wait and app_refresh see of the store, while others write between their reads. */
module Waiting {
  import opened JsonValues
  import opened Applications
  import opened Patches
  import opened Instances
  import opened Calls
  import opened Polling

  /** What surrounds a wait: what others write before each read, whether it fails, the clock, cancellation. */
  datatype Polls = Polls(
    others: nat -> seq<(Key, Option<Json>)>, failed: nat -> Option<ApiError>, clock: Clock, cancelled: nat -> bool)

  function OthersAt(p: Polls, i: nat): seq<(Key, Option<Json>)> {
    p.others(i)
  }

  function FailedAt(p: Polls, i: nat): Option<ApiError> {
    p.failed(i)
  }

  predicate CancelledAt(p: Polls, i: nat) {
    p.cancelled(i)
  }

  /** The world once others have written what they write before the first n reads. */
  function Elapsed(w: World, p: Polls, n: nat): World {
    if n == 0 then w else OutsideAll(Elapsed(w, p, n - 1), OthersAt(p, n - 1))
  }

  function Observe(store: Store, k: Key, failed: Option<ApiError>, parse: TimeParser): Observation {
    if failed.Some? || k !in store then Unreadable else Seen(Project(store[k], parse))
  }

  /** Read i of a wait on one application. */
  function KeyReadAt(w: World, k: Key, p: Polls, parse: TimeParser, i: nat): Observation {
    Observe(Elapsed(w, p, i + 1).store, k, FailedAt(p, i), parse)
  }

  /** What a wait on one application sees. */
  function ReadsOf(w: World, k: Key, p: Polls, parse: TimeParser): Trace {
    Trace((i: nat) => KeyReadAt(w, k, p, parse, i), p.clock, p.cancelled)
  }

  /** tr is what such a wait sees; stated so that only a read brings it to mind. */
  ghost predicate Reads(tr: Trace, w: World, k: Key, p: Polls, parse: TimeParser) {
    && tr.clock == p.clock && tr.cancelled == p.cancelled
    && forall i: nat {:trigger KeyReadAt(w, k, p, parse, i)} :: tr.read(i) == KeyReadAt(w, k, p, parse, i)
  }

  /** The application a reading call names, if its instance is known and it has a name. */
  function NamedBy(s: Settings, ref: AppRef): Option<Key> {
    var found := Resolve(s.instances, s.defaultName, ref.instance);
    if found.None? || ref.name == "" then None else Some(TargetOf(found.value, ref))
  }

  function ObserveRef(s: Settings, store: Store, ref: AppRef, failed: Option<ApiError>): Observation {
    var k := NamedBy(s, ref);
    if k.None? then Unreadable else Observe(store, k.value, failed, s.parse)
  }

  /** Read i of app_wait. */
  function ReadAt(s: Settings, w: World, ref: AppRef, p: Polls, i: nat): Observation {
    ObserveRef(s, Elapsed(w, p, i + 1).store, ref, FailedAt(p, i))
  }

  /** What app_wait sees. */
  function Watch(s: Settings, w: World, ref: AppRef, p: Polls): Trace {
    Trace((i: nat) => ReadAt(s, w, ref, p, i), p.clock, p.cancelled)
  }

  /** tr is what app_wait sees; stated so that only a read brings it to mind. */
  ghost predicate Watches(tr: Trace, s: Settings, w: World, ref: AppRef, p: Polls) {
    && tr.clock == p.clock && tr.cancelled == p.cancelled
    && forall i: nat {:trigger ReadAt(s, w, ref, p, i)} :: tr.read(i) == ReadAt(s, w, ref, p, i)
  }

  /** All that others write before the first n reads. */
  function PollWrites(p: Polls, n: nat): seq<(Key, Option<Json>)> {
    if n == 0 then [] else PollWrites(p, n - 1) + OthersAt(p, n - 1)
  }

  lemma {:induction false} OutsideAllAppend(w: World, a: seq<(Key, Option<Json>)>, b: seq<(Key, Option<Json>)>)
    ensures OutsideAll(w, a + b) == OutsideAll(OutsideAll(w, a), b)
  {
    if b == [] {
      assert a + b == a;
    } else {
      OutsideAllAppend(w, a, b[..|b| - 1]);
      assert (a + b)[..|a + b| - 1] == a + b[..|b| - 1];
    }
  }

  lemma {:induction false} ElapsedIsWrites(w: World, p: Polls, n: nat)
    ensures Elapsed(w, p, n) == OutsideAll(w, PollWrites(p, n))
    ensures Elapsed(w, p, n).store == StoreAfterAll(w.store, PollWrites(p, n))
  {
    if n > 0 {
      ElapsedIsWrites(w, p, n - 1);
      OutsideAllAppend(w, PollWrites(p, n - 1), OthersAt(p, n - 1));
    }
    OutsideAllParts(w, PollWrites(p, n));
  }

  // ----- What a read finds -----

  /** A write takes effect on k: it removes it, or stores an object under its own name. */
  predicate TakesEffect(write: (Key, Option<Json>), k: Key) {
    write.0 == k && (write.1.Some? ==> Named(write.1.value, k))
  }

  /** What the latest write that takes effect on k leaves there, if there is such a write. */
  function LatestWrite(writes: seq<(Key, Option<Json>)>, k: Key): Option<Option<Json>> {
    if writes == [] then None
    else
      var last := writes[|writes| - 1];
      if TakesEffect(last, k) then Some(last.1) else LatestWrite(writes[..|writes| - 1], k)
  }

  lemma {:induction false} LookupAfterAll(store: Store, writes: seq<(Key, Option<Json>)>, k: Key)
    ensures Lookup(StoreAfterAll(store, writes), k) ==
            var latest := LatestWrite(writes, k);
            if latest.Some? then latest.value else Lookup(store, k)
  {
    if writes != [] {
      LookupAfterAll(store, writes[..|writes| - 1], k);
    }
  }

  // ----- When the refresh wait is too early -----

  /** The wait gets as far as read d, as far as reads, clock and cancellation are concerned. */
  predicate Reaches(tr: Trace, deadline: int, d: nat) {
    && tr.read(d).Seen?
    && forall i: nat :: i < d ==> tr.read(i).Seen? && tr.clock.check(i) + SECOND <= deadline && !tr.cancelled(i)
  }

  function Annotations(o: Json): Json {
    Member(Member(o, "metadata"), "annotations")
  }

  /** The object carries the refresh annotation: the controller has not answered the request. */
  predicate Annotated(o: Json) {
    Has(Annotations(o), ANNOTATION_REFRESH)
  }

  /** The request as the projection shows it; it shows none when the annotations cannot be read. */
  function ShownRequest(o: Json): string {
    LookupText(StringMap(Annotations(o)), ANNOTATION_REFRESH)
  }

  /** What is stored under k when read i is made, if anything is. */
  function StoredAt(w: World, k: Key, p: Polls, i: nat): Option<Json> {
    Lookup(Elapsed(w, p, i + 1).store, k)
  }

  /** The request has been in place ever since the patch, through every write up to read d: the controller has not
    * answered it. */
  predicate Unanswered(w: World, k: Key, p: Polls, d: nat) {
    InPlaceThroughout(w, k, PollWrites(p, d + 1))
  }

  /** The object is there and carries the annotation after these writes and after every part of them that comes
    * first. */
  predicate InPlaceThroughout(w: World, k: Key, writes: seq<(Key, Option<Json>)>) {
    var o := Lookup(StoreAfterAll(w.store, writes), k);
    o.Some? && Annotated(o.value) && (writes != [] ==> InPlaceThroughout(w, k, writes[..|writes| - 1]))
  }

  lemma {:induction false} InPlaceEarlier(
      w: World, k: Key, few: seq<(Key, Option<Json>)>, all: seq<(Key, Option<Json>)>)
    requires few <= all && InPlaceThroughout(w, k, all)
    ensures InPlaceThroughout(w, k, few)
  {
    if few == all {
    } else {
      InPlaceEarlier(w, k, few, all[..|all| - 1]);
    }
  }

  lemma {:induction false} WritesGrow(p: Polls, a: nat, b: nat)
    requires a <= b
    ensures PollWrites(p, a) <= PollWrites(p, b)
  {
    if a < b {
      WritesGrow(p, a, b - 1);
    }
  }

  /** What was unanswered at a read was so at every earlier one. */
  lemma UnansweredBefore(w: World, k: Key, p: Polls, a: nat, b: nat)
    requires a <= b && Unanswered(w, k, p, b)
    ensures Unanswered(w, k, p, a)
  {
    WritesGrow(p, a + 1, b + 1);
    InPlaceEarlier(w, k, PollWrites(p, a + 1), PollWrites(p, b + 1));
  }

  /** The time of the last reconcile recorded in an object. */
  function Reconciled(o: Json, parse: TimeParser): Option<int> {
    Instant(Member(Member(o, "status"), "reconciledAt"), parse)
  }

  /** That of what is stored once the writes are done: the latest write to it, or else the object the patch met. */
  function ReconcileShown(met: Json, latest: Option<Option<Json>>, parse: TimeParser): Option<int> {
    if latest.None? then Reconciled(met, parse)
    else if latest.value.None? then None
    else Reconciled(latest.value.value, parse)
  }

  /** What read d finds takes the refresh for done: the object was reconciled after the baseline, be it by a write
    * that landed before the patch or by one that landed after it, or its annotations show no request. */
  predicate ShowsDone(met: Json, w: World, k: Key, p: Polls, parse: TimeParser, before: Option<int>, d: nat) {
    || ReconciledAfter(ReconcileShown(met, LatestWrite(PollWrites(p, d + 1), k), parse), before)
    || (StoredAt(w, k, p, d).Some? && ShownRequest(StoredAt(w, k, p, d).value) == "")
  }

  /** Some read is too early: the wait gets to it and takes the refresh for done, while the request has been in
    * place all along. */
  ghost predicate ReadsTooEarly(
      met: Json, w: World, k: Key, p: Polls, parse: TimeParser, deadline: int, before: Option<int>) {
    ReachesOne(ReadsOf(w, k, p, parse), deadline, DoneBy(met, w, k, p, parse, before), UnansweredBy(w, k, p))
  }

  function DoneBy(met: Json, w: World, k: Key, p: Polls, parse: TimeParser, before: Option<int>): nat -> bool {
    (d: nat) => ShowsDone(met, w, k, p, parse, before, d)
  }

  function UnansweredBy(w: World, k: Key, p: Polls): nat -> bool {
    (d: nat) => Unanswered(w, k, p, d)
  }

  /** The wait gets to a read that is done and at which something else holds too. */
  ghost predicate ReachesOne(tr: Trace, deadline: int, done: nat -> bool, other: nat -> bool) {
    exists d: nat :: Reaches(tr, deadline, d) && done(d) && other(d)
  }

  lemma LastIsReached(tr: Trace, deadline: int, before: Option<int>, res: RefreshResult, n: nat)
    requires RefreshSpec(tr, deadline, before, res, n) && res.Completed?
    ensures Reaches(tr, deadline, n - 1)
  {
    forall i: nat | i < n - 1
      ensures tr.read(i).Seen? && tr.clock.check(i) + SECOND <= deadline && !tr.cancelled(i)
    {
      assert RefreshGoesOn(tr, deadline, before, i);
    }
  }

  /** The wait ends no later than at a read it gets to that is done, and then with it. */
  lemma EndsTooEarly(tr: Trace, deadline: int, before: Option<int>, res: RefreshResult, n: nat, d: nat)
    requires RefreshSpec(tr, deadline, before, res, n)
    requires Reaches(tr, deadline, d) && RefreshDone(tr.read(d).app, before)
    ensures n - 1 <= d && res.Completed?
  {
    assert !RefreshGoesOn(tr, deadline, before, d);
  }

  /** A wait ends at the first read that is done, if it gets to one; what holds there held before. */
  lemma EndsAtOneIff(tr: Trace, deadline: int, before: Option<int>, res: RefreshResult, n: nat,
                     done: nat -> bool, other: nat -> bool)
    requires RefreshSpec(tr, deadline, before, res, n)
    requires forall d: nat :: tr.read(d).Seen? ==> (RefreshDone(tr.read(d).app, before) <==> done(d))
    requires forall a: nat, b: nat :: a <= b && other(b) ==> other(a)
    ensures res.Completed? && other(n - 1) <==> ReachesOne(tr, deadline, done, other)
  {
    if res.Completed? && other(n - 1) {
      RefreshCompletesOnlyWhenDone(tr, deadline, before, res, n);
      LastIsReached(tr, deadline, before, res, n);
      assert done(n - 1);
    }
    if ReachesOne(tr, deadline, done, other) {
      var d: nat :| Reaches(tr, deadline, d) && done(d) && other(d);
      EndsTooEarly(tr, deadline, before, res, n, d);
    }
  }

  lemma Observed(store: Store, k: Key, failed: Option<ApiError>, parse: TimeParser)
    ensures var o := Observe(store, k, failed, parse);
            o.Seen? ==> k in store && o.app.reconciledAt == Reconciled(store[k], parse)
                        && o.app.refreshRequested == ShownRequest(store[k])
  {
  }

  lemma RefreshKeepsReconciled(met: Json, hard: bool, parse: TimeParser)
    ensures Reconciled(Apply(met, Refresh(hard)), parse) == Reconciled(met, parse)
  {
    RefreshLeaves(met, hard);
  }

  lemma StoredReconcile(store: Store, k: Key, writes: seq<(Key, Option<Json>)>, parse: TimeParser, met: Json,
                        hard: bool)
    requires k in store && store[k] == Apply(met, Refresh(hard))
    ensures var end := StoreAfterAll(store, writes);
            k in end ==> Reconciled(end[k], parse) == ReconcileShown(met, LatestWrite(writes, k), parse)
  {
    LookupAfterAll(store, writes, k);
    RefreshKeepsReconciled(met, hard, parse);
  }

  lemma StoredLater(w: World, k: Key, p: Polls, parse: TimeParser, met: Json, hard: bool, d: nat)
    requires k in w.store && w.store[k] == Apply(met, Refresh(hard))
    ensures var stored := StoredAt(w, k, p, d);
            stored.Some? ==>
              Reconciled(stored.value, parse) == ReconcileShown(met, LatestWrite(PollWrites(p, d + 1), k), parse)
  {
    ElapsedIsWrites(w, p, d + 1);
    StoredReconcile(w.store, k, PollWrites(p, d + 1), parse, met, hard);
  }

  /** What read d shows. */
  lemma ShownAt(w: World, k: Key, p: Polls, parse: TimeParser, met: Json, hard: bool, d: nat)
    requires k in w.store && w.store[k] == Apply(met, Refresh(hard))
    ensures var o, stored := ReadsOf(w, k, p, parse).read(d), StoredAt(w, k, p, d);
            o.Seen? ==>
              && stored.Some? && o.app.refreshRequested == ShownRequest(stored.value)
              && o.app.reconciledAt == ReconcileShown(met, LatestWrite(PollWrites(p, d + 1), k), parse)
  {
    Observed(Elapsed(w, p, d + 1).store, k, FailedAt(p, d), parse);
    StoredLater(w, k, p, parse, met, hard, d);
  }

  /** The wait says completed although the request has been in place all along. */
  ghost predicate CompletedUnanswered(w: World, k: Key, p: Polls, res: RefreshResult, n: nat)
    requires n >= 1
  {
    res.Completed? && UnansweredBy(w, k, p)(n - 1)
  }

  /** Exactly when app_refresh reports a refresh as completed that the controller has not answered. */
  lemma RefreshTooEarlyIff(w: World, k: Key, p: Polls, parse: TimeParser, met: Json, hard: bool,
                           deadline: int, before: Option<int>, res: RefreshResult, n: nat)
    requires k in w.store && w.store[k] == Apply(met, Refresh(hard))
    requires RefreshSpec(ReadsOf(w, k, p, parse), deadline, before, res, n)
    ensures CompletedUnanswered(w, k, p, res, n) <==> ReadsTooEarly(met, w, k, p, parse, deadline, before)
  {
    UnansweredShrinks(w, k, p);
    RefreshEndsIff(w, k, p, parse, met, hard, deadline, before, res, n, UnansweredBy(w, k, p));
  }

  lemma UnansweredShrinks(w: World, k: Key, p: Polls)
    ensures forall a: nat, b: nat :: a <= b && UnansweredBy(w, k, p)(b) ==> UnansweredBy(w, k, p)(a)
  {
    forall a: nat, b: nat | a <= b && UnansweredBy(w, k, p)(b) ensures UnansweredBy(w, k, p)(a) {
      UnansweredBefore(w, k, p, a, b);
    }
  }

  lemma RefreshEndsIff(w: World, k: Key, p: Polls, parse: TimeParser, met: Json, hard: bool,
                       deadline: int, before: Option<int>, res: RefreshResult, n: nat, other: nat -> bool)
    requires k in w.store && w.store[k] == Apply(met, Refresh(hard))
    requires RefreshSpec(ReadsOf(w, k, p, parse), deadline, before, res, n)
    requires forall a: nat, b: nat :: a <= b && other(b) ==> other(a)
    ensures res.Completed? && other(n - 1) <==>
            ReachesOne(ReadsOf(w, k, p, parse), deadline, DoneBy(met, w, k, p, parse, before), other)
  {
    var tr, done := ReadsOf(w, k, p, parse), DoneBy(met, w, k, p, parse, before);
    forall d: nat | tr.read(d).Seen? ensures RefreshDone(tr.read(d).app, before) <==> done(d) {
      DoneIff(w, k, p, parse, met, hard, before, d);
    }
    EndsAtOneIff(tr, deadline, before, res, n, done, other);
  }

  /** A read that succeeds takes the refresh for done exactly when what it finds shows it. */
  lemma DoneIff(w: World, k: Key, p: Polls, parse: TimeParser, met: Json, hard: bool, before: Option<int>, d: nat)
    requires k in w.store && w.store[k] == Apply(met, Refresh(hard))
    requires ReadsOf(w, k, p, parse).read(d).Seen?
    ensures RefreshDone(ReadsOf(w, k, p, parse).read(d).app, before) <==> ShowsDone(met, w, k, p, parse, before, d)
  {
    ShownAt(w, k, p, parse, met, hard, d);
  }

  lemma RequestedPasses(s: Settings, w: World, c: Call, x: Weather)
    requires RunCall(s, w, c, x).1 == Requested
    ensures Authorise(s, c).Granted? && x.readError == None && Authorise(s, c).target in w.store
  {
  }

  lemma RequestedLands(w: World, r: Ready, policy: Policy, fate: Fate)
    requires Deliver(w, r, policy, fate).1 == Requested
    ensures r.key in w.store && r.key in Deliver(w, r, policy, fate).0.store
    ensures Deliver(w, r, policy, fate).0.store[r.key] == Apply(w.store[r.key], r.patch)
  {
  }

  /** After an accepted refresh the object its patch met is stored with the patch merged in. */
  lemma RefreshLanded(s: Settings, w: World, c: Call, x: Weather)
    requires c.RefreshApp? && RunCall(s, w, c, x).1 == Requested
    ensures var access, end := Authorise(s, c), RunCall(s, w, c, x).0;
            && access.Granted? && access.target in w.store
            && var a := Project(w.store[access.target], s.parse);
            var k, met := Key(access.inst.name, a.namespace, a.name), OutsideAll(w, x.others).store;
            k in met && k in end.store && end.store[k] == Apply(met[k], Refresh(c.hard))
  {
    RequestedPasses(s, w, c, x);
    var access := Authorise(s, c);
    var o := w.store[access.target];
    var a := Project(o, s.parse);
    RunSent(s, w, c, x, a, Refresh(c.hard));
    var r := ReadyFor(w, c, access.inst, access.target, o, a, Refresh(c.hard));
    RequestedLands(OutsideAll(w, x.others), r, x.policy, x.fate);
  }

  /** The same for a whole call of app_refresh, from its first read on: the baseline is what that read showed. */
  lemma RefreshCallTooEarlyIff(s: Settings, w: World, c: Call, x: Weather, p: Polls, deadline: int,
                               res: RefreshResult, n: nat)
    requires c.RefreshApp? && RunCall(s, w, c, x).1 == Requested
    requires var access, mid := Authorise(s, c), RunCall(s, w, c, x).0;
             && access.Granted? && access.target in w.store
             && var a := Project(w.store[access.target], s.parse);
             RefreshSpec(ReadsOf(mid, Key(access.inst.name, a.namespace, a.name), p, s.parse), deadline,
               a.reconciledAt, res, n)
    ensures var access, mid := Authorise(s, c), RunCall(s, w, c, x).0;
            var a := Project(w.store[access.target], s.parse);
            var k, before := Key(access.inst.name, a.namespace, a.name), OutsideAll(w, x.others).store;
            k in before &&
            (CompletedUnanswered(mid, k, p, res, n) <==>
             ReadsTooEarly(before[k], mid, k, p, s.parse, deadline, a.reconciledAt))
  {
    var access := Authorise(s, c);
    var a := Project(w.store[access.target], s.parse);
    var k := Key(access.inst.name, a.namespace, a.name);
    RefreshLanded(s, w, c, x);
    RefreshTooEarlyIff(RunCall(s, w, c, x).0, k, p, s.parse, OutsideAll(w, x.others).store[k], c.hard, deadline,
                       a.reconciledAt, res, n);
  }

  /** The refresh asked for is done, as far as the object shows: its annotations carry no request, or cannot be read,
    * or it was reconciled later than the baseline. */
  predicate RefreshedIn(o: Json, before: Option<int>, parse: TimeParser) {
    var at, annotations := TextAt(o, ["status", "reconciledAt"]), At(o, ["metadata", "annotations"]);
    || annotations.None? || !StringValued(annotations.value)
    || TextAt(annotations.value, ["argocd.argoproj.io/refresh"]) == ""
    || (at != "" && parse(at).Some? && (before.None? || parse(at).value > before.value))
  }

  lemma DoneReads(o: Json, before: Option<int>, parse: TimeParser)
    ensures RefreshDone(Project(o, parse), before) <==> RefreshedIn(o, before, parse)
  {
    AtTwo(o, "metadata", "annotations");
    OneStep(Annotations(o), "argocd.argoproj.io/refresh");
    TwoSteps(o, "status", "reconciledAt");
  }

  /** What the wait of app_refresh tells its caller about the object it found last. */
  predicate TellsRefresh(res: RefreshResult, found: Option<Json>, done: bool, inTime: bool, parse: TimeParser) {
    && (res.RefreshUnreadable? <==> found.None?)
    && (res.Completed? <==> found.Some? && done)
    && (res.NotYet? <==> found.Some? && !done && !inTime)
    && (res.RefreshCancelled? <==> found.Some? && !done && inTime)
    && (res.Completed? ==> res.app == Project(found.value, parse))
    && (res.NotYet? ==> res.last == Project(found.value, parse))
  }

  predicate DoneIn(found: Option<Json>, before: Option<int>, parse: TimeParser) {
    found.Some? && RefreshedIn(found.value, before, parse)
  }

  /** Before read d the object was found each time, not done, with time and leave to look again. */
  ghost predicate NotDoneBefore(found: nat -> Option<Json>, clock: Clock, cancelled: nat -> bool, parse: TimeParser,
                                deadline: int, before: Option<int>, d: nat) {
    forall i: nat {:trigger found(i)} :: i < d ==>
      && found(i).Some? && !DoneIn(found(i), before, parse)
      && clock.check(i) + SECOND <= deadline && !cancelled(i)
  }

  lemma RefreshGoesOnIff(tr: Trace, found: Option<Json>, parse: TimeParser, deadline: int, before: Option<int>, i: nat)
    requires tr.read(i) == Shown(found, parse)
    ensures var done, inTime := DoneIn(found, before, parse), tr.clock.check(i) + SECOND <= deadline;
            && (RefreshGoesOn(tr, deadline, before, i) <==> found.Some? && !done && inTime && !tr.cancelled(i))
            && (!RefreshGoesOn(tr, deadline, before, i) ==>
                TellsRefresh(RefreshEnd(tr, deadline, before, i), found, done, inTime, parse))
  {
    if found.Some? {
      DoneReads(found.value, before, parse);
    }
  }

  lemma ReadsKey(tr: Trace, w: World, k: Key, p: Polls, parse: TimeParser)
    requires Reads(tr, w, k, p, parse)
    ensures forall i: nat {:trigger FoundBy(w, p, k)(i)} :: tr.read(i) == Shown(FoundBy(w, p, k)(i), parse)
  {
    forall i: nat ensures tr.read(i) == Shown(FoundBy(w, p, k)(i), parse) {
      KeyReadShows(w, k, p, parse, i);
    }
  }

  lemma KeyReadShows(w: World, k: Key, p: Polls, parse: TimeParser, i: nat)
    ensures KeyReadAt(w, k, p, parse, i) == Shown(FoundAt(w, p, k, i), parse)
  {
    ElapsedIsWrites(w, p, i + 1);
    LookupAfterAll(w.store, PollWrites(p, i + 1), k);
  }

  lemma RefreshExact(tr: Trace, found: nat -> Option<Json>, parse: TimeParser, deadline: int, before: Option<int>,
                     res: RefreshResult, n: nat)
    requires RefreshSpec(tr, deadline, before, res, n)
    requires forall i: nat {:trigger found(i)} :: tr.read(i) == Shown(found(i), parse)
    ensures NotDoneBefore(found, tr.clock, tr.cancelled, parse, deadline, before, n - 1)
    ensures var last, inTime := found(n - 1), tr.clock.check(n - 1) + SECOND <= deadline;
            && (last.Some? && !DoneIn(last, before, parse) && inTime ==> tr.cancelled(n - 1))
            && TellsRefresh(res, last, DoneIn(last, before, parse), inTime, parse)
  {
    forall i: nat | i < n - 1
      ensures && found(i).Some? && !DoneIn(found(i), before, parse)
              && tr.clock.check(i) + SECOND <= deadline && !tr.cancelled(i)
    {
      RefreshGoesOnIff(tr, found(i), parse, deadline, before, i);
      assert RefreshGoesOn(tr, deadline, before, i);
    }
    RefreshGoesOnIff(tr, found(n - 1), parse, deadline, before, n - 1);
  }

  /** Exactly what the wait of app_refresh does, in terms of the objects stored under its application. */
  lemma RefreshWaitExact(tr: Trace, w: World, k: Key, p: Polls, parse: TimeParser, deadline: int,
                         before: Option<int>, res: RefreshResult, n: nat)
    requires Reads(tr, w, k, p, parse) && RefreshSpec(tr, deadline, before, res, n)
    ensures NotDoneBefore(FoundBy(w, p, k), p.clock, p.cancelled, parse, deadline, before, n - 1)
    ensures var last, inTime := FoundBy(w, p, k)(n - 1), p.clock.check(n - 1) + SECOND <= deadline;
            && (last.Some? && !DoneIn(last, before, parse) && inTime ==> p.cancelled(n - 1))
            && TellsRefresh(res, last, DoneIn(last, before, parse), inTime, parse)
  {
    ReadsKey(tr, w, k, p, parse);
    RefreshExact(tr, FoundBy(w, p, k), parse, deadline, before, res, n);
  }

  // ----- What app_wait reports -----

  /** What is stored under k when read i is made. */
  function StoredThen(w: World, p: Polls, k: Key, i: nat): Option<Json> {
    var latest := LatestWrite(PollWrites(p, i + 1), k);
    if latest.Some? then latest.value else Lookup(w.store, k)
  }

  lemma ReadIsStored(s: Settings, w: World, ref: AppRef, p: Polls, k: Key, i: nat)
    requires NamedBy(s, ref) == Some(k)
    ensures var stored := StoredThen(w, p, k, i);
            ReadAt(s, w, ref, p, i) ==
            if FailedAt(p, i).None? && stored.Some? then Seen(Project(stored.value, s.parse)) else Unreadable
  {
    ElapsedIsWrites(w, p, i + 1);
    LookupAfterAll(w.store, PollWrites(p, i + 1), k);
  }

  /** The object shows the steady state: synced, healthy if that is asked for, and no operation queued or running. */
  predicate Steady(o: Json, forHealthy: bool) {
    && TextAt(o, ["status", "sync", "status"]) == "Synced"
    && (forHealthy ==> TextAt(o, ["status", "health", "status"]) == "Healthy")
    && !ObjectAt(o, ["operation"])
    && PhaseIn(o) !in {"Running", "Terminating"}
  }

  /** The last operation has failed. */
  predicate FailedIn(o: Json) {
    PhaseIn(o) in {"Failed", "Error"}
  }

  lemma BrokenReads(o: Json, parse: TimeParser)
    ensures Broken(Project(o, parse)) <==> FailedIn(o)
  {
    ThreeSteps(o, "status", "operationState", "phase");
  }

  lemma SyncedReads(o: Json, forHealthy: bool, parse: TimeParser)
    ensures Synced(Project(o, parse), forHealthy) <==> Steady(o, forHealthy)
  {
    IdleReads(o, parse);
    ThreeSteps(o, "status", "sync", "status");
    ThreeSteps(o, "status", "health", "status");
  }

  /** The object that read i of a wait on k finds, if it finds one. */
  function FoundAt(w: World, p: Polls, k: Key, i: nat): Option<Json> {
    if FailedAt(p, i).Some? then None else StoredThen(w, p, k, i)
  }

  function FoundBy(w: World, p: Polls, k: Key): nat -> Option<Json> {
    (i: nat) => FoundAt(w, p, k, i)
  }

  function Shown(found: Option<Json>, parse: TimeParser): Observation {
    if found.Some? then Seen(Project(found.value, parse)) else Unreadable
  }

  /** app_wait reads the application that its caller names: of that name, in the namespace given or else the
    * instance's own. */
  lemma ReadsNamed(s: Settings, w: World, ref: AppRef, p: Polls, i: nat)
    ensures ReadAt(s, w, ref, p, i) ==
            if InstanceName(s, ref) !in s.instances || ref.name == "" then Unreadable
            else
              var inst := s.instances[InstanceName(s, ref)];
              var k := Key(inst.name, if ref.namespace != "" then ref.namespace else inst.namespace, ref.name);
              Shown(FoundAt(w, p, k, i), s.parse)
  {
    ElapsedIsWrites(w, p, i + 1);
    if NamedBy(s, ref).Some? {
      LookupAfterAll(w.store, PollWrites(p, i + 1), NamedBy(s, ref).value);
    }
  }

  /** What was found decides nothing, and there is time and leave to look again. */
  predicate LooksAgain(found: Option<Json>, forHealthy: bool, inTime: bool, cancelled: bool) {
    && found.Some? && !FailedIn(found.value) && !Steady(found.value, forHealthy)
    && inTime && !cancelled
  }

  ghost predicate LooksUntil(found: nat -> Option<Json>, clock: Clock, cancelled: nat -> bool, deadline: int, poll: int,
                             forHealthy: bool, d: nat) {
    forall i: nat {:trigger found(i)} :: i < d ==>
      LooksAgain(found(i), forHealthy, clock.check(i) + poll <= deadline, cancelled(i))
  }

  /** What app_wait tells its caller about the object it found last: a failure before success, and success before a
    * timeout. */
  predicate Tells(res: WaitResult, found: Option<Json>, forHealthy: bool, inTime: bool, parse: TimeParser) {
    && (res.OperationEnded? || res.Reached? ==> found.Some? && res.app == Project(found.value, parse))
    && (res.TimedOut? ==> found.Some? && res.last == Project(found.value, parse))
    && (res.WaitUnreadable? <==> found.None?)
    && (res.OperationEnded? <==> found.Some? && FailedIn(found.value))
    && (res.Reached? <==> found.Some? && !FailedIn(found.value) && Steady(found.value, forHealthy))
    && (res.TimedOut? <==>
          found.Some? && !FailedIn(found.value) && !Steady(found.value, forHealthy) && !inTime)
    && (res.WaitCancelled? <==>
          found.Some? && !FailedIn(found.value) && !Steady(found.value, forHealthy) && inTime)
  }

  lemma WaitGoesOnIff(tr: Trace, found: Option<Json>, parse: TimeParser, deadline: int, poll: int, forHealthy: bool,
                      i: nat)
    requires tr.read(i) == Shown(found, parse)
    ensures var inTime := tr.clock.check(i) + poll <= deadline;
            && (WaitGoesOn(tr, deadline, poll, forHealthy, i) <==>
                LooksAgain(found, forHealthy, inTime, tr.cancelled(i)))
            && (!WaitGoesOn(tr, deadline, poll, forHealthy, i) ==>
                Tells(WaitEnd(tr, deadline, poll, forHealthy, i), found, forHealthy, inTime, parse))
  {
    if found.Some? {
      BrokenReads(found.value, parse);
      SyncedReads(found.value, forHealthy, parse);
    }
  }

  /** Exactly what app_wait does, in terms of the objects stored under the application it is asked about: it looks
    * again as long as what it finds decides nothing, and tells what it found last. */
  lemma AppWaitExact(tr: Trace, s: Settings, w: World, ref: AppRef, p: Polls, k: Key, deadline: int, poll: int,
                     forHealthy: bool, res: WaitResult, n: nat)
    requires InstanceName(s, ref) in s.instances && ref.name != ""
    requires var inst := s.instances[InstanceName(s, ref)];
             k == Key(inst.name, if ref.namespace != "" then ref.namespace else inst.namespace, ref.name)
    requires Watches(tr, s, w, ref, p) && WaitSpec(tr, deadline, poll, forHealthy, res, n)
    ensures LooksUntil(FoundBy(w, p, k), p.clock, p.cancelled, deadline, poll, forHealthy, n - 1)
    ensures var last, inTime := FoundBy(w, p, k)(n - 1), p.clock.check(n - 1) + poll <= deadline;
            && !LooksAgain(last, forHealthy, inTime, p.cancelled(n - 1))
            && Tells(res, last, forHealthy, inTime, s.parse)
  {
    WatchShows(tr, s, w, ref, p, k);
    WaitExact(tr, FoundBy(w, p, k), s.parse, deadline, poll, forHealthy, res, n);
  }

  /** In particular the first read to find a steady object whose last operation has not failed ends it with success. */
  lemma SteadyEndsWait(tr: Trace, s: Settings, w: World, ref: AppRef, p: Polls, k: Key, deadline: int, poll: int,
                       forHealthy: bool, res: WaitResult, n: nat, d: nat)
    requires NamedBy(s, ref) == Some(k)
    requires Watches(tr, s, w, ref, p) && WaitSpec(tr, deadline, poll, forHealthy, res, n)
    requires LooksUntil(FoundBy(w, p, k), p.clock, p.cancelled, deadline, poll, forHealthy, d)
    requires var found := FoundBy(w, p, k)(d); found.Some? && Steady(found.value, forHealthy) && !FailedIn(found.value)
    ensures n == d + 1 && res.Reached?
  {
    NamedByIff(s, ref, k);
    AppWaitExact(tr, s, w, ref, p, k, deadline, poll, forHealthy, res, n);
    FirstOnly(FoundBy(w, p, k), p.clock, p.cancelled, deadline, poll, forHealthy, n - 1, d);
  }

  lemma FirstOnly(found: nat -> Option<Json>, clock: Clock, cancelled: nat -> bool, deadline: int, poll: int,
                  forHealthy: bool, d: nat, e: nat)
    requires LooksUntil(found, clock, cancelled, deadline, poll, forHealthy, d)
    requires LooksUntil(found, clock, cancelled, deadline, poll, forHealthy, e)
    requires !LooksAgain(found(d), forHealthy, clock.check(d) + poll <= deadline, cancelled(d))
    requires !LooksAgain(found(e), forHealthy, clock.check(e) + poll <= deadline, cancelled(e))
    ensures d == e
  {
    assert d < e ==> LooksAgain(found(d), forHealthy, clock.check(d) + poll <= deadline, cancelled(d));
    assert e < d ==> LooksAgain(found(e), forHealthy, clock.check(e) + poll <= deadline, cancelled(e));
  }

  lemma WatchShows(tr: Trace, s: Settings, w: World, ref: AppRef, p: Polls, k: Key)
    requires Watches(tr, s, w, ref, p)
    requires InstanceName(s, ref) in s.instances && ref.name != ""
    requires var inst := s.instances[InstanceName(s, ref)];
             k == Key(inst.name, if ref.namespace != "" then ref.namespace else inst.namespace, ref.name)
    ensures forall i: nat {:trigger FoundBy(w, p, k)(i)} :: tr.read(i) == Shown(FoundBy(w, p, k)(i), s.parse)
  {
    forall i: nat ensures tr.read(i) == Shown(FoundBy(w, p, k)(i), s.parse) {
      ReadsNamed(s, w, ref, p, i);
    }
  }

  /** The same for any objects found. */
  lemma WaitExact(tr: Trace, found: nat -> Option<Json>, parse: TimeParser, deadline: int, poll: int, forHealthy: bool,
                  res: WaitResult, n: nat)
    requires WaitSpec(tr, deadline, poll, forHealthy, res, n)
    requires forall i: nat {:trigger found(i)} :: tr.read(i) == Shown(found(i), parse)
    ensures LooksUntil(found, tr.clock, tr.cancelled, deadline, poll, forHealthy, n - 1)
    ensures var last, inTime := found(n - 1), tr.clock.check(n - 1) + poll <= deadline;
            && !LooksAgain(last, forHealthy, inTime, tr.cancelled(n - 1))
            && Tells(res, last, forHealthy, inTime, parse)
  {
    forall i: nat | i < n - 1
      ensures LooksAgain(found(i), forHealthy, tr.clock.check(i) + poll <= deadline, tr.cancelled(i))
    {
      assert WaitGoesOn(tr, deadline, poll, forHealthy, i);
      WaitGoesOnIff(tr, found(i), parse, deadline, poll, forHealthy, i);
    }
    WaitGoesOnIff(tr, found(n - 1), parse, deadline, poll, forHealthy, n - 1);
  }

  /** Success of app_wait on an application that is not steady at the start is what somebody else has written: the
    * latest write to it left it in the steady state. */
  lemma SuccessIsWritten(tr: Trace, s: Settings, w: World, ref: AppRef, p: Polls, k: Key, deadline: int, poll: int,
                         forHealthy: bool, res: WaitResult, n: nat)
    requires NamedBy(s, ref) == Some(k) && k in w.store && !Steady(w.store[k], forHealthy)
    requires Watches(tr, s, w, ref, p) && WaitSpec(tr, deadline, poll, forHealthy, res, n) && res.Reached?
    ensures var latest := LatestWrite(PollWrites(p, n), k);
            latest.Some? && latest.value.Some? && Steady(latest.value.value, forHealthy)
  {
    ReachedIsSteady(tr, s, w, ref, p, k, deadline, poll, forHealthy, res, n);
    SteadyIsWritten(w, p, k, forHealthy, n - 1);
  }

  lemma NamedByIff(s: Settings, ref: AppRef, k: Key)
    ensures NamedBy(s, ref) == Some(k) <==>
            && InstanceName(s, ref) in s.instances && ref.name != ""
            && var inst := s.instances[InstanceName(s, ref)];
            k == Key(inst.name, if ref.namespace != "" then ref.namespace else inst.namespace, ref.name)
  {
  }

  lemma WatchesNamed(tr: Trace, s: Settings, w: World, ref: AppRef, p: Polls, k: Key, i: nat)
    requires Watches(tr, s, w, ref, p) && NamedBy(s, ref) == Some(k)
    ensures tr.read(i) == Shown(FoundAt(w, p, k, i), s.parse)
  {
    NamedByIff(s, ref, k);
    ReadsNamed(s, w, ref, p, i);
  }

  lemma LastTells(tr: Trace, found: Option<Json>, parse: TimeParser, deadline: int, poll: int, forHealthy: bool,
                  res: WaitResult, n: nat)
    requires WaitSpec(tr, deadline, poll, forHealthy, res, n) && tr.read(n - 1) == Shown(found, parse) && res.Reached?
    ensures found.Some? && Steady(found.value, forHealthy)
  {
    WaitGoesOnIff(tr, found, parse, deadline, poll, forHealthy, n - 1);
  }

  lemma ReachedIsSteady(tr: Trace, s: Settings, w: World, ref: AppRef, p: Polls, k: Key, deadline: int, poll: int,
                        forHealthy: bool, res: WaitResult, n: nat)
    requires NamedBy(s, ref) == Some(k)
    requires Watches(tr, s, w, ref, p) && WaitSpec(tr, deadline, poll, forHealthy, res, n) && res.Reached?
    ensures FoundAt(w, p, k, n - 1).Some? && Steady(FoundAt(w, p, k, n - 1).value, forHealthy)
  {
    WatchesNamed(tr, s, w, ref, p, k, n - 1);
    LastTells(tr, FoundAt(w, p, k, n - 1), s.parse, deadline, poll, forHealthy, res, n);
  }

  lemma SteadyIsWritten(w: World, p: Polls, k: Key, forHealthy: bool, i: nat)
    requires k in w.store && !Steady(w.store[k], forHealthy)
    requires FoundAt(w, p, k, i).Some? && Steady(FoundAt(w, p, k, i).value, forHealthy)
    ensures var latest := LatestWrite(PollWrites(p, i + 1), k);
            latest.Some? && latest.value.Some? && Steady(latest.value.value, forHealthy)
  {
  }

  /** Neither a merged operation nor a terminate leaves it steady, whatever this server patches next. */
  lemma {:induction false} PatchedIsNotSteady(live: Json, first: ToolPatch, ps: seq<ToolPatch>, forHealthy: bool)
    requires !first.Refresh?
    requires forall p :: p in [first] + ps && p.Operation? ==> p.op.Obj?
    ensures !Steady(ApplyAll(Apply(live, first), ps), forHealthy)
    ensures first.Operation? ==> QueuedIn(ApplyAll(Apply(live, first), ps))
    ensures first.Terminate? ==> PhaseIn(ApplyAll(Apply(live, first), ps)) == "Terminating"
  {
    if ps == [] {
      FirstPatchShows(live, first);
    } else {
      var front, last := ps[..|ps| - 1], ps[|ps| - 1];
      assert last in ps && forall p :: p in front ==> p in ps;
      PatchedIsNotSteady(live, first, front, forHealthy);
      LaterPatchKeeps(ApplyAll(Apply(live, first), front), last);
    }
  }

  lemma FirstPatchShows(live: Json, p: ToolPatch)
    requires p.Operation? ==> p.op.Obj?
    ensures p.Operation? ==> QueuedIn(Apply(live, p))
    ensures p.Terminate? ==> PhaseIn(Apply(live, p)) == "Terminating"
  {
    PatchMember(live, p, "operation");
    AtOne(Apply(live, p), "operation");
    if p.Terminate? {
      PatchMember(live, p, "status");
      StatusLeaves(Member(live, "status"));
      MergeMember(Member(Member(live, "status"), "operationState"), PhasePatch(), "phase");
      ThreeSteps(Apply(live, p), "status", "operationState", "phase");
    }
  }

  lemma LaterPatchKeeps(o: Json, p: ToolPatch)
    requires p.Operation? ==> p.op.Obj?
    ensures QueuedIn(o) ==> QueuedIn(Apply(o, p))
    ensures PhaseIn(o) == "Terminating" ==> PhaseIn(Apply(o, p)) == "Terminating"
  {
    FirstPatchShows(o, p);
    if !p.Operation? {
      PatchFrame(o, p, ["operation"]);
    }
    if !p.Terminate? {
      PatchFrame(o, p, ["status", "operationState", "phase"]);
    }
  }

  /** Queueing an operation leaves the phase of the last one in place. */
  lemma OldPhaseStays(live: Json, op: Json, parse: TimeParser)
    requires op.Obj?
    ensures Broken(Project(Apply(live, Operation(op)), parse)) <==> Broken(Project(live, parse))
  {
    OperationProjects(live, op, parse);
  }

  /** Before anybody else has written, app_wait reports the failure of the last operation as that of the one just
    * queued: its first read ends it so exactly when the last operation had failed. */
  lemma OldFailureReportedIff(s: Settings, w: World, ref: AppRef, p: Polls, k: Key, live: Json, op: Json, deadline: int,
                              poll: int, forHealthy: bool, res: WaitResult, n: nat)
    requires NamedBy(s, ref) == Some(k) && k in w.store && op.Obj? && w.store[k] == Apply(live, Operation(op))
    requires LatestWrite(PollWrites(p, 1), k).None? && FailedAt(p, 0).None?
    requires WaitSpec(Watch(s, w, ref, p), deadline, poll, forHealthy, res, n)
    ensures n == 1 && res.OperationEnded? <==> FailedIn(live)
  {
    BrokenReads(live, s.parse);
    ReadIsStored(s, w, ref, p, k, 0);
    assert Watch(s, w, ref, p).read(0) == ReadAt(s, w, ref, p, 0);
    OldPhaseStays(live, op, s.parse);
    FirstReadBroken(Watch(s, w, ref, p), deadline, poll, forHealthy, res, n);
  }

  lemma FirstReadBroken(tr: Trace, deadline: int, poll: int, forHealthy: bool, res: WaitResult, n: nat)
    requires WaitSpec(tr, deadline, poll, forHealthy, res, n) && tr.read(0).Seen?
    ensures n == 1 && res.OperationEnded? <==> Broken(tr.read(0).app)
  {
    assert n > 1 ==> WaitGoesOn(tr, deadline, poll, forHealthy, 0);
  }
}
