/** What the two loops that wait for the controller come to: app_wait (internal/mcpserver/tools_read.go, lines
  * 252-318) and the wait of app_refresh (internal/mcpserver/tools_write.go, lines 146-188). The loops themselves
  * are methods of the server.
  */
module Polling {
  import opened JsonValues
  import opened Applications
  import opened Patches

  /** Instants and durations are counted in nanoseconds. */
  const SECOND := 1_000_000_000

  datatype Observation = Unreadable | Seen(app: App)

  /** When the read of iteration i starts, and when the clock is looked at after it. */
  datatype Clock = Clock(start: nat -> int, check: nat -> int)

  /** What iteration i meets: the object read, the clock, and whether the sleep that follows is cut short by
    * cancellation. */
  datatype Trace = Trace(read: nat -> Observation, clock: Clock, cancelled: nat -> bool)

  function CheckAt(clock: Clock, i: nat): int {
    clock.check(i)
  }

  function Seeing(tr: Trace, i: nat): Observation {
    tr.read(i)
  }

  predicate TimedAt(clock: Clock, sleep: int, i: nat) {
    clock.start(i) <= clock.check(i) && clock.check(i) + sleep <= clock.start(i + 1)
  }

  /** The clock does not run backwards and a sleep lasts at least its duration. */
  ghost predicate Timed(clock: Clock, t0: int, sleep: int) {
    clock.start(0) >= t0 && forall i: nat :: TimedAt(clock, sleep, i)
  }

  predicate ExactAt(clock: Clock, sleep: int, i: nat) {
    clock.start(i + 1) == clock.check(i) + sleep
  }

  /** The wait begins at once and every sleep lasts exactly its duration. */
  ghost predicate ExactSleeps(clock: Clock, t0: int, sleep: int) {
    clock.start(0) == t0 && forall i: nat :: ExactAt(clock, sleep, i)
  }

  function Clamp(v: int, min: int, max: int, def: int): (r: int)
    requires min <= max && min <= def <= max
    ensures min <= r <= max
    ensures v > 0 && min <= v <= max ==> r == v
    ensures v > 0 && v < min ==> r == min
    ensures v > 0 && v > max ==> r == max
    ensures v <= 0 ==> r == def
  {
    if v <= 0 then def else if v < min then min else if v > max then max else v
  }

  // ----- app_wait -----

  predicate Broken(a: App) {
    a.operation.Some? && (a.operation.value.phase == PHASE_FAILED || a.operation.value.phase == PHASE_ERROR)
  }

  /** The steady state; never while an operation is queued or running. */
  predicate Synced(a: App, forHealthy: bool) {
    && a.syncStatus == SYNC_SYNCED
    && (forHealthy ==> a.healthStatus == HEALTH_HEALTHY)
    && !a.hasPendingOp && !Running(a.operation)
  }

  datatype WaitResult = WaitUnreadable | OperationEnded(app: App) | Reached(app: App) | WaitCancelled
    | TimedOut(last: App)

  predicate Undecided(o: Observation, forHealthy: bool) {
    o.Seen? && !Broken(o.app) && !Synced(o.app, forHealthy)
  }

  /** The verdict a decisive observation gives; a failed operation counts before a steady state. */
  function WaitVerdict(o: Observation, forHealthy: bool): WaitResult
    requires !Undecided(o, forHealthy)
  {
    if o.Unreadable? then WaitUnreadable
    else if Broken(o.app) then OperationEnded(o.app)
    else Reached(o.app)
  }

  /** The wait goes on after iteration i. */
  predicate WaitGoesOn(tr: Trace, deadline: int, poll: int, forHealthy: bool, i: nat) {
    Undecided(tr.read(i), forHealthy) && tr.clock.check(i) + poll <= deadline && !tr.cancelled(i)
  }

  /** How the wait ends after iteration i. */
  function WaitEnd(tr: Trace, deadline: int, poll: int, forHealthy: bool, i: nat): WaitResult
    requires !WaitGoesOn(tr, deadline, poll, forHealthy, i)
  {
    var o := tr.read(i);
    if !Undecided(o, forHealthy) then WaitVerdict(o, forHealthy)
    else if tr.clock.check(i) + poll > deadline then TimedOut(o.app)
    else WaitCancelled
  }

  /** The result after n reads: the first iteration at which the wait does not go on decides. */
  ghost predicate WaitSpec(tr: Trace, deadline: int, poll: int, forHealthy: bool, res: WaitResult, n: nat) {
    && n >= 1
    && (forall i: nat :: i < n - 1 ==> WaitGoesOn(tr, deadline, poll, forHealthy, i))
    && !WaitGoesOn(tr, deadline, poll, forHealthy, n - 1)
    && res == WaitEnd(tr, deadline, poll, forHealthy, n - 1)
  }

  /** Iteration i cannot start before i sleeps have passed. */
  lemma {:induction false} StartsLate(clock: Clock, t0: int, sleep: int, i: nat)
    requires Timed(clock, t0, sleep)
    ensures clock.check(i) >= clock.start(i) >= t0 + i * sleep
  {
    assert TimedAt(clock, sleep, i);
    if i > 0 {
      StartsLate(clock, t0, sleep, i - 1);
      assert TimedAt(clock, sleep, i - 1);
      assert (i - 1) * sleep + sleep == i * sleep;
    }
  }

  /** There is room for another sleep after iteration i. */
  predicate Room(clock: Clock, deadline: int, poll: int, i: nat) {
    clock.check(i) + poll <= deadline
  }

  /** A wait goes on after at most this many iterations, whatever it sees. */
  ghost predicate RoomFor(clock: Clock, deadline: int, poll: int, most: nat) {
    forall i: nat :: Room(clock, deadline, poll, i) ==> i < most
  }

  lemma WaitRoom(clock: Clock, t0: int, timeout: nat, poll: nat)
    requires poll > 0 && Timed(clock, t0, poll * SECOND)
    ensures RoomFor(clock, t0 + timeout * SECOND, poll * SECOND, timeout / poll)
  {
    var deadline, sleep := t0 + timeout * SECOND, poll * SECOND;
    forall i: nat | Room(clock, deadline, sleep, i) ensures i < timeout / poll {
      StartsLate(clock, t0, sleep, i);
      RoomForAnother(timeout, poll, i);
      QuotientBound(timeout, poll, i + 1);
    }
  }

  lemma RefreshRoomFor(clock: Clock, t0: int, timeout: nat)
    requires Timed(clock, t0, 2 * SECOND)
    ensures RoomFor(clock, t0 + timeout * SECOND, SECOND, (timeout + 1) / 2)
  {
    var deadline := t0 + timeout * SECOND;
    forall i: nat | Room(clock, deadline, SECOND, i) ensures i < (timeout + 1) / 2 {
      StartsLate(clock, t0, 2 * SECOND, i);
    }
  }

  lemma RoomForAnother(timeout: int, poll: int, i: nat)
    requires i * (poll * SECOND) + poll * SECOND <= timeout * SECOND
    ensures (i + 1) * poll <= timeout
  {
    assert i * (poll * SECOND) == (i * poll) * SECOND;
    assert (i + 1) * poll == i * poll + poll;
  }

  lemma MulCancel(a: int, b: int, c: int)
    requires c > 0 && a * c < b * c
    ensures a < b
  {
    assert (b - a) * c > 0;
  }

  lemma QuotientBound(timeout: nat, poll: nat, i: nat)
    requires poll > 0 && i * poll <= timeout
    ensures i <= timeout / poll
  {
    var q := timeout / poll;
    assert timeout == q * poll + timeout % poll;
    assert (q + 1) * poll == q * poll + poll;
    MulCancel(i, q + 1, poll);
  }

  /** The specification leaves no choice: neither of the result nor of the number of reads. */
  lemma WaitSpecUnique(tr: Trace, deadline: int, poll: int, forHealthy: bool, r1: WaitResult, n1: nat,
                       r2: WaitResult, n2: nat)
    requires WaitSpec(tr, deadline, poll, forHealthy, r1, n1) && WaitSpec(tr, deadline, poll, forHealthy, r2, n2)
    ensures r1 == r2 && n1 == n2
  {
  }

  /** Without read errors and cancellation: the wait ends with the verdict of the first decisive observation
    * if the clock allows that read, and otherwise with a timeout before any decisive one was seen. */
  lemma WaitIsFirstDecisive(tr: Trace, deadline: int, poll: int, forHealthy: bool, res: WaitResult, n: nat)
    requires WaitSpec(tr, deadline, poll, forHealthy, res, n)
    requires forall i: nat :: tr.read(i).Seen? && !tr.cancelled(i)
    ensures forall i: nat :: i < n - 1 ==> Undecided(tr.read(i), forHealthy)
    ensures res.OperationEnded? <==> Broken(tr.read(n - 1).app)
    ensures res.Reached? <==> !Broken(tr.read(n - 1).app) && Synced(tr.read(n - 1).app, forHealthy)
    ensures res.TimedOut? <==> Undecided(tr.read(n - 1), forHealthy)
    ensures res.TimedOut? ==> tr.clock.check(n - 1) + poll > deadline
    ensures !res.WaitUnreadable? && !res.WaitCancelled?
    ensures forall d: nat ::
              !Undecided(tr.read(d), forHealthy)
              && (forall i: nat | i < d ::
                    Undecided(tr.read(i), forHealthy) && tr.clock.check(i) + poll <= deadline) ==>
              n == d + 1 && res == WaitVerdict(tr.read(d), forHealthy)
  {
    forall i: nat | i < n - 1 ensures Undecided(tr.read(i), forHealthy) {
      assert WaitGoesOn(tr, deadline, poll, forHealthy, i);
    }
    forall d: nat |
      !Undecided(tr.read(d), forHealthy)
      && (forall i: nat :: i < d ==> Undecided(tr.read(i), forHealthy) && tr.clock.check(i) + poll <= deadline)
      ensures n == d + 1 && res == WaitVerdict(tr.read(d), forHealthy)
    {
      assert d < n - 1 ==> WaitGoesOn(tr, deadline, poll, forHealthy, d);
    }
  }

  /** With exact sleeps no read starts after the deadline. */
  lemma WaitReadsInTime(tr: Trace, t0: int, deadline: int, poll: int, forHealthy: bool, res: WaitResult, n: nat)
    requires WaitSpec(tr, deadline, poll, forHealthy, res, n) && ExactSleeps(tr.clock, t0, poll) && t0 <= deadline
    ensures forall i: nat :: i < n ==> tr.clock.start(i) <= deadline
  {
    forall i: nat | i < n ensures tr.clock.start(i) <= deadline {
      if i > 0 {
        assert WaitGoesOn(tr, deadline, poll, forHealthy, i - 1);
        assert ExactAt(tr.clock, poll, i - 1);
      }
    }
  }

  /** The bound on the reads is met by a wait on reads that take no time and decide nothing. */
  lemma WaitBoundIsTight(tr: Trace, t0: int, timeout: nat, poll: nat, forHealthy: bool, res: WaitResult, n: nat)
    requires poll > 0 && WaitSpec(tr, t0 + timeout * SECOND, poll * SECOND, forHealthy, res, n)
    requires ExactSleeps(tr.clock, t0, poll * SECOND)
    requires forall i: nat :: tr.clock.check(i) == tr.clock.start(i)
    requires forall i: nat :: Undecided(tr.read(i), forHealthy) && !tr.cancelled(i)
    ensures n == timeout / poll + 1 && res.TimedOut?
  {
    InstantReads(tr, t0, poll * SECOND, n - 1);
    assert tr.clock.check(n - 1) + poll * SECOND > t0 + timeout * SECOND;
    LastRead(timeout, poll, n - 1);
    if n > 1 {
      InstantReads(tr, t0, poll * SECOND, n - 2);
      assert WaitGoesOn(tr, t0 + timeout * SECOND, poll * SECOND, forHealthy, n - 2);
      RoomForAnother(timeout, poll, n - 2);
      QuotientBound(timeout, poll, n - 1);
    }
  }

  lemma {:induction false} InstantReads(tr: Trace, t0: int, sleep: int, i: nat)
    requires ExactSleeps(tr.clock, t0, sleep) && forall k: nat :: tr.clock.check(k) == tr.clock.start(k)
    ensures tr.clock.check(i) == t0 + i * sleep
  {
    assert tr.clock.check(i) == tr.clock.start(i);
    if i > 0 {
      InstantReads(tr, t0, sleep, i - 1);
      assert ExactAt(tr.clock, sleep, i - 1);
      assert (i - 1) * sleep + sleep == i * sleep;
    }
  }

  lemma LastRead(timeout: nat, poll: nat, i: nat)
    requires poll > 0 && i * (poll * SECOND) + poll * SECOND > timeout * SECOND
    ensures i >= timeout / poll
  {
    var q := timeout / poll;
    assert i * (poll * SECOND) == (i * poll) * SECOND;
    assert (i + 1) * poll == i * poll + poll;
    assert q * poll <= timeout;
    MulCancel(q, i + 1, poll);
  }

  // ----- The wait of app_refresh -----

  predicate ReconciledAfter(cur: Option<int>, before: Option<int>) {
    cur.Some? && (before.None? || cur.value > before.value)
  }

  /** The controller has removed the annotation, or has reconciled since. */
  predicate RefreshDone(a: App, before: Option<int>) {
    a.refreshRequested == "" || ReconciledAfter(a.reconciledAt, before)
  }

  datatype RefreshResult = RefreshUnreadable | Completed(app: App) | NotYet(last: App) | RefreshCancelled

  predicate RefreshGoesOn(tr: Trace, deadline: int, before: Option<int>, i: nat) {
    && tr.read(i).Seen? && !RefreshDone(tr.read(i).app, before)
    && tr.clock.check(i) + SECOND <= deadline && !tr.cancelled(i)
  }

  function RefreshEnd(tr: Trace, deadline: int, before: Option<int>, i: nat): RefreshResult
    requires !RefreshGoesOn(tr, deadline, before, i)
  {
    var o := tr.read(i);
    if o.Unreadable? then RefreshUnreadable
    else if RefreshDone(o.app, before) then Completed(o.app)
    else if tr.clock.check(i) + SECOND > deadline then NotYet(o.app)
    else RefreshCancelled
  }

  ghost predicate RefreshSpec(tr: Trace, deadline: int, before: Option<int>, res: RefreshResult, n: nat) {
    && n >= 1
    && (forall i: nat :: i < n - 1 ==> RefreshGoesOn(tr, deadline, before, i))
    && !RefreshGoesOn(tr, deadline, before, n - 1)
    && res == RefreshEnd(tr, deadline, before, n - 1)
  }

  /** It says completed only on an object whose annotation is gone or that was reconciled later than before. */
  lemma RefreshCompletesOnlyWhenDone(tr: Trace, deadline: int, before: Option<int>, res: RefreshResult, n: nat)
    requires RefreshSpec(tr, deadline, before, res, n)
    ensures res.Completed? <==> tr.read(n - 1).Seen? && RefreshDone(tr.read(n - 1).app, before)
    ensures res.Completed? ==> res.app == tr.read(n - 1).app
    ensures forall i: nat :: i < n - 1 ==> tr.read(i).Seen? && !RefreshDone(tr.read(i).app, before)
    ensures res.NotYet? ==> tr.clock.check(n - 1) + SECOND > deadline
  {
    forall i: nat | i < n - 1 ensures tr.read(i).Seen? && !RefreshDone(tr.read(i).app, before) {
      assert RefreshGoesOn(tr, deadline, before, i);
    }
  }

  /** It tests one second ahead but sleeps two: with exact sleeps the last read may start after the deadline,
    * by no more than one second. */
  lemma RefreshReadsAlmostInTime(tr: Trace, t0: int, deadline: int, before: Option<int>, res: RefreshResult, n: nat)
    requires RefreshSpec(tr, deadline, before, res, n) && ExactSleeps(tr.clock, t0, 2 * SECOND) && t0 <= deadline
    ensures forall i: nat :: i < n ==> tr.clock.start(i) <= deadline + SECOND
  {
    forall i: nat | i < n ensures tr.clock.start(i) <= deadline + SECOND {
      if i > 0 {
        assert RefreshGoesOn(tr, deadline, before, i - 1);
        assert ExactAt(tr.clock, 2 * SECOND, i - 1);
      }
    }
  }

  /** Exactly when a read of the refresh wait starts after the deadline: it is the last one, and the clock was
    * looked at less than two seconds before the deadline when the wait decided to go on. */
  lemma RefreshReadsLateIff(tr: Trace, t0: int, deadline: int, before: Option<int>, res: RefreshResult, n: nat)
    requires RefreshSpec(tr, deadline, before, res, n) && t0 <= deadline
    requires Timed(tr.clock, t0, 2 * SECOND) && ExactSleeps(tr.clock, t0, 2 * SECOND)
    ensures tr.clock.start(n - 1) > deadline <==> n > 1 && tr.clock.check(n - 2) > deadline - 2 * SECOND
    ensures (exists i: nat :: i < n && tr.clock.start(i) > deadline) <==> tr.clock.start(n - 1) > deadline
  {
    if n > 1 {
      assert ExactAt(tr.clock, 2 * SECOND, n - 2);
    }
    forall i: nat | i < n - 1 ensures tr.clock.start(i) <= deadline {
      assert RefreshGoesOn(tr, deadline, before, i) && TimedAt(tr.clock, 2 * SECOND, i);
    }
  }

  /** The bound on its reads is met by reads that take no time and decide nothing; the last of them is late
    * exactly when the timeout is an odd number of seconds. */
  lemma RefreshBoundIsTight(tr: Trace, t0: int, timeout: nat, before: Option<int>, res: RefreshResult, n: nat)
    requires RefreshSpec(tr, t0 + timeout * SECOND, before, res, n) && ExactSleeps(tr.clock, t0, 2 * SECOND)
    requires forall i: nat :: tr.clock.check(i) == tr.clock.start(i)
    requires forall i: nat :: tr.read(i).Seen? && !RefreshDone(tr.read(i).app, before) && !tr.cancelled(i)
    ensures n == (timeout + 1) / 2 + 1 && res.NotYet?
    ensures tr.clock.start(n - 1) > t0 + timeout * SECOND <==> timeout % 2 == 1
  {
    InstantReads(tr, t0, 2 * SECOND, n - 1);
    assert !RefreshGoesOn(tr, t0 + timeout * SECOND, before, n - 1);
    if n > 1 {
      InstantReads(tr, t0, 2 * SECOND, n - 2);
      assert RefreshGoesOn(tr, t0 + timeout * SECOND, before, n - 2);
    }
  }

  // ----- The waits and the patches they follow -----

  /** Once an operation was merged app_wait does not report success, whatever the state was before and
    * whatever this server patches next: it takes a write by somebody else. */
  lemma NoSuccessBeforeController(live: Json, op: Json, ps: seq<ToolPatch>, forHealthy: bool, parse: TimeParser)
    requires op.Obj? && forall i :: 0 <= i < |ps| && ps[i].Operation? ==> ps[i].op.Obj?
    ensures !Synced(Project(ApplyAll(Apply(live, Operation(op)), ps), parse), forHealthy)
  {
    PatchMember(live, Operation(op), "operation");
    StaysPending(Apply(live, Operation(op)), ps);
  }

  lemma {:induction false} StaysPending(o: Json, ps: seq<ToolPatch>)
    requires Member(o, "operation").Obj? && forall i :: 0 <= i < |ps| && ps[i].Operation? ==> ps[i].op.Obj?
    ensures Member(ApplyAll(o, ps), "operation").Obj?
  {
    if ps != [] {
      StaysPending(o, ps[..|ps| - 1]);
      PatchMember(ApplyAll(o, ps[..|ps| - 1]), ps[|ps| - 1], "operation");
    }
  }

  /** Right after the annotation was merged, the wait takes the refresh for done exactly when another reconcile
    * happened between the read that set the baseline and the patch, or the annotations cannot be read. */
  lemma RefreshDoneBeforeControllerIff(live: Json, hard: bool, before: Option<int>, parse: TimeParser)
    ensures RefreshDone(Project(Apply(live, Refresh(hard)), parse), before) <==>
            ReconciledAfter(Project(live, parse).reconciledAt, before)
            || !OtherAnnotationsReadable(Member(Member(live, "metadata"), "annotations"))
  {
    RefreshProjects(live, hard, parse);
    assert RefreshValue(hard) != "";
  }
}
