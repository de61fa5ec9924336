/** Consequences for particular kinds of runs: calls made one after the other, calls that race, and what
  * becomes of the objects when nobody but this server writes.
  */
module Runs {
  import opened JsonValues
  import opened Applications
  import opened Operations
  import opened Patches
  import opened WriteGuard
  import opened Calls
  import opened Protocol
  import Configs
  import Registries

  // ----- The calls of the handlers as runs -----

  lemma RunOneMore(s: Settings, st: State, evs: seq<Event>, a: Event)
    ensures Run(s, st, evs + [a]) == Step(s, Run(s, st, evs), a)
  {
    assert (evs + [a])[..|evs|] == evs;
  }

  lemma TwoEvents(s: Settings, st: State, a: Event, b: Event)
    ensures Run(s, st, [a, b]) == Step(s, Step(s, st, a), b)
  {
    assert [] + [a] == [a] && [a] + [b] == [a, b];
    RunOneMore(s, st, [], a);
    RunOneMore(s, st, [a], b);
  }

  lemma LastOfAppend<T>(a: seq<T>, b: seq<T>)
    requires b != []
    ensures var n := |a + b| - 1; (a + b)[..n] == a + b[..|b| - 1] && (a + b)[n] == b[|b| - 1]
  {
  }

  lemma {:induction false} RunAppend(s: Settings, st: State, evs: seq<Event>, more: seq<Event>)
    ensures Run(s, st, evs + more) == Run(s, Run(s, st, evs), more)
  {
    if more == [] {
      assert evs + more == evs;
    } else {
      LastOfAppend(evs, more);
      RunAppend(s, st, evs, more[..|more| - 1]);
    }
  }

  lemma ReadStep(s: Settings, st: State, id: nat, c: Call, readError: Option<ApiError>)
    requires id !in st.pending
    ensures var (w, b) := Begin(s, st.world, c, readError);
            var mid := Step(s, st, Event.Read(id, c, readError));
            mid.world == w && mid.pending == if b.Waiting? then st.pending[id := b.ready] else st.pending
  {
  }

  function WriteEvents(others: seq<(Key, Option<Json>)>): seq<Event> {
    seq(|others|, i requires 0 <= i < |others| => Event.Write(others[i].0, others[i].1))
  }

  /** One call as events: its read, and if it sends anything the writes it races with and its patch. */
  function CallEvents(s: Settings, w: World, id: nat, c: Call, x: Weather): seq<Event> {
    [Event.Read(id, c, x.readError)]
    + (if Begin(s, w, c, x.readError).1.Waiting?
       then WriteEvents(x.others) + [Event.Patch(id, x.policy, x.fate)] else [])
  }

  lemma WritesAppend(others: seq<(Key, Option<Json>)>)
    requires others != []
    ensures var n := |others| - 1;
            WriteEvents(others) == WriteEvents(others[..n]) + [Event.Write(others[n].0, others[n].1)]
  {
  }

  lemma {:induction false} WritesRun(s: Settings, st: State, evs: seq<Event>, others: seq<(Key, Option<Json>)>)
    ensures var mid := Run(s, st, evs);
            Run(s, st, evs + WriteEvents(others)) == mid.(world := OutsideAll(mid.world, others))
  {
    if others == [] {
      assert evs + WriteEvents(others) == evs;
    } else {
      var front, last := others[..|others| - 1], others[|others| - 1];
      WritesRun(s, st, evs, front);
      RunOneMore(s, st, evs + WriteEvents(front), Event.Write(last.0, last.1));
      WritesAppend(others);
      Reassociate(evs, WriteEvents(front), [Event.Write(last.0, last.1)]);
    }
  }

  lemma Reassociate(a: seq<Event>, b: seq<Event>, c: seq<Event>)
    ensures a + (b + c) == a + b + c
  {
  }

  /** The second half of a call, after the writes it races with. */
  lemma PatchRun(s: Settings, st: State, evs: seq<Event>, id: nat, x: Weather)
    requires id in Run(s, st, evs).pending
    ensures var mid := Run(s, st, evs);
            var end := Run(s, st, evs + (WriteEvents(x.others) + [Event.Patch(id, x.policy, x.fate)]));
            && end.world == Deliver(OutsideAll(mid.world, x.others), mid.pending[id], x.policy, x.fate).0
            && end.pending == mid.pending - {id}
  {
    var patch := Event.Patch(id, x.policy, x.fate);
    WritesRun(s, st, evs, x.others);
    RunOneMore(s, st, evs + WriteEvents(x.others), patch);
    Reassociate(evs, WriteEvents(x.others), [patch]);
  }

  lemma CallUnfolds(s: Settings, w: World, c: Call, x: Weather)
    ensures var (w1, b) := Begin(s, w, c, x.readError);
            RunCall(s, w, c, x).0 ==
            if b.Waiting? then Deliver(OutsideAll(w1, x.others), b.ready, x.policy, x.fate).0 else w1
  {
  }

  /** What a handler does is a run: every theorem about runs speaks about the handlers. */
  lemma CallIsRun(s: Settings, st: State, evs: seq<Event>, id: nat, c: Call, x: Weather)
    requires id !in Run(s, st, evs).pending
    ensures var mid := Run(s, st, evs);
            var end := Run(s, st, evs + CallEvents(s, mid.world, id, c, x));
            end.world == RunCall(s, mid.world, c, x).0 && end.pending == mid.pending
  {
    var mid := Run(s, st, evs);
    var (w, b) := Begin(s, mid.world, c, x.readError);
    ReadStep(s, mid, id, c, x.readError);
    CallUnfolds(s, mid.world, c, x);
    CallAsEvents(s, st, evs, id, Event.Read(id, c, x.readError), x, w, b, CallEvents(s, mid.world, id, c, x));
  }

  lemma CallAsEvents(s: Settings, st: State, evs: seq<Event>, id: nat, read: Event, x: Weather, w: World, b: Begun,
                     more: seq<Event>)
    requires var mid := Run(s, st, evs);
             && id !in mid.pending
             && Step(s, mid, read).world == w
             && Step(s, mid, read).pending == if b.Waiting? then mid.pending[id := b.ready] else mid.pending
    requires more == [read] + if b.Waiting? then WriteEvents(x.others) + [Event.Patch(id, x.policy, x.fate)] else []
    ensures var end := Run(s, st, evs + more);
            && end.world == (if b.Waiting? then Deliver(OutsideAll(w, x.others), b.ready, x.policy, x.fate).0 else w)
            && end.pending == Run(s, st, evs).pending
  {
    RunOneMore(s, st, evs, read);
    if b.Waiting? {
      PatchRun(s, st, evs + [read], id, x);
      Reassociate(evs, [read], WriteEvents(x.others) + [Event.Patch(id, x.policy, x.fate)]);
    } else {
      assert more == [read];
    }
  }

  /** One call of a handler after the other, and what others write in between. */
  datatype Turn = Handled(call: Call, weather: Weather) | Elsewhere(key: Key, stored: Option<Json>)

  function RunTurn(s: Settings, w: World, t: Turn): World {
    match t
    case Handled(c, x) => RunCall(s, w, c, x).0
    case Elsewhere(k, o) => Outside(w, k, o)
  }

  function RunTurns(s: Settings, w: World, turns: seq<Turn>): World {
    if turns == [] then w else RunTurn(s, RunTurns(s, w, turns[..|turns| - 1]), turns[|turns| - 1])
  }

  function EventsOf(s: Settings, w: World, t: Turn): seq<Event> {
    match t
    case Handled(c, x) => CallEvents(s, w, 0, c, x)
    case Elsewhere(k, o) => [Event.Write(k, o)]
  }

  function TurnEvents(s: Settings, w: World, turns: seq<Turn>): seq<Event> {
    if turns == [] then []
    else
      var front := turns[..|turns| - 1];
      TurnEvents(s, w, front) + EventsOf(s, RunTurns(s, w, front), turns[|turns| - 1])
  }

  /** What any sequence of handler calls does, with any writes of others between them and between the halves of
    * each, is the run of these events. */
  lemma {:induction false} CallsAreRun(s: Settings, st: State, turns: seq<Turn>)
    requires st.pending == map[]
    ensures var end := Run(s, st, TurnEvents(s, st.world, turns));
            end.world == RunTurns(s, st.world, turns) && end.pending == map[]
  {
    if turns != [] {
      var front, last := turns[..|turns| - 1], turns[|turns| - 1];
      CallsAreRun(s, st, front);
      TurnIsRun(s, st, TurnEvents(s, st.world, front), RunTurns(s, st.world, front), last);
    }
  }

  lemma TurnIsRun(s: Settings, st: State, evs: seq<Event>, w: World, t: Turn)
    requires Run(s, st, evs).pending == map[] && Run(s, st, evs).world == w
    ensures var end := Run(s, st, evs + EventsOf(s, w, t));
            end.world == RunTurn(s, w, t) && end.pending == map[]
  {
    match t
    case Handled(c, x) => CallIsRun(s, st, evs, 0, c, x);
    case Elsewhere(k, o) => RunOneMore(s, st, evs, Event.Write(k, o));
  }

  /** Nobody else writes. */
  ghost predicate Undisturbing(turns: seq<Turn>) {
    forall i :: 0 <= i < |turns| ==> turns[i].Handled? && turns[i].weather.others == []
  }

  lemma {:induction false} TurnsAlone(s: Settings, w: World, turns: seq<Turn>)
    requires Undisturbing(turns)
    ensures Alone(TurnEvents(s, w, turns))
  {
    if turns != [] {
      TurnsAlone(s, w, turns[..|turns| - 1]);
    }
  }

  /** In a run of calls made one after the other a call reads only when none is in flight. */
  ghost predicate Sequential(s: Settings, st: State, evs: seq<Event>) {
    evs == [] ||
    (var front, last := evs[..|evs| - 1], evs[|evs| - 1];
     Sequential(s, st, front) && (last.Read? ==> Run(s, st, front).pending == map[]))
  }

  lemma {:induction false} SequentialMore(s: Settings, st: State, evs: seq<Event>, more: seq<Event>)
    requires Sequential(s, st, evs) && forall i :: 0 <= i < |more| ==> !more[i].Read?
    ensures Sequential(s, st, evs + more)
  {
    if more == [] {
      assert evs + more == evs;
    } else {
      SequentialMore(s, st, evs, more[..|more| - 1]);
      assert (evs + more)[..|evs + more| - 1] == evs + more[..|more| - 1];
    }
  }

  lemma ReadSequential(s: Settings, st: State, evs: seq<Event>, read: Event, tail: seq<Event>)
    requires Sequential(s, st, evs) && Run(s, st, evs).pending == map[]
    requires forall i :: 0 <= i < |tail| ==> !tail[i].Read?
    ensures Sequential(s, st, evs + ([read] + tail))
  {
    assert (evs + [read])[..|evs|] == evs;
    SequentialMore(s, st, evs + [read], tail);
    Reassociate(evs, [read], tail);
  }

  lemma CallSequential(s: Settings, st: State, evs: seq<Event>, w: World, c: Call, x: Weather)
    requires Sequential(s, st, evs) && Run(s, st, evs).pending == map[]
    ensures Sequential(s, st, evs + CallEvents(s, w, 0, c, x))
  {
    var b := Begin(s, w, c, x.readError).1;
    var tail := if b.Waiting? then WriteEvents(x.others) + [Event.Patch(0, x.policy, x.fate)] else [];
    ReadSequential(s, st, evs, Event.Read(0, c, x.readError), tail);
  }

  lemma {:induction false} TurnsSequential(s: Settings, st: State, turns: seq<Turn>)
    requires st.pending == map[]
    ensures Sequential(s, st, TurnEvents(s, st.world, turns))
  {
    if turns != [] {
      var front, last := turns[..|turns| - 1], turns[|turns| - 1];
      var evs := TurnEvents(s, st.world, front);
      TurnsSequential(s, st, front);
      CallsAreRun(s, st, front);
      match last
      case Handled(c, x) =>
        CallSequential(s, st, evs, RunTurns(s, st.world, front), c, x);
      case Elsewhere(k, o) =>
        SequentialMore(s, st, evs, [Event.Write(k, o)]);
    }
  }

  // ----- One call after the other -----

  /** The write takes effect on k and leaves it without an operation. */
  predicate LeavesIdle(stored: Option<Json>, k: Key) {
    stored.None? || (Named(stored.value, k) && !Member(stored.value, "operation").Obj?)
  }

  /** Event m is such a write, after entry `lo` of the log and before entry `hi`. */
  ghost predicate ClearedAt(s: Settings, st: State, evs: seq<Event>, k: Key, lo: nat, hi: nat, m: nat) {
    && m < |evs| && evs[m].Write? && evs[m].key == k && LeavesIdle(evs[m].stored, k)
    && lo < |Run(s, st, evs[..m]).world.sent| <= hi
  }

  ghost predicate Cleared(s: Settings, st: State, evs: seq<Event>, k: Key, lo: nat, hi: nat) {
    exists m: nat :: ClearedAt(s, st, evs, k, lo, hi, m)
  }

  lemma ClearedStays(s: Settings, st: State, evs: seq<Event>, ev: Event, k: Key, lo: nat, hi: nat, later: nat)
    requires Cleared(s, st, evs, k, lo, hi) && hi <= later
    ensures Cleared(s, st, evs + [ev], k, lo, later)
  {
    var m: nat :| ClearedAt(s, st, evs, k, lo, hi, m);
    assert (evs + [ev])[..m] == evs[..m];
    assert ClearedAt(s, st, evs + [ev], k, lo, later, m);
  }

  /** Every accepted request is still queued, or somebody else has cleared it since; */
  ghost predicate QueuedOrCleared(s: Settings, st: State, evs: seq<Event>, w: World) {
    forall i :: 0 <= i < |w.sent| && AcceptedRequest(w.sent[i], w.sent[i].key) ==>
      HasOperation(w.store, w.sent[i].key) || Cleared(s, st, evs, w.sent[i].key, i, |w.sent|)
  }

  /** a request in flight found all of its application cleared; */
  ghost predicate PendingCleared(s: Settings, st: State, evs: seq<Event>, now: State) {
    && (forall a, b :: a in now.pending && b in now.pending ==> a == b)
    && (forall i, id | 0 <= i < |now.world.sent| && id in now.pending && now.pending[id].patch.Operation?
          && AcceptedRequest(now.world.sent[i], now.pending[id].key) ::
          Cleared(s, st, evs, now.pending[id].key, i, |now.world.sent|))
  }

  /** and so had every accepted one. */
  ghost predicate SentCleared(s: Settings, st: State, evs: seq<Event>, w: World) {
    forall i, j | 0 <= i < j < |w.sent|
      && AcceptedRequest(w.sent[i], w.sent[j].key) && AcceptedRequest(w.sent[j], w.sent[j].key) ::
      Cleared(s, st, evs, w.sent[j].key, i, j)
  }

  lemma ReadKeepsCleared(s: Settings, st: State, evs: seq<Event>, ev: Event, now: State, next: State, id: nat, b: Begun)
    requires QueuedOrCleared(s, st, evs, now.world) && PendingCleared(s, st, evs, now)
             && SentCleared(s, st, evs, now.world)
    requires now.pending == map[] && next.world.sent == now.world.sent && next.world.store == now.world.store
    requires next.pending == if b.Waiting? then map[id := b.ready] else map[]
    requires b.Waiting? && b.ready.patch.Operation? ==> !HasOperation(now.world.store, b.ready.key)
    ensures QueuedOrCleared(s, st, evs + [ev], next.world) && PendingCleared(s, st, evs + [ev], next)
            && SentCleared(s, st, evs + [ev], next.world)
  {
    var sent := now.world.sent;
    forall i | 0 <= i < |sent| && AcceptedRequest(sent[i], sent[i].key)
      ensures HasOperation(now.world.store, sent[i].key) || Cleared(s, st, evs + [ev], sent[i].key, i, |sent|)
    {
      if !HasOperation(now.world.store, sent[i].key) {
        ClearedStays(s, st, evs, ev, sent[i].key, i, |sent|, |sent|);
      }
    }
    forall i, j | 0 <= i < j < |sent| && AcceptedRequest(sent[i], sent[j].key) && AcceptedRequest(sent[j], sent[j].key)
      ensures Cleared(s, st, evs + [ev], sent[j].key, i, j)
    {
      ClearedStays(s, st, evs, ev, sent[j].key, i, j, j);
    }
  }

  lemma PatchKeepsCleared(s: Settings, st: State, evs: seq<Event>, ev: Event, now: State, next: State, id: nat,
                          e: Sent, after: Json, l: OpLabel)
    requires QueuedOrCleared(s, st, evs, now.world) && PendingCleared(s, st, evs, now)
             && SentCleared(s, st, evs, now.world)
    requires id in now.pending && next.pending == map[]
    requires DeliverRel(now.world, next.world, now.pending[id], e, after, l)
    requires e.persisted && (e.patch.Operation? || HasOperation(now.world.store, e.key)) ==>
               Member(after, "operation").Obj?
    ensures QueuedOrCleared(s, st, evs + [ev], next.world) && PendingCleared(s, st, evs + [ev], next)
            && SentCleared(s, st, evs + [ev], next.world)
  {
    var w, w' := now.world, next.world;
    forall i | 0 <= i < |w'.sent| && AcceptedRequest(w'.sent[i], w'.sent[i].key)
      ensures HasOperation(w'.store, w'.sent[i].key) || Cleared(s, st, evs + [ev], w'.sent[i].key, i, |w'.sent|)
    {
      if i < |w.sent| {
        assert w'.sent[i] == w.sent[i];
        if !HasOperation(w.store, w.sent[i].key) {
          ClearedStays(s, st, evs, ev, w.sent[i].key, i, |w.sent|, |w'.sent|);
        }
      }
    }
    forall i, j | 0 <= i < j < |w'.sent| && AcceptedRequest(w'.sent[i], w'.sent[j].key)
      && AcceptedRequest(w'.sent[j], w'.sent[j].key)
      ensures Cleared(s, st, evs + [ev], w'.sent[j].key, i, j)
    {
      assert w'.sent[i] == w.sent[i];
      if j < |w.sent| {
        assert w'.sent[j] == w.sent[j];
      }
      ClearedStays(s, st, evs, ev, w'.sent[j].key, i, j, j);
    }
  }

  lemma WriteKeepsCleared(s: Settings, st: State, evs: seq<Event>, now: State, next: State, k: Key, o: Option<Json>)
    requires QueuedOrCleared(s, st, evs, now.world) && PendingCleared(s, st, evs, now)
             && SentCleared(s, st, evs, now.world)
    requires now == Run(s, st, evs)
    requires next.pending == now.pending && next.world.sent == now.world.sent
    requires next.world.store == OutsideStore(now.world.store, k, o)
    ensures var ev := Event.Write(k, o);
            QueuedOrCleared(s, st, evs + [ev], next.world) && PendingCleared(s, st, evs + [ev], next)
            && SentCleared(s, st, evs + [ev], next.world)
  {
    var ev, sent := Event.Write(k, o), now.world.sent;
    forall i | 0 <= i < |sent| && AcceptedRequest(sent[i], sent[i].key)
      ensures HasOperation(next.world.store, sent[i].key) || Cleared(s, st, evs + [ev], sent[i].key, i, |sent|)
    {
      if !HasOperation(now.world.store, sent[i].key) {
        ClearedStays(s, st, evs, ev, sent[i].key, i, |sent|, |sent|);
      } else if !HasOperation(next.world.store, sent[i].key) {
        assert (evs + [ev])[..|evs|] == evs;
        assert ClearedAt(s, st, evs + [ev], k, i, |sent|, |evs|);
      }
    }
    forall i, id | 0 <= i < |sent| && id in now.pending && now.pending[id].patch.Operation?
      && AcceptedRequest(sent[i], now.pending[id].key)
      ensures Cleared(s, st, evs + [ev], now.pending[id].key, i, |sent|)
    {
      ClearedStays(s, st, evs, ev, now.pending[id].key, i, |sent|, |sent|);
    }
    forall i, j | 0 <= i < j < |sent| && AcceptedRequest(sent[i], sent[j].key) && AcceptedRequest(sent[j], sent[j].key)
      ensures Cleared(s, st, evs + [ev], sent[j].key, i, j)
    {
      ClearedStays(s, st, evs, ev, sent[j].key, i, j, j);
    }
  }

  lemma {:induction false} RunCleared(s: Settings, st: State, evs: seq<Event>)
    requires WellFormed(s) && Initial(st) && Sequential(s, st, evs)
    ensures var now := Run(s, st, evs);
            QueuedOrCleared(s, st, evs, now.world) && PendingCleared(s, st, evs, now)
              && SentCleared(s, st, evs, now.world)
  {
    if evs != [] {
      var front, last := evs[..|evs| - 1], evs[|evs| - 1];
      assert front + [last] == evs;
      RunCleared(s, st, front);
      InvInitially(Rule(s), st);
      RunKeepsInv(s, st, front);
      StepCleared(s, st, front, last);
    }
  }

  /** An event that does nothing keeps everything. */
  lemma IdleKeepsCleared(s: Settings, st: State, evs: seq<Event>, ev: Event, now: State)
    requires QueuedOrCleared(s, st, evs, now.world) && PendingCleared(s, st, evs, now)
             && SentCleared(s, st, evs, now.world)
    ensures QueuedOrCleared(s, st, evs + [ev], now.world) && PendingCleared(s, st, evs + [ev], now)
            && SentCleared(s, st, evs + [ev], now.world)
  {
    forall k: Key, i: nat, j: nat | Cleared(s, st, evs, k, i, j) ensures Cleared(s, st, evs + [ev], k, i, j) {
      ClearedStays(s, st, evs, ev, k, i, j, j);
    }
  }

  lemma StepCleared(s: Settings, st: State, evs: seq<Event>, ev: Event)
    requires WellFormed(s) && Inv(Rule(s), Run(s, st, evs)) && (ev.Read? ==> Run(s, st, evs).pending == map[])
    requires var now := Run(s, st, evs);
             QueuedOrCleared(s, st, evs, now.world) && PendingCleared(s, st, evs, now)
               && SentCleared(s, st, evs, now.world)
    ensures var next := Step(s, Run(s, st, evs), ev);
            QueuedOrCleared(s, st, evs + [ev], next.world) && PendingCleared(s, st, evs + [ev], next)
            && SentCleared(s, st, evs + [ev], next.world)
  {
    var now := Run(s, st, evs);
    var next := Step(s, now, ev);
    match ev
    case Read(id, c, readError) =>
      BeginEffect(s, now.world, c, readError);
      ReadStep(s, now, id, c, readError);
      var b := Begin(s, now.world, c, readError).1;
      if b.Waiting? && b.ready.patch.Operation? {
        ReadFoundNone(s, now.world, b.ready);
      }
      ReadKeepsCleared(s, st, evs, ev, now, next, id, b);
    case Patch(id, policy, fate) =>
      if id in now.pending {
        var r := now.pending[id];
        var e, l := DeliverEffect(now.world, r, policy, fate);
        assert ReadyOk(Rule(s), now.world, r);
        if e.persisted && (e.patch.Operation? || HasOperation(now.world.store, e.key)) {
          PatchedKeepsOperation(s, now.world, r);
        }
        assert next.pending == map[];
        PatchKeepsCleared(s, st, evs, ev, now, next, id, e, AfterPatch(now.world, r), l);
      } else {
        IdleKeepsCleared(s, st, evs, ev, now);
      }
    case Write(k, o) =>
      WriteKeepsCleared(s, st, evs, now, next, k, o);
  }

  /** Calls made one after the other, whoever else writes: between two accepted syncs or rollbacks of one
    * application somebody else has left it without an operation. */
  lemma SomebodyCleared(s: Settings, st: State, turns: seq<Turn>, i: nat, j: nat)
    requires WellFormed(s) && Initial(st)
    requires var sent := RunTurns(s, st.world, turns).sent;
             i < j < |sent| && AcceptedRequest(sent[i], sent[j].key) && AcceptedRequest(sent[j], sent[j].key)
    ensures Cleared(s, st, TurnEvents(s, st.world, turns), RunTurns(s, st.world, turns).sent[j].key, i, j)
  {
    CallsAreRun(s, st, turns);
    TurnsSequential(s, st, turns);
    RunCleared(s, st, TurnEvents(s, st.world, turns));
  }

  /** Hence with no outside writer sequential calls have at most one sync or rollback accepted per application,
    * whatever refreshes, terminates and failures come between. */
  lemma SequentialAcceptsOnce(s: Settings, st: State, turns: seq<Turn>, i: nat, j: nat)
    requires WellFormed(s) && Initial(st) && Undisturbing(turns)
    requires var sent := RunTurns(s, st.world, turns).sent;
             i < |sent| && j < |sent| && AcceptedRequest(sent[i], sent[j].key) && AcceptedRequest(sent[j], sent[j].key)
    ensures i == j
  {
    TurnsAlone(s, st.world, turns);
    if i < j {
      SomebodyCleared(s, st, turns, i, j);
    } else if j < i {
      SomebodyCleared(s, st, turns, j, i);
    }
  }

  /** Each write call sends at most one patch, to the object it names, and it is the one it decided on. */
  lemma AtMostOnePatch(s: Settings, w: World, c: Call, x: Weather) returns (e: Option<Sent>)
    requires WellFormed(s) && WellNamed(w.store)
    ensures RunCall(s, w, c, x).0.sent == w.sent + (if e.Some? then [e.value] else [])
    ensures e.Some? ==> e.value.call == c && DecidedFrom(s, c, e.value.key, e.value.patch, e.value.read)
                        && Authorise(s, c).target in w.store && e.value.read == w.store[Authorise(s, c).target]
  {
    BeginEffect(s, w, c, x.readError);
    CallUnfolds(s, w, c, x);
    var (w1, b) := Begin(s, w, c, x.readError);
    if b.Waiting? {
      WaitsOn(s, w, c, x.readError);
      OutsideAllParts(w1, x.others);
      var r := b.ready;
      assert Rule(s)(r.call, r.key, r.patch, r.read) == DecidedFrom(s, r.call, r.key, r.patch, r.read);
      var sent, l := DeliverEffect(OutsideAll(w1, x.others), r, x.policy, x.fate);
      e := Some(sent);
    } else {
      e := None;
      assert w.sent + [] == w.sent;
    }
  }

  lemma WaitsOn(s: Settings, w: World, c: Call, readError: Option<ApiError>)
    requires Begin(s, w, c, readError).1.Waiting?
    ensures var t := Authorise(s, c).target; t in w.store && Begin(s, w, c, readError).1.ready.read == w.store[t]
  {
  }

  /** Whoever queued it: while an operation is queued every sync and rollback that gets through prepareWrite
    * is refused as a conflict and sends nothing. */
  lemma QueuedRefuses(s: Settings, w: World, c: Call)
    requires Passes(s, w, c, None) && (c.Sync? || c.Rollback?)
    requires HasOperation(w.store, Authorise(s, c).target)
    ensures var (w', b) := Begin(s, w, c, None);
            && b.Finished? && b.reply.InProgress?
            && w' == Record(w, Authorise(s, c).inst.name, KindOf(c), ConflictResult)
  {
    var a := Project(w.store[Authorise(s, c).target], s.parse);
    assert a.hasPendingOp;
    assert Decide(c, a).Refuse? && Decide(c, a).result == ConflictResult && Decide(c, a).reply.InProgress?;
  }

  /** In every run, what an accepted sync stores on an application that nobody wrote to since its read is read back
    * as what its caller asked for. */
  lemma UndisturbedSyncStored(s: Settings, st: State, evs: seq<Event>, i: nat)
    requires WellFormed(s) && Initial(st) && i < |Run(s, st, evs).world.sent|
    requires var e := Run(s, st, evs).world.sent[i]; e.persisted && Undisturbed(e) && e.call.Sync?
    ensures var e := Run(s, st, evs).world.sent[i];
            && e.live.Some?
            && AsksForSync(DecodeOperation(Member(Apply(e.live.value, e.patch), "operation")), e.call,
                           Project(e.live.value, s.parse))
  {
    Protocol.RunSent(s, st, evs, i);
    var e := Run(s, st, evs).world.sent[i];
    SyncStores(e.call, e.live.value, s.parse);
  }

  lemma SyncStores(c: Call, live: Json, parse: TimeParser)
    requires c.Sync? && Decide(c, Project(live, parse)).Send?
    ensures AsksForSync(DecodeOperation(Member(Apply(live, Decide(c, Project(live, parse)).patch), "operation")), c,
                        Project(live, parse))
  {
    var a := Project(live, parse);
    SyncAsks(c, a);
    SentPatch(c, a);
    IdleOverridesNothing(live, parse);
    ControllerReadsRequest(live, SyncRequestOf(c, a));
    SyncRoundTrip(SyncRequestOf(c, a));
  }

  /** And what an accepted rollback stores, as the entry of status.history it names, but for nulls in a source. */
  lemma UndisturbedRollbackStored(s: Settings, st: State, evs: seq<Event>, i: nat)
    requires WellFormed(s) && Initial(st) && i < |Run(s, st, evs).world.sent|
    requires var e := Run(s, st, evs).world.sent[i]; e.persisted && Undisturbed(e) && e.call.Rollback?
    ensures var e := Run(s, st, evs).world.sent[i];
            && e.live.Some? && e.patch.Operation?
            && Member(Apply(e.live.value, e.patch), "operation") == DropNulls(e.patch.op)
            && var raw := ElementsAt(e.live.value, ["status", "history"]);
            var n := FirstRaw(raw, e.call.id);
            n < |raw| && AsksForRollback(DecodeOperation(e.patch.op), e.call, raw[n])
  {
    Protocol.RunSent(s, st, evs, i);
    var e := Run(s, st, evs).world.sent[i];
    RollbackAsks(e.call, e.live.value, s.parse);
    RequestOnIdle(s, e.call, e.live.value, e.patch);
  }

  /** From the configuration to the patches: a server whose instances were built from it sends no patch to an instance
    * configured read-only, and each of its patches goes to an instance that is configured, in the namespace its call
    * gives or else the one configured. */
  lemma ConfiguredReadOnlySafety(ins: seq<Configs.InstanceConfig>, s: Settings, st: State, evs: seq<Event>, i: nat)
    requires Configs.ValidInstances(ins) && Registries.AsConfigured(s.instances, ins)
    requires Initial(st) && i < |Run(s, st, evs).world.sent|
    ensures var key, ref := Run(s, st, evs).world.sent[i].key, Run(s, st, evs).world.sent[i].call.ref;
            && !s.readOnly
            && (forall j :: 0 <= j < |ins| && ins[j].name == key.instance ==> !ins[j].readOnly)
            && exists j :: 0 <= j < |ins| && ins[j].name == key.instance && !ins[j].readOnly
                 && key.namespace == (if ref.namespace != "" then ref.namespace
                                      else if ins[j].namespace != "" then ins[j].namespace else "argocd")
  {
    ConfiguredIsWellFormed(ins, s);
    ReadOnlySafety(s, st, evs, i);
    var key := Run(s, st, evs).world.sent[i].key;
    var j :| 0 <= j < |ins| && ins[j].name == key.instance;
    assert Registries.HeldAs(s.instances[ins[j].name], ins[j]);
    forall m | 0 <= m < |ins| && ins[m].name == key.instance ensures !ins[m].readOnly {
      assert Registries.HeldAs(s.instances[ins[m].name], ins[m]);
    }
  }

  lemma ConfiguredIsWellFormed(ins: seq<Configs.InstanceConfig>, s: Settings)
    requires Configs.ValidInstances(ins) && Registries.AsConfigured(s.instances, ins)
    ensures WellFormed(s)
  {
    forall n | n in s.instances ensures n != "" && s.instances[n].name == n {
      var j :| 0 <= j < |ins| && ins[j].name == n;
      assert Configs.ValidInstance(ins[j]) && Registries.HeldAs(s.instances[n], ins[j]);
    }
  }

  // ----- Calls that race -----

  /** The request a sync or rollback builds from the application it reads. */
  function RequestOf(c: Call, a: App): SyncRequest
    requires c.Sync? || (c.Rollback? && FirstWithId(a.history, c.id).Some?)
  {
    if c.Sync? then SyncRequestOf(c, a) else RollbackRequestOf(c, FirstWithId(a.history, c.id).value)
  }

  predicate NamesNoSource(r: SyncRequest) {
    r.source.None? && r.sources == []
  }

  /** The call would send this request. */
  predicate Requests(c: Call, a: App, r: SyncRequest) {
    && (c.Sync? || (c.Rollback? && FirstWithId(a.history, c.id).Some?)) && r == RequestOf(c, a)
    && Acceptable(r) && Decide(c, a) == Send(Operation(OperationJson(r)))
  }

  lemma SendsRequest(c: Call, a: App)
    requires (c.Sync? || c.Rollback?) && Decide(c, a).Send?
    ensures (c.Rollback? ==> FirstWithId(a.history, c.id).Some?) && Requests(c, a, RequestOf(c, a))
  {
    SentPatch(c, a);
  }

  /** The log grew by two accepted requests for k, of c and then of d, and k now holds this object. */
  predicate BothAccepted(log: seq<Sent>, end: World, c: Call, d: Call, k: Key, after: Json) {
    var n := |log|;
    && |end.sent| == n + 2
    && AcceptedRequest(end.sent[n], k) && AcceptedRequest(end.sent[n + 1], k)
    && end.sent[n].call == c && end.sent[n + 1].call == d
    && k in end.store && end.store[k] == after
  }

  /** The guard admits both patches, one after the other. */
  predicate BothAdmit(live: Json, p: ToolPatch, q: ToolPatch) {
    Admits(live, Apply(live, p)) && Admits(Apply(live, p), Apply(Apply(live, p), q))
  }

  /** Two syncs or rollbacks that both read before either has patched are both accepted: the check against a second
    * operation holds only for calls that do not overlap. With the guard in force this is so on schema-valid objects
    * when neither names a source. */
  lemma RaceAcceptsBoth(s: Settings, st: State, c: Call, d: Call, k: Key, live: Json, policy: Policy)
    requires WellFormed(s) && WellNamed(st.world.store) && st.pending == map[]
    requires k in st.world.store && st.world.store[k] == live
    requires Names(s, c, k) && Names(s, d, k)
    requires (c.Sync? || c.Rollback?) && (d.Sync? || d.Rollback?)
    requires Decide(c, Project(live, s.parse)).Send? && Decide(d, Project(live, s.parse)).Send?
    requires policy.canPatch && (policy.guarded ==> PassesGuard(live, c, d, s.parse))
    ensures BothAccepted(st.world.sent, Race(s, st, c, d, policy).world, c, d, k, RacedObject(live, c, d, s.parse))
  {
    var mid := RaceParts(s, st, c, d, k, live, policy);
    RunAppend(s, st, RaceReads(c, d), RacePatches(policy));
  }

  /** The race in two halves: after the reads, and what the patches make of it. */
  lemma RaceParts(s: Settings, st: State, c: Call, d: Call, k: Key, live: Json, policy: Policy) returns (mid: State)
    requires WellFormed(s) && WellNamed(st.world.store) && st.pending == map[]
    requires k in st.world.store && st.world.store[k] == live
    requires Names(s, c, k) && Names(s, d, k)
    requires (c.Sync? || c.Rollback?) && (d.Sync? || d.Rollback?)
    requires Decide(c, Project(live, s.parse)).Send? && Decide(d, Project(live, s.parse)).Send?
    requires policy.canPatch && (policy.guarded ==> PassesGuard(live, c, d, s.parse))
    ensures mid == Run(s, st, RaceReads(c, d))
    ensures BothAccepted(st.world.sent, Run(s, mid, RacePatches(policy)).world, c, d, k,
                         RacedObject(live, c, d, s.parse))
  {
    var rc, rd;
    mid, rc, rd := BothWait(s, st, c, d, k, live);
    assert rc.patch == PatchOf(c, live, s.parse) && rd.patch == PatchOf(d, live, s.parse);
    if policy.guarded {
      BothAdmitted(live, c, d, s.parse);
    }
    RaceFrom(s, mid, rc, rd, live, policy);
  }

  /** The call may write, and names this application. */
  predicate Names(s: Settings, c: Call, k: Key) {
    Authorise(s, c).Granted? && Authorise(s, c).target == k
  }

  /** Both calls have read and wait to send what they decided on. */
  lemma BothWait(s: Settings, st: State, c: Call, d: Call, k: Key, live: Json)
    returns (mid: State, rc: Ready, rd: Ready)
    requires WellFormed(s) && WellNamed(st.world.store) && st.pending == map[]
    requires k in st.world.store && st.world.store[k] == live
    requires Names(s, c, k) && Names(s, d, k)
    requires (c.Sync? || c.Rollback?) && (d.Sync? || d.Rollback?)
    requires Decide(c, Project(live, s.parse)).Send? && Decide(d, Project(live, s.parse)).Send?
    ensures mid == Run(s, st, RaceReads(c, d)) && mid.world == st.world && mid.pending == map[0 := rc, 1 := rd]
    ensures rc.key == k && rd.key == k && rc.call == c && rd.call == d && rc.patch.Operation? && rd.patch.Operation?
    ensures Decide(c, Project(live, s.parse)) == Send(rc.patch) && Decide(d, Project(live, s.parse)) == Send(rd.patch)
  {
    WaitingCall(s, st.world, c);
    WaitingCall(s, st.world, d);
    mid, rc, rd := BothRead(s, st, c, d);
    TwoEvents(s, st, Event.Read(0, c, None), Event.Read(1, d, None));
  }

  lemma RaceFrom(s: Settings, st: State, rc: Ready, rd: Ready, live: Json, policy: Policy)
    requires st.pending == map[0 := rc, 1 := rd] && rc.key == rd.key && rc.patch.Operation? && rd.patch.Operation?
    requires rc.key in st.world.store && st.world.store[rc.key] == live
    requires policy.canPatch
    requires policy.guarded ==> BothAdmit(live, rc.patch, rd.patch)
    ensures BothAccepted(st.world.sent, Run(s, st, RacePatches(policy)).world, rc.call, rd.call, rc.key,
                         Apply(Apply(live, rc.patch), rd.patch))
  {
    BothLand(s, st, rc, rd, policy);
    TwoEvents(s, st, Event.Patch(0, policy, Answered), Event.Patch(1, policy, Answered));
  }

  function RaceReads(c: Call, d: Call): seq<Event> {
    [Event.Read(0, c, None), Event.Read(1, d, None)]
  }

  function RacePatches(policy: Policy): seq<Event> {
    [Event.Patch(0, policy, Answered), Event.Patch(1, policy, Answered)]
  }

  /** Both calls read, then both patches land and are answered. */
  function Race(s: Settings, st: State, c: Call, d: Call, policy: Policy): State {
    Run(s, st, RaceReads(c, d) + RacePatches(policy))
  }

  /** The patch a call sends on reading this application; Terminate stands for none. */
  function PatchOf(c: Call, live: Json, parse: TimeParser): ToolPatch {
    var d := Decide(c, Project(live, parse));
    if d.Send? then d.patch else Terminate
  }

  /** The object after both patches. */
  function RacedObject(live: Json, c: Call, d: Call, parse: TimeParser): Json {
    Apply(Apply(live, PatchOf(c, live, parse)), PatchOf(d, live, parse))
  }

  /** The entry a rollback goes back to names no source; a sync never does. */
  predicate GoesBackToNoSource(c: Call, a: App) {
    c.Rollback? && FirstWithId(a.history, c.id).Some? ==>
      NamesNoSource(RollbackRequestOf(c, FirstWithId(a.history, c.id).value))
  }

  /** The object is schema-valid and neither call names a source. */
  predicate PassesGuard(live: Json, c: Call, d: Call, parse: TimeParser) {
    && SchemaValid(live)
    && GoesBackToNoSource(c, Project(live, parse)) && GoesBackToNoSource(d, Project(live, parse))
  }

  lemma BothAdmitted(live: Json, c: Call, d: Call, parse: TimeParser)
    requires (c.Sync? || c.Rollback?) && (d.Sync? || d.Rollback?)
    requires Decide(c, Project(live, parse)).Send? && Decide(d, Project(live, parse)).Send?
    requires PassesGuard(live, c, d, parse)
    ensures BothAdmit(live, PatchOf(c, live, parse), PatchOf(d, live, parse))
  {
    var a := Project(live, parse);
    SendsRequest(c, a);
    SendsRequest(d, a);
    SentIsWellShaped(c, a);
    IdleOverridesNothing(live, parse);
    TwoAdmitted(live, RequestOf(c, a), RequestOf(d, a));
  }

  lemma TwoAdmitted(live: Json, r: SyncRequest, q: SyncRequest)
    requires SchemaValid(live) && !OverridesSource(live) && NamesNoSource(r) && NamesNoSource(q)
    ensures BothAdmit(live, Operation(OperationJson(r)), Operation(OperationJson(q)))
  {
    var p := Operation(OperationJson(r));
    RequestShape(r);
    RequestAdmittedIff(live, r);
    AdmittedIff(live, p);
    ToolPatchKeepsSchema(live, p);
    RequestAdmittedIff(Apply(live, p), q);
  }

  /** What two racing requests leave, field by field: the later one laid over the earlier one. */
  lemma RaceMixes(live: Json, c: Call, d: Call, parse: TimeParser)
    requires (c.Sync? || c.Rollback?) && (d.Sync? || d.Rollback?)
    requires Decide(c, Project(live, parse)).Send? && Decide(d, Project(live, parse)).Send?
    ensures var a := Project(live, parse);
            && Requests(c, a, RequestOf(c, a)) && Requests(d, a, RequestOf(d, a))
            && DecodeOperation(Member(RacedObject(live, c, d, parse), "operation")) ==
               Overlay(Normalise(DropSourceNulls(RequestOf(c, a))), RequestOf(d, a))
  {
    var a := Project(live, parse);
    SendsRequest(c, a);
    SendsRequest(d, a);
    SentPatch(c, a);
    IdleOverridesNothing(live, parse);
    ControllerReadsRequest(live, RequestOf(c, a));
    QueuedOperationOverlaid(Apply(live, Decide(c, a).patch), RequestOf(d, a));
  }

  lemma BothRead(s: Settings, st: State, c: Call, d: Call) returns (mid: State, rc: Ready, rd: Ready)
    requires st.pending == map[]
    requires Begin(s, st.world, c, None).0 == st.world && Begin(s, st.world, c, None).1.Waiting?
    requires Begin(s, st.world, d, None).0 == st.world && Begin(s, st.world, d, None).1.Waiting?
    ensures mid == Step(s, Step(s, st, Event.Read(0, c, None)), Event.Read(1, d, None))
    ensures mid.world == st.world && mid.pending == map[0 := rc, 1 := rd]
    ensures rc == Begin(s, st.world, c, None).1.ready && rd == Begin(s, st.world, d, None).1.ready
  {
    var s1 := Step(s, st, Event.Read(0, c, None));
    mid := Step(s, s1, Event.Read(1, d, None));
    rc, rd := Begin(s, st.world, c, None).1.ready, Begin(s, st.world, d, None).1.ready;
    ReadStep(s, st, 0, c, None);
    ReadStep(s, s1, 1, d, None);
  }

  lemma BothLand(s: Settings, st: State, rc: Ready, rd: Ready, policy: Policy)
    requires st.pending == map[0 := rc, 1 := rd]
    requires rc.key == rd.key && rc.key in st.world.store && rc.patch.Operation? && rd.patch.Operation?
    requires var live := st.world.store[rc.key];
             && policy.canPatch
             && (policy.guarded ==> Admits(live, Apply(live, rc.patch))
                                    && Admits(Apply(live, rc.patch), Apply(Apply(live, rc.patch), rd.patch)))
    ensures var first, second := Event.Patch(0, policy, Answered), Event.Patch(1, policy, Answered);
            var end, n := Step(s, Step(s, st, first), second).world, |st.world.sent|;
            && |end.sent| == n + 2
            && AcceptedRequest(end.sent[n], rc.key) && AcceptedRequest(end.sent[n + 1], rc.key)
            && end.sent[n].call == rc.call && end.sent[n + 1].call == rd.call
            && rc.key in end.store && end.store[rc.key] == Apply(Apply(st.world.store[rc.key], rc.patch), rd.patch)
  {
    var e, l := DeliverEffect(st.world, rc, policy, Answered);
    assert e.persisted;
    var mid := Step(s, st, Event.Patch(0, policy, Answered));
    assert rc.key in mid.world.store && mid.world.store[rc.key] == Apply(st.world.store[rc.key], rc.patch);
    var f, m := DeliverEffect(mid.world, rd, policy, Answered);
    assert f.persisted;
  }

  lemma WaitingCall(s: Settings, w: World, c: Call)
    requires WellFormed(s) && WellNamed(w.store) && Passes(s, w, c, None) && (c.Sync? || c.Rollback?)
    requires Decide(c, Project(w.store[Authorise(s, c).target], s.parse)).Send?
    ensures var (w', b) := Begin(s, w, c, None);
            && w' == w && b.Waiting? && b.ready.call == c && b.ready.key == Authorise(s, c).target
            && b.ready.patch.Operation?
            && b.ready.patch == Decide(c, Project(w.store[Authorise(s, c).target], s.parse)).patch
  {
    var access := Authorise(s, c);
    var o := w.store[access.target];
    ReadyIsOk(s, w, c, access, o, Decide(c, Project(o, s.parse)).patch);
    SentIsWellShaped(c, Project(o, s.parse));
  }

  // ----- Objects when nobody else writes -----

  /** The patches accepted for one application, in the order they landed. */
  function PatchesOn(sent: seq<Sent>, k: Key): seq<ToolPatch> {
    if sent == [] then []
    else
      var e := sent[|sent| - 1];
      PatchesOn(sent[..|sent| - 1], k) + (if e.key == k && e.persisted then [e.patch] else [])
  }

  /** Each object is the start object with the patches accepted for it applied in order. */
  ghost predicate Patched(start: Store, w: World) {
    && w.store.Keys == start.Keys
    && forall k :: k in start ==> w.store[k] == ApplyAll(start[k], PatchesOn(w.sent, k))
  }

  lemma OneMorePatch(o: Json, sent: seq<Sent>, e: Sent, k: Key)
    ensures ApplyAll(o, PatchesOn(sent + [e], k)) ==
            var before := ApplyAll(o, PatchesOn(sent, k));
            if e.key == k && e.persisted then Apply(before, e.patch) else before
  {
    var ps := PatchesOn(sent, k);
    assert (sent + [e])[..|sent|] == sent;
    assert (ps + [e.patch])[..|ps|] == ps && ps + [] == ps;
  }

  lemma PatchKeepsPatched(start: Store, w: World, w': World, r: Ready, e: Sent, l: OpLabel)
    requires Patched(start, w) && DeliverRel(w, w', r, e, AfterPatch(w, r), l)
    ensures Patched(start, w')
  {
    forall k | k in start ensures w'.store[k] == ApplyAll(start[k], PatchesOn(w'.sent, k)) {
      OneMorePatch(start[k], w.sent, e, k);
    }
  }

  lemma {:induction false} RunIsPatches(s: Settings, st: State, evs: seq<Event>)
    requires WellFormed(s) && Initial(st) && Alone(evs)
    ensures Patched(st.world.store, Run(s, st, evs).world)
  {
    if evs != [] {
      var front, last := evs[..|evs| - 1], evs[|evs| - 1];
      RunIsPatches(s, st, front);
      InvInitially(Rule(s), st);
      RunKeepsInv(s, st, front);
      var mid := Run(s, st, front);
      if last.Read? && last.id !in mid.pending {
        BeginEffect(s, mid.world, last.call, last.readError);
      } else if last.Patch? && last.id in mid.pending {
        var r := mid.pending[last.id];
        var e, l := DeliverEffect(mid.world, r, last.policy, last.fate);
        PatchKeepsPatched(st.world.store, mid.world, Step(s, mid, last).world, r, e, l);
      }
    }
  }

  /** Two runs from the same start leave an application the same whenever the patches accepted for it have the
    * same operations in the same order, the same last refresh, and agree on whether one was a terminate. */
  lemma RunsAgree(s: Settings, st: State, evs: seq<Event>, fvs: seq<Event>, k: Key)
    requires WellFormed(s) && Initial(st) && Alone(evs) && Alone(fvs) && k in st.world.store
    requires Summarise(PatchesOn(Run(s, st, evs).world.sent, k)) == Summarise(PatchesOn(Run(s, st, fvs).world.sent, k))
    ensures k in Run(s, st, evs).world.store && k in Run(s, st, fvs).world.store
    ensures Run(s, st, evs).world.store[k] == Run(s, st, fvs).world.store[k]
  {
    RunIsPatches(s, st, evs);
    RunIsPatches(s, st, fvs);
    SameSummarySameObject(st.world.store[k],
      PatchesOn(Run(s, st, evs).world.sent, k), PatchesOn(Run(s, st, fvs).world.sent, k));
  }

  lemma {:induction false} PatchesKeepSpecAndHistory(o: Json, ps: seq<ToolPatch>)
    ensures Member(ApplyAll(o, ps), "spec") == Member(o, "spec") && HistoryOf(ApplyAll(o, ps)) == HistoryOf(o)
  {
    if ps != [] {
      PatchesKeepSpecAndHistory(o, ps[..|ps| - 1]);
      ToolPatchKeepsSpecAndHistory(ApplyAll(o, ps[..|ps| - 1]), ps[|ps| - 1]);
    }
  }

  /** No run of this server alone creates, deletes, or redefines an application: every spec and every history
    * is what it was at the start, guarded or not. */
  lemma RunKeepsSpecAndHistory(s: Settings, st: State, evs: seq<Event>, k: Key)
    requires WellFormed(s) && Initial(st) && Alone(evs)
    ensures var end := Run(s, st, evs).world.store;
            && (k in end <==> k in st.world.store)
            && (k in end ==> Member(end[k], "spec") == Member(st.world.store[k], "spec")
                             && HistoryOf(end[k]) == HistoryOf(st.world.store[k]))
  {
    RunIsPatches(s, st, evs);
    if k in st.world.store {
      PatchesKeepSpecAndHistory(st.world.store[k], PatchesOn(Run(s, st, evs).world.sent, k));
    }
  }

  // ----- Runs under the write guard -----

  ghost predicate NoOverrides(store: Store) {
    forall k :: k in store ==> !OverridesSource(store[k])
  }

  /** The guard is in force whenever a patch lands. */
  ghost predicate GuardInForce(evs: seq<Event>) {
    forall i :: 0 <= i < |evs| && evs[i].Patch? ==> evs[i].policy.guarded
  }

  /** Event m is a write by somebody else that stores an override under k. */
  predicate PutsOverride(evs: seq<Event>, k: Key, m: nat) {
    && m < |evs| && evs[m].Write? && evs[m].key == k
    && evs[m].stored.Some? && OverridesSource(evs[m].stored.value)
  }

  /** An override stored under k was there at the start, or somebody else put it there. */
  ghost predicate Accounted(start: Store, evs: seq<Event>, store: Store, k: Key) {
    k in store && OverridesSource(store[k]) ==>
      (k in start && OverridesSource(start[k])) || exists m: nat :: PutsOverride(evs, k, m)
  }

  lemma GuardedDelivery(w: World, r: Ready, policy: Policy, fate: Fate, k: Key)
    requires policy.guarded
    ensures var end := Deliver(w, r, policy, fate).0.store;
            k in end && OverridesSource(end[k]) ==> k in w.store && OverridesSource(w.store[k])
  {
    var live := Lookup(w.store, r.key);
    if Persists(live, Body(r.patch), policy, fate) && r.key in w.store {
      AdmittedIsHarmless(live.value, Apply(live.value, r.patch));
    }
  }

  lemma AccountedMore(start: Store, evs: seq<Event>, ev: Event, before: Store, after: Store, k: Key)
    requires Accounted(start, evs, before, k)
    requires k in after && OverridesSource(after[k]) ==>
               (k in before && OverridesSource(before[k])) || PutsOverride([ev], k, 0)
    ensures Accounted(start, evs + [ev], after, k)
  {
    if k in after && OverridesSource(after[k]) && !(k in start && OverridesSource(start[k])) {
      if k in before && OverridesSource(before[k]) {
        var m: nat :| PutsOverride(evs, k, m);
        assert PutsOverride(evs + [ev], k, m);
      } else {
        assert PutsOverride(evs + [ev], k, |evs|);
      }
    }
  }

  /** In every run in which the patches meet the guard, whoever else writes whatever: an application that carries an
    * operation with a source of its own had it at the start, or got it from somebody else. */
  lemma {:induction false} OverridesComeFromOthers(s: Settings, st: State, evs: seq<Event>, k: Key)
    requires GuardInForce(evs)
    ensures Accounted(st.world.store, evs, Run(s, st, evs).world.store, k)
  {
    if evs != [] {
      var front, last := evs[..|evs| - 1], evs[|evs| - 1];
      assert last == evs[|evs| - 1] && front + [last] == evs;
      OverridesComeFromOthers(s, st, front, k);
      var mid := Run(s, st, front);
      GuardedStep(s, mid, last, k);
      AccountedMore(st.world.store, front, last, mid.world.store, Step(s, mid, last).world.store, k);
    }
  }

  lemma GuardedStep(s: Settings, st: State, ev: Event, k: Key)
    requires ev.Patch? ==> ev.policy.guarded
    ensures var before, after := st.world.store, Step(s, st, ev).world.store;
            k in after && OverridesSource(after[k]) ==>
              (k in before && OverridesSource(before[k])) || PutsOverride([ev], k, 0)
  {
    match ev
    case Read(id, c, readError) =>
      if id !in st.pending {
        BeginCounts(s, st.world, c, readError);
      }
    case Patch(id, policy, fate) =>
      if id in st.pending {
        GuardedDelivery(st.world, st.pending[id], policy, fate, k);
      }
    case Write(key, o) =>
  }

  /** The guard is in force, and others do not override sources themselves. */
  ghost predicate Guarded(evs: seq<Event>) {
    GuardInForce(evs) && forall k, m: nat :: !PutsOverride(evs, k, m)
  }

  /** Hence in every run under the guard in which others override no source no application ever carries one. */
  lemma GuardedRunsNeverRedirect(s: Settings, st: State, evs: seq<Event>)
    requires NoOverrides(st.world.store) && Guarded(evs)
    ensures NoOverrides(Run(s, st, evs).world.store)
  {
    forall k | k in Run(s, st, evs).world.store ensures !OverridesSource(Run(s, st, evs).world.store[k]) {
      OverridesComeFromOthers(s, st, evs, k);
    }
  }

  /** The handlers meet the guard, and others override no source. */
  ghost predicate GuardedTurns(turns: seq<Turn>) {
    forall i :: 0 <= i < |turns| ==>
      match turns[i]
      case Handled(c, x) => x.policy.guarded && forall j :: 0 <= j < |x.others| && x.others[j].1.Some? ==>
        !OverridesSource(x.others[j].1.value)
      case Elsewhere(k, o) => o.Some? ==> !OverridesSource(o.value)
  }

  /** The same, event by event. */
  ghost predicate Harmless(ev: Event) {
    && (ev.Patch? ==> ev.policy.guarded)
    && (ev.Write? && ev.stored.Some? ==> !OverridesSource(ev.stored.value))
  }

  ghost predicate AllHarmless(evs: seq<Event>) {
    forall i :: 0 <= i < |evs| ==> Harmless(evs[i])
  }

  lemma TurnHarmless(s: Settings, w: World, t: Turn)
    requires GuardedTurns([t])
    ensures AllHarmless(EventsOf(s, w, t))
  {
    assert [t][0] == t;
  }

  lemma {:induction false} TurnsHarmless(s: Settings, w: World, turns: seq<Turn>)
    requires GuardedTurns(turns)
    ensures AllHarmless(TurnEvents(s, w, turns))
  {
    if turns != [] {
      var front, last := turns[..|turns| - 1], turns[|turns| - 1];
      assert last == turns[|turns| - 1];
      TurnsHarmless(s, w, front);
      TurnHarmless(s, RunTurns(s, w, front), last);
    }
  }

  lemma TurnsGuarded(s: Settings, w: World, turns: seq<Turn>)
    requires GuardedTurns(turns)
    ensures Guarded(TurnEvents(s, w, turns))
  {
    var evs := TurnEvents(s, w, turns);
    TurnsHarmless(s, w, turns);
    forall i | 0 <= i < |evs| ensures Harmless(evs[i]) {}
  }

  /** The same for any sequence of handler calls. */
  lemma GuardedHandlersNeverRedirect(s: Settings, st: State, turns: seq<Turn>)
    requires st.pending == map[] && NoOverrides(st.world.store) && GuardedTurns(turns)
    ensures NoOverrides(RunTurns(s, st.world, turns).store)
  {
    CallsAreRun(s, st, turns);
    TurnsGuarded(s, st.world, turns);
    GuardedRunsNeverRedirect(s, st, TurnEvents(s, st.world, turns));
  }

  /** Only the object at k may differ, and only by the patch. */
  ghost predicate ChangesOnly(before: Store, after: Store, k: Key, p: ToolPatch) {
    && (forall x :: x != k ==> Lookup(after, x) == Lookup(before, x))
    && (after == before || (k in before && k in after && after[k] == Apply(before[k], p)))
  }

  lemma DeliverIsLocal(w: World, w': World, r: Ready, e: Sent, after: Json, l: OpLabel)
    requires DeliverRel(w, w', r, e, after, l) && after == AfterPatch(w, r)
    ensures ChangesOnly(w.store, w'.store, r.key, r.patch)
  {
  }

  /** With others writing too: delivering a patch changes at most the one object the call names, and that one
    * by merging the patch; the reading half of a call changes no object. */
  lemma PatchIsLocal(s: Settings, st: State, id: nat, policy: Policy, fate: Fate)
    requires Inv(Rule(s), st) && id in st.pending
    ensures var r := st.pending[id];
            && Authorise(s, r.call).Granted?
            && ChangesOnly(st.world.store, Step(s, st, Event.Patch(id, policy, fate)).world.store,
                           Authorise(s, r.call).target, r.patch)
  {
    var r := st.pending[id];
    assert ReadyOk(Rule(s), st.world, r);
    ReadyTarget(s, st.world, r);
    var e, l := DeliverEffect(st.world, r, policy, fate);
    DeliverIsLocal(st.world, Deliver(st.world, r, policy, fate).0, r, e, AfterPatch(st.world, r), l);
  }

  lemma ReadIsLocal(s: Settings, st: State, id: nat, c: Call, readError: Option<ApiError>)
    requires WellFormed(s) && WellNamed(st.world.store)
    ensures Step(s, st, Event.Read(id, c, readError)).world.store == st.world.store
  {
    if id !in st.pending {
      BeginEffect(s, st.world, c, readError);
    }
  }
}
