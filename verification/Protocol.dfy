/** Whole runs: any number of calls in flight, their reads and patches interleaved with each other and with
  * the writes of the application controller and everybody else.
  *
  * The patches carry no resourceVersion, so nothing stops a write from landing between the read of a call
  * and its patch. The version counts below only let the theorems say when that did not happen.
  */
module Protocol {
  import opened JsonValues
  import opened Applications
  import opened Patches
  import opened Instances
  import opened Calls

  /** A call that got through prepareWrite, and what it told its caller in the end. */
  datatype Finish = Finish(call: Call, reply: Reply)

  /** `passed` counts the calls that got through prepareWrite; `refused` are those told that writes are disabled. */
  datatype State = State(world: World, pending: map<nat, Ready>, finished: seq<Finish>, passed: nat, refused: seq<Call>)

  datatype Event =
    | Read(id: nat, call: Call, readError: Option<ApiError>)
    | Patch(id: nat, policy: Policy, fate: Fate)
    | Write(key: Key, stored: Option<Json>)

  /** The call gets through prepareWrite: it is allowed, and the application could be read. */
  predicate Passes(s: Settings, w: World, c: Call, readError: Option<ApiError>) {
    var access := Authorise(s, c);
    access.Granted? && readError.None? && access.target in w.store
  }

  /** One event; an id that is in use cannot begin another call, one that is not cannot send. */
  function Step(s: Settings, st: State, ev: Event): State {
    match ev
    case Read(id, c, readError) =>
      if id in st.pending then st
      else
        var (w, begun) := Begin(s, st.world, c, readError);
        var passes := Passes(s, st.world, c, readError);
        State(w,
              if begun.Waiting? then st.pending[id := begun.ready] else st.pending,
              if passes && begun.Finished? then st.finished + [Finish(c, begun.reply)] else st.finished,
              if passes then st.passed + 1 else st.passed,
              if begun.Finished? && begun.reply.WritesDisabled? then st.refused + [c] else st.refused)
    case Patch(id, policy, fate) =>
      if id !in st.pending then st
      else
        var (w, reply) := Deliver(st.world, st.pending[id], policy, fate);
        st.(world := w, pending := st.pending - {id}, finished := st.finished + [Finish(st.pending[id].call, reply)])
    case Write(key, o) => st.(world := Outside(st.world, key, o))
  }

  function Run(s: Settings, st: State, evs: seq<Event>): State {
    if evs == [] then st else Step(s, Run(s, st, evs[..|evs| - 1]), evs[|evs| - 1])
  }

  /** Nothing in flight, nothing recorded. */
  ghost predicate Initial(st: State) {
    && WellNamed(st.world.store)
    && st.pending == map[] && st.finished == [] && st.passed == 0 && st.refused == []
    && st.world.sent == [] && st.world.operations == multiset{} && st.world.blocked == multiset{}
  }

  /** What a validated configuration guarantees: every instance is found under its own, non-empty name. */
  ghost predicate WellFormed(s: Settings) {
    forall n :: n in s.instances ==> n != "" && s.instances[n].name == n
  }

  // ----- The invariant of all runs -----

  /** A call may write, and its decision on what it read is to send this patch to this object. */
  predicate DecidedFrom(s: Settings, c: Call, key: Key, patch: ToolPatch, read: Json) {
    var access := Authorise(s, c);
    && access.Granted? && access.target == key
    && Named(read, key)
    && Decide(c, Project(read, s.parse)) == Send(patch)
  }

  /** The rule patches are sent by. The invariant is kept for whatever rule the reads obey. */
  type SendRule = (Call, Key, ToolPatch, Json) -> bool

  function Rule(s: Settings): SendRule {
    (c, key, patch, read) => DecidedFrom(s, c, key, patch, read)
  }

  predicate ReadyOk(good: SendRule, w: World, r: Ready) {
    && good(r.call, r.key, r.patch, r.read)
    && r.instance == r.key.instance && r.instance != ""
    && r.readVersion <= VersionOf(w, r.key)
    && (r.readVersion == VersionOf(w, r.key) ==> Lookup(w.store, r.key) == Some(r.read))
  }

  predicate SentOk(good: SendRule, e: Sent) {
    && good(e.call, e.key, e.patch, e.read)
    && e.readVersion <= e.version
    && (e.readVersion == e.version ==> e.live == Some(e.read))
    && (e.persisted ==> e.live.Some?)
  }

  function OkTotal(ops: OpCounters, instance: string): nat {
    ops[OpLabel(instance, SyncOp, OkResult)] + ops[OpLabel(instance, RefreshOp, OkResult)]
    + ops[OpLabel(instance, RollbackOp, OkResult)] + ops[OpLabel(instance, TerminateOp, OkResult)]
  }

  function One(b: bool): nat {
    if b then 1 else 0
  }

  /** The patches the API server of an instance accepted, and those of them whose answer was lost. */
  function Accepted(sent: seq<Sent>, instance: string): nat {
    if sent == [] then 0
    else
      var e := sent[|sent| - 1];
      Accepted(sent[..|sent| - 1], instance) + One(e.key.instance == instance && e.persisted)
  }

  function AnswersLost(sent: seq<Sent>, instance: string): nat {
    if sent == [] then 0
    else
      var e := sent[|sent| - 1];
      AnswersLost(sent[..|sent| - 1], instance) + One(e.key.instance == instance && e.persisted && !e.answered)
  }

  ghost predicate Ledger(w: World) {
    forall i :: i != "" ==> OkTotal(w.operations, i) + AnswersLost(w.sent, i) == Accepted(w.sent, i)
  }

  ghost predicate AllReady(good: SendRule, st: State) {
    forall id :: id in st.pending ==> ReadyOk(good, st.world, st.pending[id])
  }

  ghost predicate AllSent(good: SendRule, w: World) {
    forall i :: 0 <= i < |w.sent| ==> SentOk(good, w.sent[i])
  }

  ghost predicate Inv(good: SendRule, st: State) {
    && WellNamed(st.world.store)
    && AllReady(good, st)
    && AllSent(good, st.world)
    && |st.world.operations| + |st.pending| == st.passed
    && Ledger(st.world)
  }

  lemma ApplyKeepsName(o: Json, p: ToolPatch, k: Key)
    ensures Named(Apply(o, p), k) <==> Named(o, k)
  {
    assert |"operation"| == 9 && |"metadata"| == 8 && |"status"| == 6
           && |"annotations"| == 11 && |"namespace"| == 9 && |"name"| == 4;
    PatchMember(o, p, "metadata");
    if p.Refresh? {
      MergeMember(Member(o, "metadata"), MetadataPatch(p.hard), "namespace");
      MergeMember(Member(o, "metadata"), MetadataPatch(p.hard), "name");
    }
  }

  lemma ProjectedName(o: Json, k: Key, parse: TimeParser)
    ensures Named(o, k) <==> Project(o, parse).namespace == k.namespace && Project(o, parse).name == k.name
  {
  }

  // ----- What each half of a call does -----

  predicate AddsRefusal(ops: OpCounters, ops': OpCounters, l: OpLabel) {
    l.result != OkResult && ops' == ops + multiset{l}
  }

  /** The first half touches nothing but the counters: it waits, or has recorded one refusal, or none. */
  ghost predicate BeginRel(w: World, w': World, passes: bool, b: Begun, l: OpLabel) {
    && w'.store == w.store && w'.versions == w.versions && w'.sent == w.sent
    && (b.Waiting? ==> w' == w && passes)
    && (!passes ==> w'.operations == w.operations)
    && (passes && b.Finished? ==> AddsRefusal(w.operations, w'.operations, l))
  }

  lemma BeginEffect(s: Settings, w: World, c: Call, readError: Option<ApiError>)
    requires WellFormed(s) && WellNamed(w.store)
    ensures var (w', b) := Begin(s, w, c, readError);
            BeginRel(w, w', Passes(s, w, c, readError), b, RefusalLabel(s, c, b))
            && (b.Waiting? ==> ReadyOk(Rule(s), w, b.ready) && b.ready.call == c
                               && b.ready.readVersion == VersionOf(w, b.ready.key))
  {
    BeginCounts(s, w, c, readError);
    BeginWaits(s, w, c, readError);
  }

  /** What a refusal is recorded under. */
  function RefusalLabel(s: Settings, c: Call, b: Begun): OpLabel {
    LabelFor(s, c, if b.Finished? then b.reply else NothingRunning)
  }

  lemma BeginCounts(s: Settings, w: World, c: Call, readError: Option<ApiError>)
    ensures var (w', b) := Begin(s, w, c, readError);
            BeginRel(w, w', Passes(s, w, c, readError), b, RefusalLabel(s, c, b))
  {
    if Passes(s, w, c, readError) {
      RefusalIsNoSuccess(c, Project(w.store[Authorise(s, c).target], s.parse));
    }
  }

  lemma BeginWaits(s: Settings, w: World, c: Call, readError: Option<ApiError>)
    requires WellFormed(s) && WellNamed(w.store)
    ensures var b := Begin(s, w, c, readError).1;
            b.Waiting? ==> ReadyOk(Rule(s), w, b.ready) && b.ready.call == c
                           && b.ready.readVersion == VersionOf(w, b.ready.key)
  {
    var access := Authorise(s, c);
    if access.Granted? && access.target in w.store {
      var o := w.store[access.target];
      if Decide(c, Project(o, s.parse)).Send? {
        ReadyIsOk(s, w, c, access, o, Decide(c, Project(o, s.parse)).patch);
      }
    }
  }

  lemma ReadyIsOk(s: Settings, w: World, c: Call, access: Access, o: Json, patch: ToolPatch)
    requires WellFormed(s) && WellNamed(w.store)
    requires access == Authorise(s, c) && access.Granted? && access.target in w.store && w.store[access.target] == o
    requires Decide(c, Project(o, s.parse)) == Send(patch)
    ensures var a := Project(o, s.parse);
            var key := Key(access.inst.name, a.namespace, a.name);
            && key == access.target
            && ReadyOk(Rule(s), w, Ready(c, access.inst.name, key, patch, o, VersionOf(w, access.target)))
  {
    assert Named(o, access.target);
    ProjectedName(o, access.target, s.parse);
    TargetReady(s, w, c, access, o, patch);
  }

  lemma TargetReady(s: Settings, w: World, c: Call, access: Access, o: Json, patch: ToolPatch)
    requires WellFormed(s) && access == Authorise(s, c) && access.Granted?
    requires access.target in w.store && w.store[access.target] == o && Named(o, access.target)
    requires Decide(c, Project(o, s.parse)) == Send(patch)
    ensures ReadyOk(Rule(s), w, Ready(c, access.inst.name, access.target, patch, o, VersionOf(w, access.target)))
  {
    assert access.inst.name != "";
    assert Rule(s)(c, access.target, patch, o) == DecidedFrom(s, c, access.target, patch, o);
  }

  lemma RefusalIsNoSuccess(c: Call, a: App)
    ensures Decide(c, a).Refuse? ==> Decide(c, a).result == ResultOf(Decide(c, a).reply) != OkResult
  {
  }

  /** The second half logs the patch, records its outcome, and when it persists replaces one object. */
  ghost predicate DeliverRel(w: World, w': World, r: Ready, e: Sent, after: Json, l: OpLabel) {
    && e.call == r.call && e.key == r.key && e.patch == r.patch && e.read == r.read && e.readVersion == r.readVersion
    && e.live == Lookup(w.store, r.key) && e.version == VersionOf(w, r.key)
    && (e.persisted ==> e.live.Some?)
    && w'.sent == w.sent + [e]
    && w'.store == (if e.persisted then w.store[r.key := after] else w.store)
    && w'.versions == (if e.persisted then w.versions[r.key := VersionOf(w, r.key) + 1] else w.versions)
    && w'.operations == w.operations + multiset{l}
    && l.instance == Label(r.instance) && (l.result == OkResult <==> e.persisted && e.answered)
  }

  function AfterPatch(w: World, r: Ready): Json {
    if r.key in w.store then Apply(w.store[r.key], r.patch) else Null
  }

  lemma DeliverEffect(w: World, r: Ready, policy: Policy, fate: Fate) returns (e: Sent, l: OpLabel)
    ensures DeliverRel(w, Deliver(w, r, policy, fate).0, r, e, AfterPatch(w, r), l)
    ensures forall k :: r.key in w.store && Named(w.store[r.key], k) ==> Named(AfterPatch(w, r), k)
    ensures e.persisted == Persists(Lookup(w.store, r.key), Body(r.patch), policy, fate)
    ensures l == OpLabel(Label(r.instance), KindOf(r.call), ResultOf(Deliver(w, r, policy, fate).1))
    ensures var error := Reported(Lookup(w.store, r.key), Body(r.patch), policy, fate);
            Deliver(w, r, policy, fate).1 == if error == None then Requested else PatchFailed(error.value)
  {
    var live := Lookup(w.store, r.key);
    var persisted := Persists(live, Body(r.patch), policy, fate);
    e := Sent(r.call, r.key, r.patch, r.read, r.readVersion, live, VersionOf(w, r.key), persisted, fate.Answered?);
    l := OpLabel(Label(r.instance), KindOf(r.call),
                 if Reported(live, Body(r.patch), policy, fate).None? then OkResult else ErrorResult);
    forall k | r.key in w.store && Named(w.store[r.key], k) ensures Named(AfterPatch(w, r), k) {
      ApplyKeepsName(w.store[r.key], r.patch, k);
    }
  }

  ghost predicate OutsideRel(w: World, w': World, k: Key) {
    && w'.sent == w.sent && w'.operations == w.operations
    && (w' == w || VersionOf(w', k) == VersionOf(w, k) + 1)
    && (forall x :: x != k ==> VersionOf(w', x) == VersionOf(w, x) && Lookup(w'.store, x) == Lookup(w.store, x))
  }

  lemma OutsideEffect(w: World, k: Key, o: Option<Json>)
    requires WellNamed(w.store)
    ensures OutsideRel(w, Outside(w, k, o), k) && WellNamed(Outside(w, k, o).store)
  {
  }

  // ----- Each step keeps the invariant -----

  lemma CountOk(ops: OpCounters, l: OpLabel, i: string)
    ensures OkTotal(ops + multiset{l}, i) == OkTotal(ops, i) + One(l.instance == i && l.result == OkResult)
  {
    var more := ops + multiset{l};
    forall k: OpKind ensures more[OpLabel(i, k, OkResult)] ==
      ops[OpLabel(i, k, OkResult)] + One(l == OpLabel(i, k, OkResult)) {}
    assert l.instance == i && l.result == OkResult <==> l == OpLabel(i, l.op, OkResult);
    assert l.op == SyncOp || l.op == RefreshOp || l.op == RollbackOp || l.op == TerminateOp;
  }

  lemma SentAppend(sent: seq<Sent>, e: Sent, i: string)
    ensures Accepted(sent + [e], i) == Accepted(sent, i) + One(e.key.instance == i && e.persisted)
    ensures AnswersLost(sent + [e], i) == AnswersLost(sent, i) + One(e.key.instance == i && e.persisted && !e.answered)
  {
    assert (sent + [e])[..|sent|] == sent;
  }

  lemma ReadKeeps(good: SendRule, st: State, st': State, id: nat, passes: bool, b: Begun,
                  l: OpLabel)
    requires Inv(good, st) && id !in st.pending && BeginRel(st.world, st'.world, passes, b, l)
    requires b.Waiting? ==> ReadyOk(good, st.world, b.ready)
    requires st'.pending == (if b.Waiting? then st.pending[id := b.ready] else st.pending)
    requires st'.passed == (if passes then st.passed + 1 else st.passed)
    ensures Inv(good, st')
  {
    var w, w' := st.world, st'.world;
    if passes && b.Finished? {
      forall i ensures OkTotal(w'.operations, i) == OkTotal(w.operations, i) {
        CountOk(w.operations, l, i);
      }
    }
    forall k | k in st'.pending ensures ReadyOk(good, w', st'.pending[k]) {
      if !(b.Waiting? && k == id) {
        assert ReadyOk(good, w, st.pending[k]);
      }
    }
    if b.Waiting? {
      assert st'.pending.Keys == st.pending.Keys + {id};
    }
  }

  lemma PatchKeepsLedger(w: World, w': World, r: Ready, e: Sent, after: Json, l: OpLabel)
    requires Ledger(w) && DeliverRel(w, w', r, e, after, l)
    requires r.instance == r.key.instance && r.instance != ""
    ensures Ledger(w')
  {
    forall i | i != "" ensures OkTotal(w'.operations, i) + AnswersLost(w'.sent, i) == Accepted(w'.sent, i) {
      CountOk(w.operations, l, i);
      SentAppend(w.sent, e, i);
    }
  }

  lemma PatchKeepsReady(good: SendRule, st: State, st': State, id: nat, e: Sent, after: Json, l: OpLabel)
    requires AllReady(good, st) && AllSent(good, st.world) && id in st.pending
    requires DeliverRel(st.world, st'.world, st.pending[id], e, after, l)
    requires st'.pending == st.pending - {id}
    ensures AllReady(good, st') && AllSent(good, st'.world)
  {
    var w, w' := st.world, st'.world;
    assert ReadyOk(good, w, st.pending[id]);
    forall k | k in st'.pending ensures ReadyOk(good, w', st'.pending[k]) {
      assert ReadyOk(good, w, st.pending[k]);
    }
    forall i | 0 <= i < |w'.sent| ensures SentOk(good, w'.sent[i]) {
      if i < |w.sent| {
        assert SentOk(good, w.sent[i]);
      }
    }
  }

  lemma PatchKeeps(good: SendRule, st: State, st': State, id: nat, e: Sent, after: Json, l: OpLabel)
    requires Inv(good, st) && id in st.pending
    requires DeliverRel(st.world, st'.world, st.pending[id], e, after, l)
    requires st.pending[id].key in st.world.store ==> Named(after, st.pending[id].key)
    requires st'.pending == st.pending - {id} && st'.passed == st.passed
    ensures Inv(good, st')
  {
    assert ReadyOk(good, st.world, st.pending[id]);
    PatchKeepsReady(good, st, st', id, e, after, l);
    PatchKeepsLedger(st.world, st'.world, st.pending[id], e, after, l);
    assert st.pending.Keys == st'.pending.Keys + {id};
    assert |st'.pending| == |st.pending| - 1;
  }

  lemma WriteKeeps(good: SendRule, st: State, st': State, key: Key)
    requires Inv(good, st) && OutsideRel(st.world, st'.world, key) && WellNamed(st'.world.store)
    requires st'.pending == st.pending && st'.passed == st.passed
    ensures Inv(good, st')
  {
    forall k | k in st.pending ensures ReadyOk(good, st'.world, st.pending[k]) {
      assert ReadyOk(good, st.world, st.pending[k]);
    }
  }

  lemma StepKeepsInv(s: Settings, st: State, ev: Event)
    requires WellFormed(s) && Inv(Rule(s), st)
    ensures Inv(Rule(s), Step(s, st, ev))
  {
    var st' := Step(s, st, ev);
    match ev
    case Read(id, c, readError) =>
      if id !in st.pending {
        BeginEffect(s, st.world, c, readError);
        var b := Begin(s, st.world, c, readError).1;
        ReadKeeps(Rule(s), st, st', id, Passes(s, st.world, c, readError), b, RefusalLabel(s, c, b));
      }
    case Patch(id, policy, fate) =>
      if id in st.pending {
        var r := st.pending[id];
        var e, l := DeliverEffect(st.world, r, policy, fate);
        PatchKeeps(Rule(s), st, st', id, e, AfterPatch(st.world, r), l);
      }
    case Write(key, o) =>
      OutsideEffect(st.world, key, o);
      WriteKeeps(Rule(s), st, st', key);
  }

  lemma InvInitially(good: SendRule, st: State)
    requires Initial(st)
    ensures Inv(good, st)
  {
  }

  lemma {:induction false} RunKeepsInv(s: Settings, st: State, evs: seq<Event>)
    requires WellFormed(s) && Inv(Rule(s), st)
    ensures Inv(Rule(s), Run(s, st, evs))
  {
    if evs != [] {
      RunKeepsInv(s, st, evs[..|evs| - 1]);
      StepKeepsInv(s, Run(s, st, evs[..|evs| - 1]), evs[|evs| - 1]);
    }
  }

  /** Every patch sent in a run was decided by a call that may write, from an object it read. */
  lemma RunSent(s: Settings, st: State, evs: seq<Event>, i: nat)
    requires WellFormed(s) && Initial(st) && i < |Run(s, st, evs).world.sent|
    ensures var e := Run(s, st, evs).world.sent[i];
            && DecidedFrom(s, e.call, e.key, e.patch, e.read)
            && e.readVersion <= e.version
            && (Undisturbed(e) ==> e.live == Some(e.read))
            && (e.persisted ==> e.live.Some?)
  {
    InvInitially(Rule(s), st);
    RunKeepsInv(s, st, evs);
    var e := Run(s, st, evs).world.sent[i];
    assert SentOk(Rule(s), e);
    assert Rule(s)(e.call, e.key, e.patch, e.read) == DecidedFrom(s, e.call, e.key, e.patch, e.read);
  }

  /** A patch that met the object it was decided on. */
  predicate Undisturbed(e: Sent) {
    e.readVersion == e.version
  }

  // ----- Safety of every run -----

  /** Read-only safety and locality: in every run every patch that was sent belongs to a call that named an
    * instance which is writable, in a server which is writable, and went to exactly the object the call names. */
  lemma ReadOnlySafety(s: Settings, st: State, evs: seq<Event>, i: nat)
    requires WellFormed(s) && Initial(st) && i < |Run(s, st, evs).world.sent|
    ensures var e := Run(s, st, evs).world.sent[i];
            var inst := Resolve(s.instances, s.defaultName, e.call.ref.instance);
            && !s.readOnly && inst.Some? && !inst.value.readOnly
            && e.key == TargetOf(inst.value, e.call.ref)
            && e.key.instance in s.instances && !s.instances[e.key.instance].readOnly
    ensures var ref, key := Run(s, st, evs).world.sent[i].call.ref, Run(s, st, evs).world.sent[i].key;
            && InstanceName(s, ref) in s.instances
            && var inst := s.instances[InstanceName(s, ref)];
            && key.instance == inst.name == InstanceName(s, ref)
            && key.namespace == (if ref.namespace != "" then ref.namespace else inst.namespace)
            && key.name == ref.name != ""
  {
    RunSent(s, st, evs, i);
    AuthoriseExact(s, Run(s, st, evs).world.sent[i].call);
  }

  /** The labels of finished calls. */
  function LabelsOf(s: Settings, fs: seq<Finish>): OpCounters {
    if fs == [] then multiset{}
    else LabelsOf(s, fs[..|fs| - 1]) + multiset{LabelFor(s, fs[|fs| - 1].call, fs[|fs| - 1].reply)}
  }

  lemma LabelsMore(s: Settings, fs: seq<Finish>, f: Finish)
    ensures LabelsOf(s, fs + [f]) == LabelsOf(s, fs) + multiset{LabelFor(s, f.call, f.reply)}
  {
    assert (fs + [f])[..|fs|] == fs;
  }

  lemma ReadyTarget(s: Settings, w: World, r: Ready)
    requires ReadyOk(Rule(s), w, r)
    ensures Authorise(s, r.call).Granted? && r.key == Authorise(s, r.call).target
    ensures r.instance == Authorise(s, r.call).inst.name
  {
    assert Rule(s)(r.call, r.key, r.patch, r.read) == DecidedFrom(s, r.call, r.key, r.patch, r.read);
  }

  /** The label a delivery records is that of its call and its reply. */
  lemma DeliveredLabel(s: Settings, w: World, r: Ready, policy: Policy, fate: Fate)
    requires WellFormed(s) && ReadyOk(Rule(s), w, r)
    ensures var (w', reply) := Deliver(w, r, policy, fate);
            w'.operations == w.operations + multiset{LabelFor(s, r.call, reply)}
  {
    ReadyTarget(s, w, r);
    var e, l := DeliverEffect(w, r, policy, fate);
  }

  /** What is counted are the finished calls, each under its instance, its kind and what it told its caller. */
  lemma {:induction false} CountsAreFinished(s: Settings, st: State, evs: seq<Event>)
    requires WellFormed(s) && Initial(st)
    ensures var end := Run(s, st, evs);
            end.world.operations == LabelsOf(s, end.finished) && |end.finished| + |end.pending| == end.passed
  {
    if evs != [] {
      var front, last := evs[..|evs| - 1], evs[|evs| - 1];
      CountsAreFinished(s, st, front);
      InvInitially(Rule(s), st);
      RunKeepsInv(s, st, front);
      StepCounts(s, Run(s, st, front), last);
    }
  }

  ghost predicate Counted(s: Settings, st: State) {
    st.world.operations == LabelsOf(s, st.finished) && |st.finished| + |st.pending| == st.passed
  }

  lemma ReadCounts(s: Settings, st: State, st': State, id: nat, c: Call, passes: bool, b: Begun)
    requires Counted(s, st) && id !in st.pending
    requires BeginRel(st.world, st'.world, passes, b, RefusalLabel(s, c, b))
    requires st'.pending == (if b.Waiting? then st.pending[id := b.ready] else st.pending)
    requires st'.finished == (if passes && b.Finished? then st.finished + [Finish(c, b.reply)] else st.finished)
    requires st'.passed == (if passes then st.passed + 1 else st.passed)
    ensures Counted(s, st')
  {
    if b.Finished? {
      LabelsMore(s, st.finished, Finish(c, b.reply));
    } else {
      assert st'.pending.Keys == st.pending.Keys + {id};
    }
  }

  lemma PatchCounts(s: Settings, st: State, st': State, id: nat, f: Finish)
    requires Counted(s, st) && id in st.pending
    requires st'.world.operations == st.world.operations + multiset{LabelFor(s, f.call, f.reply)}
    requires st'.pending == st.pending - {id} && st'.finished == st.finished + [f] && st'.passed == st.passed
    ensures Counted(s, st')
  {
    LabelsMore(s, st.finished, f);
    assert st.pending.Keys == st'.pending.Keys + {id};
  }

  lemma StepCounts(s: Settings, st: State, ev: Event)
    requires WellFormed(s) && Inv(Rule(s), st) && Counted(s, st)
    ensures Counted(s, Step(s, st, ev))
  {
    var st' := Step(s, st, ev);
    match ev
    case Read(id, c, readError) =>
      if id !in st.pending {
        BeginCounts(s, st.world, c, readError);
        ReadCounts(s, st, st', id, c, Passes(s, st.world, c, readError), Begin(s, st.world, c, readError).1);
      }
    case Patch(id, policy, fate) =>
      if id in st.pending {
        var r := st.pending[id];
        assert ReadyOk(Rule(s), st.world, r);
        DeliveredLabel(s, st.world, r, policy, fate);
        PatchCounts(s, st, st', id, Finish(r.call, Deliver(st.world, r, policy, fate).1));
      }
    case Write(key, o) =>
  }

  /** The ledger: in every run the counters hold exactly one label for each finished call that got through
    * prepareWrite, that of its instance, kind and reply, all others being in flight; and the "ok" total of an
    * instance is what its API server accepted, less the answers lost. */
  lemma LedgerBalances(s: Settings, st: State, evs: seq<Event>, instance: string)
    requires WellFormed(s) && Initial(st) && instance != ""
    ensures var end := Run(s, st, evs);
            && end.world.operations == LabelsOf(s, end.finished)
            && |end.finished| + |end.pending| == end.passed
            && OkTotal(end.world.operations, instance) + AnswersLost(end.world.sent, instance) ==
               Accepted(end.world.sent, instance)
  {
    InvInitially(Rule(s), st);
    RunKeepsInv(s, st, evs);
    CountsAreFinished(s, st, evs);
  }

  /** What a read-only refusal counts under: the instance the call resolves to, and the reason that holds for it,
    * the global one first. */
  function BlockLabelFor(s: Settings, c: Call): BlockLabel {
    var inst := Resolve(s.instances, s.defaultName, c.ref.instance);
    BlockLabel(if inst.Some? then inst.value.name else "", if s.readOnly then GlobalReadOnly else InstanceReadOnly)
  }

  function BlockLabelsOf(s: Settings, cs: seq<Call>): multiset<BlockLabel> {
    if cs == [] then multiset{}
    else BlockLabelsOf(s, cs[..|cs| - 1]) + multiset{BlockLabelFor(s, cs[|cs| - 1])}
  }

  lemma BlockLabelsMore(s: Settings, cs: seq<Call>, c: Call)
    ensures BlockLabelsOf(s, cs + [c]) == BlockLabelsOf(s, cs) + multiset{BlockLabelFor(s, c)}
  {
    assert (cs + [c])[..|cs|] == cs;
  }

  /** A call that may not write: its instance is known, and it or the server is read-only. */
  predicate MayNotWrite(s: Settings, c: Call) {
    var inst := Resolve(s.instances, s.defaultName, c.ref.instance);
    inst.Some? && (s.readOnly || inst.value.readOnly)
  }

  lemma ReadBlocks(s: Settings, w: World, c: Call, readError: Option<ApiError>)
    ensures var (w', b) := Begin(s, w, c, readError);
            && (b.Finished? && b.reply.WritesDisabled? <==> MayNotWrite(s, c))
            && w'.blocked == (if MayNotWrite(s, c) then w.blocked + multiset{BlockLabelFor(s, c)} else w.blocked)
  {
    ReadOnlyRefusalIff(s, c);
    if Passes(s, w, c, readError) {
      RefusalIsNotReadOnly(c, Project(w.store[Authorise(s, c).target], s.parse));
    }
  }

  lemma RefusalIsNotReadOnly(c: Call, a: App)
    ensures Decide(c, a).Refuse? ==> !Decide(c, a).reply.WritesDisabled?
  {
  }

  ghost predicate BlockedCounted(s: Settings, st: State) {
    && st.world.blocked == BlockLabelsOf(s, st.refused)
    && forall i :: 0 <= i < |st.refused| ==> MayNotWrite(s, st.refused[i])
  }

  lemma ReadKeepsBlocked(s: Settings, st: State, st': State, c: Call, refusal: bool)
    requires BlockedCounted(s, st) && (refusal ==> MayNotWrite(s, c))
    requires st'.refused == (if refusal then st.refused + [c] else st.refused)
    requires st'.world.blocked ==
             (if refusal then st.world.blocked + multiset{BlockLabelFor(s, c)} else st.world.blocked)
    ensures BlockedCounted(s, st')
  {
    if refusal {
      BlockLabelsMore(s, st.refused, c);
    }
  }

  /** In every run the writes-blocked counters are the labels of the calls refused as read-only, one each, and
    * these are exactly the calls that may not write. */
  lemma {:induction false} BlockedBalances(s: Settings, st: State, evs: seq<Event>)
    requires Initial(st)
    ensures BlockedCounted(s, Run(s, st, evs))
  {
    if evs != [] {
      var front, last := evs[..|evs| - 1], evs[|evs| - 1];
      BlockedBalances(s, st, front);
      StepKeepsBlocked(s, Run(s, st, front), last);
    }
  }

  lemma StepKeepsBlocked(s: Settings, st: State, ev: Event)
    requires BlockedCounted(s, st)
    ensures BlockedCounted(s, Step(s, st, ev))
  {
    if ev.Read? && ev.id !in st.pending {
      ReadBlocks(s, st.world, ev.call, ev.readError);
      ReadKeepsBlocked(s, st, Step(s, st, ev), ev.call, MayNotWrite(s, ev.call));
    }
  }

  /** In every run, an accepted sync or rollback with no write between its read and its patch found the
    * application idle, left `operation` as the built operation without its nulls, and every other path alone. */
  lemma UndisturbedRequestExact(s: Settings, st: State, evs: seq<Event>, i: nat)
    requires WellFormed(s) && Initial(st) && i < |Run(s, st, evs).world.sent|
    requires var e := Run(s, st, evs).world.sent[i]; e.persisted && e.patch.Operation? && Undisturbed(e)
    ensures var e := Run(s, st, evs).world.sent[i];
            && e.live.Some?
            && Idle(Project(e.live.value, s.parse))
            && LeavesExactly(e.live.value, e.patch)
  {
    RunSent(s, st, evs, i);
    var e := Run(s, st, evs).world.sent[i];
    RequestOnIdle(s, e.call, e.read, e.patch);
  }

  /** The operation is stored as it was built, nothing else changes, and sending it again changes nothing. */
  ghost predicate LeavesExactly(live: Json, p: ToolPatch)
    requires p.Operation?
  {
    var after := Apply(live, p);
    && Member(after, "operation") == DropNulls(p.op)
    && Apply(after, p) == after
    && forall path :: path != [] && path[0] != "operation" ==> At(after, path) == At(live, path)
  }

  lemma RequestOnIdle(s: Settings, c: Call, live: Json, p: ToolPatch)
    requires Decide(c, Project(live, s.parse)) == Send(p) && p.Operation?
    ensures Idle(Project(live, s.parse))
    ensures LeavesExactly(live, p)
  {
    SentIsWellShaped(c, Project(live, s.parse));
    PatchMember(live, p, "operation");
    MergeIntoNothing(Member(live, "operation"), p.op);
    MergeIdempotent(live, Body(p));
    forall path | path != [] && path[0] != "operation" ensures At(Apply(live, p), path) == At(live, path) {
      PatchFrame(live, p, path);
    }
  }

  // ----- Runs in which nobody else writes -----

  ghost predicate Alone(evs: seq<Event>) {
    forall i :: 0 <= i < |evs| ==> !evs[i].Write?
  }

  predicate AcceptedRequest(e: Sent, k: Key) {
    e.persisted && e.patch.Operation? && e.key == k
  }

  /** The object is there and has an operation queued. */
  predicate HasOperation(store: Store, k: Key) {
    k in store && Member(store[k], "operation").Obj?
  }

  /** An accepted sync or rollback leaves its application queued. */
  ghost predicate StaysQueued(w: World) {
    forall i :: 0 <= i < |w.sent| && AcceptedRequest(w.sent[i], w.sent[i].key) ==> HasOperation(w.store, w.sent[i].key)
  }

  /** No call still in flight that wants to queue an operation has read its application since one was accepted. */
  ghost predicate PendingReadEarlier(st: State) {
    forall i, id | 0 <= i < |st.world.sent| && id in st.pending
      && st.pending[id].patch.Operation? && AcceptedRequest(st.world.sent[i], st.pending[id].key) ::
      st.pending[id].readVersion <= st.world.sent[i].version
  }

  /** Nor has a later one that was accepted. */
  ghost predicate SentReadEarlier(w: World) {
    forall i, j | 0 <= i < j < |w.sent|
      && AcceptedRequest(w.sent[i], w.sent[j].key) && AcceptedRequest(w.sent[j], w.sent[j].key) ::
      w.sent[j].readVersion <= w.sent[i].version
  }

  ghost predicate Queued(st: State) {
    StaysQueued(st.world) && PendingReadEarlier(st) && SentReadEarlier(st.world)
  }

  /** Versions only grow: a persisted patch raises the count every later patch to the object meets. */
  ghost predicate Growing(w: World) {
    && (forall i :: 0 <= i < |w.sent| && w.sent[i].persisted ==> w.sent[i].version < VersionOf(w, w.sent[i].key))
    && (forall i, j :: 0 <= i < j < |w.sent| && w.sent[i].persisted && w.sent[i].key == w.sent[j].key ==>
          w.sent[i].version < w.sent[j].version)
  }

  lemma PatchKeepsGrowing(w: World, w': World, r: Ready, e: Sent, after: Json, l: OpLabel)
    requires Growing(w) && DeliverRel(w, w', r, e, after, l)
    ensures Growing(w')
  {
    forall i | 0 <= i < |w'.sent| && w'.sent[i].persisted ensures w'.sent[i].version < VersionOf(w', w'.sent[i].key) {
      if i < |w.sent| {
        assert w'.sent[i] == w.sent[i];
      }
    }
    forall i, j | 0 <= i < j < |w'.sent| && w'.sent[i].persisted && w'.sent[i].key == w'.sent[j].key
      ensures w'.sent[i].version < w'.sent[j].version
    {
      assert w'.sent[i] == w.sent[i];
      if j < |w.sent| {
        assert w'.sent[j] == w.sent[j];
      }
    }
  }

  lemma WriteKeepsGrowing(w: World, w': World, k: Key)
    requires Growing(w) && OutsideRel(w, w', k)
    ensures Growing(w')
  {
    forall i | 0 <= i < |w'.sent| && w'.sent[i].persisted ensures w'.sent[i].version < VersionOf(w', w'.sent[i].key) {
      assert VersionOf(w', w.sent[i].key) >= VersionOf(w, w.sent[i].key);
    }
  }

  lemma {:induction false} RunGrowing(s: Settings, st: State, evs: seq<Event>)
    requires WellFormed(s) && Initial(st)
    ensures Growing(Run(s, st, evs).world)
  {
    if evs != [] {
      var front, last := evs[..|evs| - 1], evs[|evs| - 1];
      RunGrowing(s, st, front);
      InvInitially(Rule(s), st);
      RunKeepsInv(s, st, front);
      var mid := Run(s, st, front);
      match last
      case Read(id, c, readError) =>
        if id !in mid.pending {
          BeginEffect(s, mid.world, c, readError);
        }
      case Patch(id, policy, fate) =>
        if id in mid.pending {
          var r := mid.pending[id];
          var e, l := DeliverEffect(mid.world, r, policy, fate);
          PatchKeepsGrowing(mid.world, Step(s, mid, last).world, r, e, AfterPatch(mid.world, r), l);
        }
      case Write(k, o) =>
        OutsideEffect(mid.world, k, o);
        WriteKeepsGrowing(mid.world, Step(s, mid, last).world, k);
    }
  }

  /** A call that decided to queue an operation read an application that had none. */
  lemma ReadFoundNone(s: Settings, w: World, r: Ready)
    requires ReadyOk(Rule(s), w, r) && r.patch.Operation? && r.readVersion == VersionOf(w, r.key)
    ensures !HasOperation(w.store, r.key)
  {
    assert Rule(s)(r.call, r.key, r.patch, r.read) == DecidedFrom(s, r.call, r.key, r.patch, r.read);
    SentIsWellShaped(r.call, Project(r.read, s.parse));
  }

  lemma ReadKeepsQueued(st: State, st': State, id: nat, passes: bool, b: Begun, l: OpLabel)
    requires Queued(st) && id !in st.pending && BeginRel(st.world, st'.world, passes, b, l)
    requires b.Waiting? && b.ready.patch.Operation? ==> !HasOperation(st.world.store, b.ready.key)
    requires st'.pending == (if b.Waiting? then st.pending[id := b.ready] else st.pending)
    ensures Queued(st')
  {
    var w, w' := st.world, st'.world;
    forall i, k | 0 <= i < |w'.sent| && k in st'.pending && st'.pending[k].patch.Operation?
      && AcceptedRequest(w'.sent[i], st'.pending[k].key)
      ensures st'.pending[k].readVersion <= w'.sent[i].version
    {
      assert HasOperation(w.store, w.sent[i].key);
      assert k in st.pending && st.pending[k] == st'.pending[k];
    }
  }

  lemma PatchKeepsQueued(st: State, st': State, id: nat, e: Sent, after: Json, l: OpLabel)
    requires Queued(st) && id in st.pending
    requires DeliverRel(st.world, st'.world, st.pending[id], e, after, l)
    requires st'.pending == st.pending - {id}
    requires e.persisted && (e.patch.Operation? || HasOperation(st.world.store, e.key)) ==>
               Member(after, "operation").Obj?
    requires forall k :: k in st.pending ==> st.pending[k].readVersion <= VersionOf(st.world, st.pending[k].key)
    ensures Queued(st')
  {
    var w, w' := st.world, st'.world;
    forall i | 0 <= i < |w'.sent| && AcceptedRequest(w'.sent[i], w'.sent[i].key)
      ensures HasOperation(w'.store, w'.sent[i].key)
    {
      if i < |w.sent| {
        assert w'.sent[i] == w.sent[i];
        assert HasOperation(w.store, w.sent[i].key);
      }
    }
    forall i, k | 0 <= i < |w'.sent| && k in st'.pending && st'.pending[k].patch.Operation?
      && AcceptedRequest(w'.sent[i], st'.pending[k].key)
      ensures st'.pending[k].readVersion <= w'.sent[i].version
    {
      if i < |w.sent| {
        assert w'.sent[i] == w.sent[i];
      }
    }
    forall i, j | 0 <= i < j < |w'.sent|
      && AcceptedRequest(w'.sent[i], w'.sent[j].key) && AcceptedRequest(w'.sent[j], w'.sent[j].key)
      ensures w'.sent[j].readVersion <= w'.sent[i].version
    {
      assert w'.sent[i] == w.sent[i];
      if j < |w.sent| {
        assert w'.sent[j] == w.sent[j];
      }
    }
  }

  lemma PatchedKeepsOperation(s: Settings, w: World, r: Ready)
    requires ReadyOk(Rule(s), w, r) && r.key in w.store
    requires r.patch.Operation? || HasOperation(w.store, r.key)
    ensures Member(AfterPatch(w, r), "operation").Obj?
  {
    assert Rule(s)(r.call, r.key, r.patch, r.read) == DecidedFrom(s, r.call, r.key, r.patch, r.read);
    SentIsWellShaped(r.call, Project(r.read, s.parse));
    PatchMember(w.store[r.key], r.patch, "operation");
  }

  lemma {:induction false} RunKeepsQueued(s: Settings, st: State, evs: seq<Event>)
    requires WellFormed(s) && Initial(st) && Alone(evs)
    ensures Queued(Run(s, st, evs))
  {
    if evs != [] {
      var front, last := evs[..|evs| - 1], evs[|evs| - 1];
      RunKeepsQueued(s, st, front);
      InvInitially(Rule(s), st);
      RunKeepsInv(s, st, front);
      StepKeepsQueued(s, Run(s, st, front), last);
    }
  }

  lemma StepKeepsQueued(s: Settings, st: State, ev: Event)
    requires WellFormed(s) && Inv(Rule(s), st) && Queued(st) && !ev.Write?
    ensures Queued(Step(s, st, ev))
  {
    var st' := Step(s, st, ev);
    if ev.Read? && ev.id !in st.pending {
      BeginEffect(s, st.world, ev.call, ev.readError);
      var b := Begin(s, st.world, ev.call, ev.readError).1;
      if b.Waiting? && b.ready.patch.Operation? {
        ReadFoundNone(s, st.world, b.ready);
      }
      ReadKeepsQueued(st, st', ev.id, Passes(s, st.world, ev.call, ev.readError), b, RefusalLabel(s, ev.call, b));
    } else if ev.Patch? && ev.id in st.pending {
      PatchStepKeepsQueued(s, st, st', ev.id, ev.policy, ev.fate);
    }
  }

  lemma PatchStepKeepsQueued(s: Settings, st: State, st': State, id: nat, policy: Policy, fate: Fate)
    requires WellFormed(s) && Inv(Rule(s), st) && Queued(st) && id in st.pending
    requires st'.world == Deliver(st.world, st.pending[id], policy, fate).0 && st'.pending == st.pending - {id}
    ensures Queued(st')
  {
    var r := st.pending[id];
    var e, l := DeliverEffect(st.world, r, policy, fate);
    assert ReadyOk(Rule(s), st.world, r);
    if e.persisted && (e.patch.Operation? || HasOperation(st.world.store, e.key)) {
      PatchedKeepsOperation(s, st.world, r);
    }
    forall k | k in st.pending ensures st.pending[k].readVersion <= VersionOf(st.world, st.pending[k].key) {
      assert ReadyOk(Rule(s), st.world, st.pending[k]);
    }
    PatchKeepsQueued(st, st', id, e, AfterPatch(st.world, r), l);
  }

  /** With no outside writer, in any interleaving of this server's own calls: of two accepted syncs or rollbacks
    * of one application, the later was decided on a read made before the earlier one landed. */
  lemma LaterRequestReadEarlier(s: Settings, st: State, evs: seq<Event>, i: nat, j: nat)
    requires WellFormed(s) && Initial(st) && Alone(evs)
    requires var sent := Run(s, st, evs).world.sent;
             i < j < |sent| && AcceptedRequest(sent[i], sent[j].key) && AcceptedRequest(sent[j], sent[j].key)
    ensures var sent := Run(s, st, evs).world.sent;
            sent[j].readVersion <= sent[i].version < sent[j].version
  {
    RunKeepsQueued(s, st, evs);
    RunGrowing(s, st, evs);
  }

  /** Hence at most one of them is undisturbed. */
  lemma AtMostOneUndisturbed(s: Settings, st: State, evs: seq<Event>, i: nat, j: nat)
    requires WellFormed(s) && Initial(st) && Alone(evs)
    requires i < |Run(s, st, evs).world.sent| && j < |Run(s, st, evs).world.sent|
    requires var sent := Run(s, st, evs).world.sent;
             && AcceptedRequest(sent[i], sent[j].key) && AcceptedRequest(sent[j], sent[j].key)
             && Undisturbed(sent[i]) && Undisturbed(sent[j])
    ensures i == j
  {
    if i < j {
      LaterRequestReadEarlier(s, st, evs, i, j);
    } else if j < i {
      LaterRequestReadEarlier(s, st, evs, j, i);
    }
  }
}
