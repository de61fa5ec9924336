/** The probe of the write guard and the gauge that publishes it (internal/instances/instance.go lines 134-159,
  * internal/argocd/guard.go lines 86-114, main.go lines 197-227).
  */
module Probe {
  import opened JsonValues
  import Sorting
  import opened Applications
  import opened Operations
  import opened WriteGuard
  import opened Instances
  import opened Registries
  import opened Calls
  import opened Servers

  datatype GuardState = GuardUnknown | GuardActive | GuardMissing

  /** What the credentials may do to each application: roles are bound per namespace and can name the objects
    * they cover. */
  type Grants = Key -> Policy

  /** What surrounds one probe: the answer to its list request, what others write before its dry run, the grants,
    * and how the dry run is answered. */
  datatype Surroundings = Surroundings(
    listing: Result<seq<Json>, ApiError>, others: seq<(Key, Option<Json>)>, grants: Grants, fate: Fate)

  function TargetKey(inst: Instance, item: Json): Key {
    var m := Member(item, "metadata");
    Key(inst.name, Text(Member(m, "namespace")), Text(Member(m, "name")))
  }

  /** What a probe concludes when its dry run meets `store`. */
  function Conclusion(store: Store, inst: Instance, x: Surroundings): GuardState {
    if x.listing.Err? || x.listing.value == [] then GuardUnknown
    else
      var k := TargetKey(inst, x.listing.value[0]);
      match Reported(Lookup(store, k), GuardProbePatch(), x.grants(k), x.fate)
      case None => GuardMissing
      case Some(PolicyDenied) => GuardActive
      case Some(Forbidden) => GuardActive
      case Some(_) => GuardUnknown
  }

  /** How the dry run of a probe is answered: it asks for another project of the first application listed. */
  function ProbeAnswer(store: Store, inst: Instance, x: Surroundings): Option<ApiError>
    requires x.listing.Ok? && x.listing.value != []
  {
    var first := x.listing.value[0];
    var k := Key(inst.name, TextAt(first, ["metadata", "namespace"]), TextAt(first, ["metadata", "name"]));
    Reported(Lookup(store, k), Obj(map["spec" := Obj(map["project" := Str("argocd-mcp-write-guard-probe")])]),
             x.grants(k), x.fate)
  }

  predicate Listed(x: Surroundings) {
    x.listing.Ok? && x.listing.value != []
  }

  /** The state says what the probe learnt: missing only if the rewrite was accepted, active only if it was refused by
    * a policy or for want of permission, and unknown when there was nothing to probe or any other error. */
  predicate SaysWhatWasLearnt(state: GuardState, store: Store, inst: Instance, x: Surroundings) {
    && (state == GuardMissing <==> Listed(x) && ProbeAnswer(store, inst, x) == None)
    && (state == GuardActive <==> Listed(x) && ProbeAnswer(store, inst, x) in {Some(PolicyDenied), Some(Forbidden)})
    && (state == GuardUnknown <==>
        !Listed(x) || ProbeAnswer(store, inst, x) !in {None, Some(PolicyDenied), Some(Forbidden)})
  }

  lemma ConclusionSays(store: Store, inst: Instance, x: Surroundings)
    ensures SaysWhatWasLearnt(Conclusion(store, inst, x), store, inst, x)
  {
    if Listed(x) {
      TwoSteps(x.listing.value[0], "metadata", "namespace");
      TwoSteps(x.listing.value[0], "metadata", "name");
    }
  }

  /** The dry run is answered like a write, and nothing is stored. */
  method DryRunPatch(api: Clusters, k: Key, body: Json, policy: Policy, fate: Fate) returns (error: Option<ApiError>)
    ensures error == Reported(Lookup(api.store, k), body, policy, fate)
  {
    error := Reported(Lookup(api.store, k), body, policy, fate);
  }

  /** Nothing but the writes of others reaches the store, the version counts or the log of patches sent. */
  method CheckWriteGuard(inst: Instance, api: Clusters, x: Surroundings) returns (state: GuardState)
    modifies api
    ensures api.store == StoreAfterAll(old(api.store), x.others)
    ensures api.versions == VersionsAfterAll(old(api.versions), x.others) && api.sent == old(api.sent)
    ensures state == Conclusion(api.store, inst, x) && SaysWhatWasLearnt(state, api.store, inst, x)
  {
    api.Interfere(x.others);
    ConclusionSays(api.store, inst, x);
    if x.listing.Err? {
      return GuardUnknown;
    }
    if |x.listing.value| == 0 {
      return GuardUnknown;
    }
    var target := TargetKey(inst, x.listing.value[0]);
    var error := DryRunPatch(api, target, GuardProbePatch(), x.grants(target), x.fate);
    if error == None {
      return GuardMissing;
    } else if error == Some(PolicyDenied) {
      return GuardActive;
    } else if error == Some(Forbidden) {
      return GuardActive;
    } else {
      return GuardUnknown;
    }
  }

  // ----- What a conclusion is worth -----

  /** The dry run was answered, and met a schema-valid application. */
  predicate Conclusive(store: Store, inst: Instance, x: Surroundings) {
    && x.listing.Ok? && x.listing.value != [] && x.fate == Answered
    && var k := TargetKey(inst, x.listing.value[0]);
    k in store && SchemaValid(store[k])
  }

  function Target(store: Store, inst: Instance, x: Surroundings): Key
    requires Conclusive(store, inst, x)
  {
    TargetKey(inst, x.listing.value[0])
  }

  /** The application probed happens to belong to the project the probe writes, and overrides no source. */
  predicate ProbesOwnProject(store: Store, inst: Instance, x: Surroundings)
    requires Conclusive(store, inst, x)
  {
    var live := store[Target(store, inst, x)];
    Member(Member(live, "spec"), "project") == Str(PROBE_PROJECT) && !OverridesSource(live)
  }

  /** Exactly what the probe concludes: the application it probed is reported unprotected when the credentials may
    * patch it and no guard is in force, and also, wrongly, when it is in the probe's own project. */
  lemma ConclusionExact(store: Store, inst: Instance, x: Surroundings)
    requires Conclusive(store, inst, x)
    ensures var policy := x.grants(Target(store, inst, x));
            Conclusion(store, inst, x) ==
            if policy.canPatch && (!policy.guarded || ProbesOwnProject(store, inst, x)) then GuardMissing
            else GuardActive
  {
    ProbeAdmittedIff(store[Target(store, inst, x)]);
  }

  /** The update redirects a sync in one of the three ways. */
  predicate Redirects(next: Json, prev: Json) {
    !SpecUnchanged(next, prev) || OverridesSource(next) || !HistoryUnchanged(next, prev)
  }

  /** Whatever the patch, none that is accepted on this application redirects its syncs. */
  ghost predicate Protected(live: Json, policy: Policy) {
    forall body: Json | Verdict(Some(live), body, policy).None? :: !Redirects(MergePatch(live, body), live)
  }

  /** A patch that redirects any application: it queues an operation with a source of its own. */
  function RedirectPatch(): Json {
    Obj(map["operation" := Obj(map["sync" := Obj(map["source" := Obj(map[])])])])
  }

  lemma ProtectedIff(live: Json, policy: Policy)
    ensures Protected(live, policy) <==> !policy.canPatch || policy.guarded
  {
    if policy.canPatch && policy.guarded {
      forall body: Json | Verdict(Some(live), body, policy).None? ensures !Redirects(MergePatch(live, body), live) {
        AdmittedIsHarmless(live, MergePatch(live, body));
      }
    } else if policy.canPatch {
      var after := MergePatch(live, RedirectPatch());
      MergeMember(live, RedirectPatch(), "operation");
      var op, sync := Member(RedirectPatch(), "operation"), Obj(map["source" := Obj(map[])]);
      MergeMember(Member(live, "operation"), op, "sync");
      MergeMember(Member(Member(live, "operation"), "sync"), sync, "source");
      assert Verdict(Some(live), RedirectPatch(), policy).None? && OverridesSource(after);
    }
  }

  /** An answered probe speaks for every patch on the application it probed: "active" is always true of it, and
    * "missing" is true of it unless it is in the probe's own project. */
  lemma ConclusionIsSound(store: Store, inst: Instance, x: Surroundings)
    requires Conclusive(store, inst, x)
    ensures var k := Target(store, inst, x);
            && Conclusion(store, inst, x) != GuardUnknown
            && (Conclusion(store, inst, x) == GuardActive ==> Protected(store[k], x.grants(k)))
            && (!ProbesOwnProject(store, inst, x) ==>
                  (Conclusion(store, inst, x) == GuardActive <==> Protected(store[k], x.grants(k))))
  {
    ConclusionExact(store, inst, x);
    ProtectedIff(store[Target(store, inst, x)], x.grants(Target(store, inst, x)));
  }

  /** No application of the instance can be redirected, which is what the gauge is read as. */
  ghost predicate AllProtected(store: Store, instance: string, grants: Grants) {
    forall k :: k in store && k.instance == instance ==> Protected(store[k], grants(k))
  }

  /** These credentials may patch the application and no guard stands in the way. */
  predicate Exposed(policy: Policy) {
    policy.canPatch && !policy.guarded
  }

  /** A finding for one application holds for the whole instance exactly when no other application of it is
    * exposed by the grants. */
  lemma ActiveHoldsIff(store: Store, inst: Instance, x: Surroundings)
    requires Conclusive(store, inst, x) && Conclusion(store, inst, x) == GuardActive
    ensures AllProtected(store, inst.name, x.grants) <==>
            forall k | k in store && k.instance == inst.name && k != Target(store, inst, x) :: !Exposed(x.grants(k))
  {
    ConclusionIsSound(store, inst, x);
    forall k | k in store ensures Protected(store[k], x.grants(k)) <==> !Exposed(x.grants(k)) {
      ProtectedIff(store[k], x.grants(k));
    }
  }

  /** In particular when the grants make no difference between the applications of the instance. */
  lemma UniformGrantsSuffice(store: Store, inst: Instance, x: Surroundings)
    requires Conclusive(store, inst, x) && !ProbesOwnProject(store, inst, x)
    requires forall k: Key :: k.instance == inst.name ==> x.grants(k) == x.grants(Target(store, inst, x))
    ensures Conclusion(store, inst, x) == GuardActive <==> AllProtected(store, inst.name, x.grants)
  {
    var t := Target(store, inst, x);
    ConclusionIsSound(store, inst, x);
    forall k | k in store && k.instance == inst.name
      ensures Protected(store[k], x.grants(k)) <==> !Exposed(x.grants(t))
    {
      ProtectedIff(store[k], x.grants(k));
    }
  }

  // ----- The gauge -----

  datatype Finding = Finding(instance: string, state: GuardState)

  function Publish(gauge: map<string, bool>, f: Finding): map<string, bool> {
    match f.state
    case GuardActive => gauge[f.instance := true]
    case GuardMissing => gauge[f.instance := false]
    case GuardUnknown => gauge - {f.instance}
  }

  function GaugeAfter(gauge: map<string, bool>, log: seq<Finding>): map<string, bool> {
    if log == [] then gauge else Publish(GaugeAfter(gauge, log[..|log| - 1]), log[|log| - 1])
  }

  /** The sample a state calls for. */
  function Sample(state: GuardState): Option<bool> {
    match state
    case GuardActive => Some(true)
    case GuardMissing => Some(false)
    case GuardUnknown => None
  }

  function Reading(gauge: map<string, bool>, instance: string): Option<bool> {
    if instance in gauge then Some(gauge[instance]) else None
  }

  /** Finding number k is the latest about its instance. */
  ghost predicate Latest(log: seq<Finding>, k: nat) {
    k < |log| && forall j :: k < j < |log| ==> log[j].instance != log[k].instance
  }

  /** In every run of probes the gauge shows 1, 0 or nothing exactly as the latest probe of the instance found
    * the guard active, missing or unknown, and what it showed at first for an instance never probed. */
  lemma {:induction false} GaugeShowsLatest(gauge: map<string, bool>, log: seq<Finding>, k: nat)
    requires Latest(log, k)
    ensures Reading(GaugeAfter(gauge, log), log[k].instance) == Sample(log[k].state)
  {
    var front, last := log[..|log| - 1], log[|log| - 1];
    if k < |front| {
      assert front[k] == log[k] && last.instance != log[k].instance;
      assert Latest(front, k);
      GaugeShowsLatest(gauge, front, k);
    }
  }

  lemma {:induction false} GaugeKeepsOthers(gauge: map<string, bool>, log: seq<Finding>, instance: string)
    requires forall k :: 0 <= k < |log| ==> log[k].instance != instance
    ensures Reading(GaugeAfter(gauge, log), instance) == Reading(gauge, instance)
  {
    if log != [] {
      GaugeKeepsOthers(gauge, log[..|log| - 1], instance);
    }
  }

  /** The stores that the first n probes of a round leave behind. */
  function StoreBefore(store: Store, xs: seq<Surroundings>, n: nat): Store
    requires n <= |xs|
  {
    if n == 0 then store else StoreAfterAll(StoreBefore(store, xs, n - 1), xs[n - 1].others)
  }

  /** What a round finds: each instance in turn, its dry run meeting the store of that moment. */
  function RoundLog(store: Store, insts: seq<Instance>, xs: seq<Surroundings>): seq<Finding>
    requires |insts| == |xs|
  {
    seq(|insts|, i requires 0 <= i < |insts| =>
      Finding(insts[i].name, Conclusion(StoreBefore(store, xs, i + 1), insts[i], xs[i])))
  }

  /** Probes one instance and publishes what was found. */
  method ProbeInstance(inst: Instance, api: Clusters, metrics: Metrics, x: Surroundings)
    modifies api, metrics`guard
    ensures api.store == StoreAfterAll(old(api.store), x.others) && api.sent == old(api.sent)
    ensures metrics.guard == Publish(old(metrics.guard), Finding(inst.name, Conclusion(api.store, inst, x)))
  {
    var state := CheckWriteGuard(inst, api, x);
    match state
    case GuardActive => metrics.SetWriteGuardActive(inst.name, true);
    case GuardMissing => metrics.SetWriteGuardActive(inst.name, false);
    case GuardUnknown => metrics.ClearWriteGuard(inst.name);
  }

  method ProbeRound(reg: Registry, api: Clusters, metrics: Metrics, xs: seq<Surroundings>)
    requires reg.Valid() && |xs| == |AllOf(reg.instances, reg.order)|
    modifies api, metrics`guard
    ensures api.store == StoreBefore(old(api.store), xs, |xs|) && api.sent == old(api.sent)
    ensures metrics.guard ==
            GaugeAfter(old(metrics.guard), RoundLog(old(api.store), AllOf(reg.instances, reg.order), xs))
  {
    var all := reg.All();
    ghost var log := RoundLog(api.store, all, xs);
    for i := 0 to |all|
      invariant api.store == StoreBefore(old(api.store), xs, i) && api.sent == old(api.sent)
      invariant metrics.guard == GaugeAfter(old(metrics.guard), log[..i])
    {
      ProbeInstance(all[i], api, metrics, xs[i]);
      assert log[..i + 1][..i] == log[..i];
    }
    assert log[..|log|] == log;
  }

  /** The store that the rounds of a run leave behind. */
  function RunStore(store: Store, rounds: seq<seq<Surroundings>>): Store {
    if rounds == [] then store
    else
      var xs := rounds[|rounds| - 1];
      StoreBefore(RunStore(store, rounds[..|rounds| - 1]), xs, |xs|)
  }

  /** All findings of a run, one round after the other. */
  function RunLog(store: Store, insts: seq<Instance>, rounds: seq<seq<Surroundings>>): seq<Finding>
    requires forall r :: 0 <= r < |rounds| ==> |rounds[r]| == |insts|
  {
    if rounds == [] then []
    else
      var front := rounds[..|rounds| - 1];
      RunLog(store, insts, front) + RoundLog(RunStore(store, front), insts, rounds[|rounds| - 1])
  }

  lemma RunMore(store: Store, insts: seq<Instance>, rounds: seq<seq<Surroundings>>, t: nat, gauge: map<string, bool>)
    requires t < |rounds| && forall r :: 0 <= r < |rounds| ==> |rounds[r]| == |insts|
    ensures RunStore(store, rounds[..t + 1]) == StoreBefore(RunStore(store, rounds[..t]), rounds[t], |rounds[t]|)
    ensures GaugeAfter(gauge, RunLog(store, insts, rounds[..t + 1])) ==
            GaugeAfter(GaugeAfter(gauge, RunLog(store, insts, rounds[..t])),
                       RoundLog(RunStore(store, rounds[..t]), insts, rounds[t]))
  {
    assert rounds[..t + 1][..t] == rounds[..t];
    GaugeAppend(gauge, RunLog(store, insts, rounds[..t]), RoundLog(RunStore(store, rounds[..t]), insts, rounds[t]));
  }

  lemma {:induction false} GaugeAppend(gauge: map<string, bool>, a: seq<Finding>, b: seq<Finding>)
    ensures GaugeAfter(gauge, a + b) == GaugeAfter(GaugeAfter(gauge, a), b)
  {
    if b == [] {
      assert a + b == a;
    } else {
      GaugeAppend(gauge, a, b[..|b| - 1]);
      assert (a + b)[..|a + b| - 1] == a + b[..|b| - 1];
    }
  }

  /** Round t, after those before it. */
  method ProbeNext(reg: Registry, api: Clusters, metrics: Metrics, rounds: seq<seq<Surroundings>>, t: nat,
                   ghost store: Store, ghost gauge: map<string, bool>, ghost insts: seq<Instance>)
    requires reg.Valid() && insts == AllOf(reg.instances, reg.order)
    requires t < |rounds| && forall r :: 0 <= r < |rounds| ==> |rounds[r]| == |insts|
    requires api.store == RunStore(store, rounds[..t])
    requires metrics.guard == GaugeAfter(gauge, RunLog(store, insts, rounds[..t]))
    modifies api, metrics`guard
    ensures api.sent == old(api.sent) && api.store == RunStore(store, rounds[..t + 1])
    ensures metrics.guard == GaugeAfter(gauge, RunLog(store, insts, rounds[..t + 1]))
  {
    RunMore(store, insts, rounds, t, gauge);
    ProbeRound(reg, api, metrics, rounds[t]);
  }

  /** One round at once, then one for each tick until the context ends. */
  method ProbeWriteGuards(reg: Registry, api: Clusters, metrics: Metrics, rounds: seq<seq<Surroundings>>)
    requires reg.Valid() && |rounds| > 0
    requires forall r :: 0 <= r < |rounds| ==> |rounds[r]| == |AllOf(reg.instances, reg.order)|
    modifies api, metrics`guard
    ensures api.sent == old(api.sent) && api.store == RunStore(old(api.store), rounds)
    ensures metrics.guard ==
            GaugeAfter(old(metrics.guard), RunLog(old(api.store), AllOf(reg.instances, reg.order), rounds))
  {
    ghost var insts := AllOf(reg.instances, reg.order);
    assert rounds[..0] == [];
    ProbeNext(reg, api, metrics, rounds, 0, old(api.store), old(metrics.guard), insts);
    for t := 1 to |rounds|
      invariant api.store == RunStore(old(api.store), rounds[..t]) && api.sent == old(api.sent)
      invariant metrics.guard == GaugeAfter(old(metrics.guard), RunLog(old(api.store), insts, rounds[..t]))
    {
      ProbeNext(reg, api, metrics, rounds, t, old(api.store), old(metrics.guard), insts);
    }
    assert rounds[..|rounds|] == rounds;
  }

  /** After a round every configured instance shows what its own probe found. */
  lemma RoundTells(gauge: map<string, bool>, store: Store, instances: map<string, Instance>, order: seq<string>,
                   defaultName: string, insts: seq<Instance>, xs: seq<Surroundings>, log: seq<Finding>, i: nat)
    requires ValidRegistry(instances, order, defaultName) && insts == AllOf(instances, order)
    requires |xs| == |insts| && log == RoundLog(store, insts, xs) && i < |insts|
    ensures Reading(GaugeAfter(gauge, log), insts[i].name) ==
            Sample(Conclusion(StoreBefore(store, xs, i + 1), insts[i], xs[i]))
  {
    RoundLatest(store, instances, order, defaultName, insts, xs, i);
    GaugeShowsLatest(gauge, log, i);
  }

  /** In terms of what each probe met: no sample when its list failed or was empty or its dry run ended in any error
    * but a refusal, and otherwise 1 exactly when the dry run was refused. */
  lemma RoundShows(gauge: map<string, bool>, store: Store, instances: map<string, Instance>, order: seq<string>,
                   defaultName: string, insts: seq<Instance>, xs: seq<Surroundings>, log: seq<Finding>, i: nat)
    requires ValidRegistry(instances, order, defaultName) && insts == AllOf(instances, order)
    requires |xs| == |insts| && log == RoundLog(store, insts, xs) && i < |insts|
    ensures var shown, met := Reading(GaugeAfter(gauge, log), insts[i].name), StoreBefore(store, xs, i + 1);
            if !Listed(xs[i]) then shown == None
            else
              var answer := ProbeAnswer(met, insts[i], xs[i]);
              shown == if answer in {None, Some(PolicyDenied), Some(Forbidden)} then Some(answer.Some?) else None
    ensures xs[i].fate.Dropped? && xs[i].fate.cause !in {PolicyDenied, Forbidden} ==>
              Reading(GaugeAfter(gauge, log), insts[i].name) == None
  {
    RoundTells(gauge, store, instances, order, defaultName, insts, xs, log, i);
    ConclusionSays(StoreBefore(store, xs, i + 1), insts[i], xs[i]);
  }

  /** Each instance has one finding in a round, so that one is its latest. */
  lemma RoundLatest(store: Store, instances: map<string, Instance>, order: seq<string>, defaultName: string,
                    insts: seq<Instance>, xs: seq<Surroundings>, i: nat)
    requires ValidRegistry(instances, order, defaultName) && insts == AllOf(instances, order)
    requires |xs| == |insts| && i < |insts|
    ensures Latest(RoundLog(store, insts, xs), i)
  {
    AllAscending(instances, order, defaultName);
    EachLatest(store, insts, xs, i);
  }

  lemma AllAscending(instances: map<string, Instance>, order: seq<string>, defaultName: string)
    requires ValidRegistry(instances, order, defaultName)
    ensures var insts := AllOf(instances, order);
            forall i, j :: 0 <= i < j < |insts| ==> Sorting.StringLess(insts[i].name, insts[j].name)
  {
    AllExact(instances, order, defaultName);
  }

  /** If that probe was conclusive and not of the probe's own project, the instance shows whether the application
    * probed is protected. */
  lemma RoundProtects(gauge: map<string, bool>, store: Store, instances: map<string, Instance>, order: seq<string>,
                      defaultName: string, insts: seq<Instance>, xs: seq<Surroundings>, log: seq<Finding>, i: nat,
                      met: Store)
    requires ValidRegistry(instances, order, defaultName) && insts == AllOf(instances, order)
    requires |xs| == |insts| && log == RoundLog(store, insts, xs) && i < |insts|
    requires met == StoreBefore(store, xs, i + 1)
    requires Conclusive(met, insts[i], xs[i]) && !ProbesOwnProject(met, insts[i], xs[i])
    ensures var shown, k := Reading(GaugeAfter(gauge, log), insts[i].name), Target(met, insts[i], xs[i]);
            shown.Some? && (shown.value <==> Protected(met[k], xs[i].grants(k)))
  {
    RoundTells(gauge, store, instances, order, defaultName, insts, xs, log, i);
    SampleTells(met, insts[i], xs[i]);
  }

  lemma SampleTells(store: Store, inst: Instance, x: Surroundings)
    ensures Conclusive(store, inst, x) && !ProbesOwnProject(store, inst, x) ==>
              var shown, k := Sample(Conclusion(store, inst, x)), Target(store, inst, x);
              shown.Some? && (shown.value <==> Protected(store[k], x.grants(k)))
  {
    if Conclusive(store, inst, x) {
      ConclusionIsSound(store, inst, x);
    }
  }

  lemma EachLatest(store: Store, insts: seq<Instance>, xs: seq<Surroundings>, i: nat)
    requires |xs| == |insts| && i < |insts|
    requires forall i, j :: 0 <= i < j < |insts| ==> Sorting.StringLess(insts[i].name, insts[j].name)
    ensures Latest(RoundLog(store, insts, xs), i)
  {
    var log := RoundLog(store, insts, xs);
    forall j | i < j < |log| ensures log[j].instance != log[i].instance {
      Sorting.StringLessTotal(insts[i].name, insts[j].name);
    }
  }
}
