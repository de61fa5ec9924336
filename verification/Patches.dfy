/** What the three patches mean for the object they are merged into, one at a time and in any
  * interleaving (internal/argocd/operation.go, lines 41-140).
  */
module Patches {
  import opened JsonValues
  import opened Applications
  import opened Operations

  const REFRESH_NORMAL := "normal"
  const REFRESH_HARD := "hard"

  /** A patch of this server. Sync and rollback send the same kind. */
  datatype ToolPatch = Operation(op: Json) | Refresh(hard: bool) | Terminate

  function RefreshValue(hard: bool): string {
    if hard then REFRESH_HARD else REFRESH_NORMAL
  }

  function AnnotationsPatch(hard: bool): Json {
    Obj(map[ANNOTATION_REFRESH := Str(RefreshValue(hard))])
  }

  function MetadataPatch(hard: bool): Json {
    Obj(map["annotations" := AnnotationsPatch(hard)])
  }

  function PhasePatch(): Json {
    Obj(map["phase" := Str(PHASE_TERMINATING)])
  }

  function StatusPatch(): Json {
    Obj(map["operationState" := PhasePatch()])
  }

  function Body(p: ToolPatch): Json {
    match p
    case Operation(op) => Obj(map["operation" := op])
    case Refresh(hard) => Obj(map["metadata" := MetadataPatch(hard)])
    case Terminate => Obj(map["status" := StatusPatch()])
  }

  /** The top-level member a patch merges under. */
  function Key(p: ToolPatch): string {
    match p
    case Operation(_) => "operation"
    case Refresh(_) => "metadata"
    case Terminate => "status"
  }

  function Apply(o: Json, p: ToolPatch): Json {
    MergePatch(o, Body(p))
  }

  /** Every path that does not start at the patch's own member is left as it was. */
  lemma PatchFrame(o: Json, p: ToolPatch, path: seq<string>)
    requires path != [] && path[0] != Key(p)
    ensures At(Apply(o, p), path) == At(o, path)
  {
    MergeFrame(o, Body(p), path);
  }

  lemma PatchMember(o: Json, p: ToolPatch, k: string)
    ensures Apply(o, p).Obj?
    ensures Member(Apply(o, p), k) == if k == Key(p) then MergePatch(Member(o, k), Body(p).members[k]) else Member(o, k)
    ensures k != Key(p) ==> (Has(Apply(o, p), k) <==> Has(o, k))
  {
    MergeMember(o, Body(p), k);
  }

  /** Each patch writes one value: a refresh the annotation, a terminate the phase of the operation. */
  lemma PatchPaths(hard: bool)
    ensures Body(Refresh(hard)) ==
            Obj(map["metadata" := Obj(map["annotations" :=
              Obj(map["argocd.argoproj.io/refresh" := Str(if hard then "hard" else "normal")])])])
    ensures Body(Terminate) ==
            Obj(map["status" := Obj(map["operationState" := Obj(map["phase" := Str("Terminating")])])])
  {
  }

  // ----- Interleavings -----

  lemma KeysDiffer(p: ToolPatch, q: ToolPatch)
    ensures Key(p) == Key(q) <==>
            (p.Operation? && q.Operation?) || (p.Refresh? && q.Refresh?) || (p.Terminate? && q.Terminate?)
  {
    assert |"operation"| == 9 && |"metadata"| == 8 && |"status"| == 6;
  }

  /** Patches of different kinds commute on every object. */
  lemma KindsCommute(o: Json, p: ToolPatch, q: ToolPatch)
    requires Key(p) != Key(q)
    ensures Apply(Apply(o, p), q) == Apply(Apply(o, q), p)
  {
    assert Compatible(Body(p), Body(q));
    MergeCommutesIff(o, Body(p), Body(q));
  }

  /** Two refreshes commute only when they ask for the same thing: the later one wins. */
  lemma RefreshOverwrites(o: Json, first: bool, later: bool)
    ensures Apply(Apply(o, Refresh(first)), Refresh(later)) == Apply(o, Refresh(later))
  {
    var once, twice := Apply(o, Refresh(later)), Apply(Apply(o, Refresh(first)), Refresh(later));
    AnnotationOverwrites(Member(o, "metadata"), first, later);
    forall k ensures (Has(twice, k) <==> Has(once, k)) && Member(twice, k) == Member(once, k) {
      MergeMember(o, Body(Refresh(first)), k);
      MergeMember(o, Body(Refresh(later)), k);
      MergeMember(Apply(o, Refresh(first)), Body(Refresh(later)), k);
    }
    ObjExtensional(twice, once);
  }

  lemma AnnotationOverwrites(m: Json, first: bool, later: bool)
    ensures MergePatch(MergePatch(m, MetadataPatch(first)), MetadataPatch(later)) == MergePatch(m, MetadataPatch(later))
  {
    var once := MergePatch(m, MetadataPatch(later));
    var twice := MergePatch(MergePatch(m, MetadataPatch(first)), MetadataPatch(later));
    var a := Member(m, "annotations");
    var aOnce := MergePatch(a, AnnotationsPatch(later));
    var aTwice := MergePatch(MergePatch(a, AnnotationsPatch(first)), AnnotationsPatch(later));
    forall k ensures (Has(aTwice, k) <==> Has(aOnce, k)) && Member(aTwice, k) == Member(aOnce, k) {
      MergeMember(a, AnnotationsPatch(first), k);
      MergeMember(a, AnnotationsPatch(later), k);
      MergeMember(MergePatch(a, AnnotationsPatch(first)), AnnotationsPatch(later), k);
    }
    ObjExtensional(aTwice, aOnce);
    forall k ensures (Has(twice, k) <==> Has(once, k)) && Member(twice, k) == Member(once, k) {
      MergeMember(m, MetadataPatch(first), k);
      MergeMember(m, MetadataPatch(later), k);
      MergeMember(MergePatch(m, MetadataPatch(first)), MetadataPatch(later), k);
    }
    ObjExtensional(twice, once);
  }

  function ApplyAll(o: Json, ps: seq<ToolPatch>): Json {
    if ps == [] then o else Apply(ApplyAll(o, ps[..|ps| - 1]), ps[|ps| - 1])
  }

  /** All that matters of a sequence of patches. */
  datatype Summary = Summary(ops: seq<Json>, refresh: Option<bool>, terminated: bool)

  function Summarise(ps: seq<ToolPatch>): Summary {
    if ps == [] then Summary([], None, false)
    else
      var s := Summarise(ps[..|ps| - 1]);
      match ps[|ps| - 1]
      case Operation(op) => s.(ops := s.ops + [op])
      case Refresh(hard) => s.(refresh := Some(hard))
      case Terminate => s.(terminated := true)
  }

  function ApplyOps(o: Json, ops: seq<Json>): Json {
    if ops == [] then o else Apply(ApplyOps(o, ops[..|ops| - 1]), Operation(ops[|ops| - 1]))
  }

  /** The operations in their order, then one refresh, then one terminate. */
  function Settle(o: Json, s: Summary): Json {
    var o1 := ApplyOps(o, s.ops);
    var o2 := if s.refresh.Some? then Apply(o1, Refresh(s.refresh.value)) else o1;
    if s.terminated then Apply(o2, Terminate) else o2
  }

  /** The outcome of any interleaving depends only on its summary. */
  lemma {:induction false} InterleavingSettles(o: Json, ps: seq<ToolPatch>)
    ensures ApplyAll(o, ps) == Settle(o, Summarise(ps))
  {
    if ps != [] {
      var front, last := ps[..|ps| - 1], ps[|ps| - 1];
      InterleavingSettles(o, front);
      SettleStep(o, Summarise(front), last);
    }
  }

  lemma SettleStep(o: Json, s: Summary, p: ToolPatch)
    ensures Apply(Settle(o, s), p) == Settle(o,
              match p
              case Operation(op) => s.(ops := s.ops + [op])
              case Refresh(hard) => s.(refresh := Some(hard))
              case Terminate => s.(terminated := true))
  {
    var o1 := ApplyOps(o, s.ops);
    var o2 := if s.refresh.Some? then Apply(o1, Refresh(s.refresh.value)) else o1;
    KeysDiffer(p, Terminate);
    match p
    case Operation(op) =>
      assert (s.ops + [op])[..|s.ops|] == s.ops;
      if s.refresh.Some? {
        KeysDiffer(p, Refresh(s.refresh.value));
        KindsCommute(o1, Refresh(s.refresh.value), p);
      }
      KindsCommute(o2, Terminate, p);
    case Refresh(hard) =>
      KindsCommute(o2, Terminate, p);
      if s.refresh.Some? {
        RefreshOverwrites(o1, s.refresh.value, hard);
      }
    case Terminate =>
      MergeIdempotent(o2, Body(Terminate));
  }

  /** Any two sequences with the same operations in order, the same last refresh and the same
    * answer to "was one terminated" lead to the same object. */
  lemma SameSummarySameObject(o: Json, ps: seq<ToolPatch>, qs: seq<ToolPatch>)
    requires Summarise(ps) == Summarise(qs)
    ensures ApplyAll(o, ps) == ApplyAll(o, qs)
  {
    InterleavingSettles(o, ps);
    InterleavingSettles(o, qs);
  }

  // ----- The projection follows the patches -----

  /** Merging a queued operation is seen as a pending operation and nothing else. */
  lemma OperationProjects(o: Json, op: Json, parse: TimeParser)
    requires op.Obj?
    ensures Project(Apply(o, Operation(op)), parse) == Project(o, parse).(hasPendingOp := true)
  {
    assert |"operation"| == 9 && |"metadata"| == 8 && |"status"| == 6 && |"spec"| == 4;
    PatchMember(o, Operation(op), "operation");
    PatchMember(o, Operation(op), "metadata");
    PatchMember(o, Operation(op), "spec");
    PatchMember(o, Operation(op), "status");
    assert MergePatch(Member(o, "operation"), op).Obj?;
  }

  /** No annotation but the refresh one would make the annotations unreadable. */
  ghost predicate OtherAnnotationsReadable(annotations: Json) {
    forall k :: k in Members(annotations) && k != ANNOTATION_REFRESH ==>
      annotations.members[k].Str? || annotations.members[k].Null?
  }

  lemma AnnotationVisible(a: Json, hard: bool)
    ensures var m := StringMap(MergePatch(a, AnnotationsPatch(hard)));
            LookupText(m, ANNOTATION_REFRESH) == if OtherAnnotationsReadable(a) then RefreshValue(hard) else ""
  {
    var merged := MergePatch(a, AnnotationsPatch(hard));
    MergeMember(a, AnnotationsPatch(hard), ANNOTATION_REFRESH);
    forall k | k != ANNOTATION_REFRESH
      ensures (k in merged.members <==> k in Members(a)) && (k in Members(a) ==> merged.members[k] == a.members[k])
    {
      MergeMember(a, AnnotationsPatch(hard), k);
      assert Has(merged, k) <==> Has(a, k);
      assert Member(merged, k) == Member(a, k);
    }
    assert Has(merged, ANNOTATION_REFRESH) && merged.members[ANNOTATION_REFRESH] == Str(RefreshValue(hard));
    if OtherAnnotationsReadable(a) {
      assert StringValued(merged);
    } else {
      var k :| k in Members(a) && k != ANNOTATION_REFRESH && !(a.members[k].Str? || a.members[k].Null?);
      assert k in merged.members && merged.members[k] == a.members[k];
      assert !StringValued(merged);
    }
  }

  lemma RefreshLeaves(o: Json, hard: bool)
    ensures var after := Apply(o, Refresh(hard));
            && Member(after, "operation") == Member(o, "operation")
            && Member(after, "spec") == Member(o, "spec")
            && Member(after, "status") == Member(o, "status")
            && Member(after, "metadata") == MergePatch(Member(o, "metadata"), MetadataPatch(hard))
  {
    assert |"operation"| == 9 && |"metadata"| == 8 && |"status"| == 6 && |"spec"| == 4;
    PatchMember(o, Refresh(hard), "operation");
    PatchMember(o, Refresh(hard), "metadata");
    PatchMember(o, Refresh(hard), "spec");
    PatchMember(o, Refresh(hard), "status");
  }

  lemma MetadataLeaves(m: Json, hard: bool)
    ensures var after := MergePatch(m, MetadataPatch(hard));
            && Member(after, "namespace") == Member(m, "namespace")
            && Member(after, "name") == Member(m, "name")
            && Member(after, "labels") == Member(m, "labels")
            && Member(after, "annotations") == MergePatch(Member(m, "annotations"), AnnotationsPatch(hard))
  {
    assert |"annotations"| == 11 && |"namespace"| == 9 && |"name"| == 4 && |"labels"| == 6;
    MergeMember(m, MetadataPatch(hard), "annotations");
    MergeMember(m, MetadataPatch(hard), "namespace");
    MergeMember(m, MetadataPatch(hard), "name");
    MergeMember(m, MetadataPatch(hard), "labels");
  }

  /** Merging the refresh annotation changes the requested refresh and nothing else. */
  lemma RefreshProjects(o: Json, hard: bool, parse: TimeParser)
    ensures var readable := OtherAnnotationsReadable(Member(Member(o, "metadata"), "annotations"));
            Project(Apply(o, Refresh(hard)), parse) ==
            Project(o, parse).(refreshRequested := if !readable then "" else if hard then "hard" else "normal")
  {
    RefreshLeaves(o, hard);
    MetadataLeaves(Member(o, "metadata"), hard);
    AnnotationVisible(Member(Member(o, "metadata"), "annotations"), hard);
  }

  /** An operation state none of whose other fields are set. */
  function BlankOperation(): OperationState {
    OperationState("", "", None, None, "", "")
  }

  lemma PhaseOnly(os: Json, parse: TimeParser)
    ensures var os' := MergePatch(os, PhasePatch());
            os'.Obj? &&
            OperationFromMap(os', parse) ==
            (if os.Obj? then OperationFromMap(os, parse) else BlankOperation()).(phase := PHASE_TERMINATING)
  {
    assert |"phase"| == 5 && |"message"| == 7 && |"startedAt"| == 9 && |"finishedAt"| == 10
           && |"syncResult"| == 10 && |"operation"| == 9;
    MergeMember(os, PhasePatch(), "phase");
    MergeMember(os, PhasePatch(), "message");
    MergeMember(os, PhasePatch(), "startedAt");
    MergeMember(os, PhasePatch(), "finishedAt");
    MergeMember(os, PhasePatch(), "syncResult");
    MergeMember(os, PhasePatch(), "operation");
  }

  lemma TerminateLeaves(o: Json)
    ensures var after := Apply(o, Terminate);
            && Member(after, "operation") == Member(o, "operation")
            && Member(after, "metadata") == Member(o, "metadata")
            && Member(after, "spec") == Member(o, "spec")
            && Member(after, "status") == MergePatch(Member(o, "status"), StatusPatch())
  {
    assert |"operation"| == 9 && |"metadata"| == 8 && |"status"| == 6 && |"spec"| == 4;
    PatchMember(o, Terminate, "operation");
    PatchMember(o, Terminate, "metadata");
    PatchMember(o, Terminate, "spec");
    PatchMember(o, Terminate, "status");
  }

  lemma StatusLeaves(st: Json)
    ensures var after := MergePatch(st, StatusPatch());
            && Member(after, "sync") == Member(st, "sync")
            && Member(after, "health") == Member(st, "health")
            && Member(after, "reconciledAt") == Member(st, "reconciledAt")
            && Member(after, "resources") == Member(st, "resources")
            && Member(after, "history") == Member(st, "history")
            && Member(after, "conditions") == Member(st, "conditions")
            && Member(after, "operationState") == MergePatch(Member(st, "operationState"), PhasePatch())
  {
    assert |"operationState"| == 14 && |"sync"| == 4 && |"reconciledAt"| == 12 && |"resources"| == 9
           && |"history"| == 7 && |"conditions"| == 10 && |"health"| == 6;
    MergeMember(st, StatusPatch(), "operationState");
    MergeMember(st, StatusPatch(), "sync");
    MergeMember(st, StatusPatch(), "health");
    MergeMember(st, StatusPatch(), "reconciledAt");
    MergeMember(st, StatusPatch(), "resources");
    MergeMember(st, StatusPatch(), "history");
    MergeMember(st, StatusPatch(), "conditions");
  }

  /** Merging the terminate patch sets the phase, keeps the rest of the operation state, and changes nothing else. */
  lemma TerminateProjects(o: Json, parse: TimeParser)
    ensures var a := Project(o, parse);
            var os := if a.operation.Some? then a.operation.value else BlankOperation();
            Project(Apply(o, Terminate), parse) == a.(operation := Some(os.(phase := "Terminating")))
  {
    TerminateLeaves(o);
    StatusLeaves(Member(o, "status"));
    PhaseOnly(Member(Member(o, "status"), "operationState"), parse);
  }

  // ----- What the controller finds -----

  /** Nulls inside a source override are lost in the merge; nothing else of an operation is. */
  function DropSourceNulls(r: SyncRequest): SyncRequest {
    r.(source := if r.source.Some? then Some(Members(DropNulls(Obj(r.source.value)))) else None)
  }

  function DropFieldNulls(fs: seq<Field>): (gs: seq<Field>)
    ensures |gs| == |fs|
    ensures forall i :: 0 <= i < |fs| ==>
      gs[i] == Field(fs[i].key, if fs[i].value.Some? then Some(DropNulls(fs[i].value.value)) else None)
  {
    seq(|fs|, i requires 0 <= i < |fs| =>
      Field(fs[i].key, if fs[i].value.Some? then Some(DropNulls(fs[i].value.value)) else None))
  }

  lemma {:induction false} DropBuilt(fs: seq<Field>)
    requires forall i :: 0 <= i < |fs| && fs[i].value.Some? ==> !fs[i].value.value.Null?
    ensures DropNulls(Obj(Build(fs))) == Obj(Build(DropFieldNulls(fs)))
    ensures forall k :: k in Build(fs) ==> !Build(fs)[k].Null?
  {
    if fs != [] {
      var front := fs[..|fs| - 1];
      DropBuilt(front);
      assert DropFieldNulls(fs)[..|fs| - 1] == DropFieldNulls(front);
      assert DropNulls(Obj(Build(fs))).members == Build(DropFieldNulls(fs));
    }
  }

  lemma StrategyDrops(r: SyncRequest)
    ensures DropNulls(ApplyJson(r.force)) == ApplyJson(r.force)
    ensures DropNulls(HookJson()) == HookJson()
  {
    var apply := Obj(if r.force then map["force" := Bool(true)] else map[]);
    forall k | k in apply.members ensures !apply.members[k].Null? && NoNulls(apply.members[k]) {
      assert r.force && apply.members[k] == Bool(true);
    }
    assert ApplyJson(r.force).members["apply"] == apply;
    DropNullsFixpoint(ApplyJson(r.force));
    assert NoNulls(Obj(map[]));
    assert NoNulls(HookJson());
    DropNullsFixpoint(HookJson());
  }

  /** Of the members of `sync` only the source can hold a null member. */
  lemma SyncFieldDrops(r: SyncRequest, i: nat)
    requires i < 8
    ensures SyncFields(DropSourceNulls(r))[i].key == SyncFields(r)[i].key
    ensures SyncFields(DropSourceNulls(r))[i].value ==
            if SyncFields(r)[i].value.Some? then Some(DropNulls(SyncFields(r)[i].value.value)) else None
  {
    if i == 5 {
      StrategyDrops(r);
    }
  }

  lemma SyncDrops(r: SyncRequest)
    ensures DropNulls(SyncJson(r)) == SyncJson(DropSourceNulls(r))
  {
    var fs, gs := SyncFields(r), SyncFields(DropSourceNulls(r));
    forall i | 0 <= i < |fs| ensures gs[i] == DropFieldNulls(fs)[i] {
      SyncFieldDrops(r, i);
    }
    assert gs == DropFieldNulls(fs);
    DropBuilt(fs);
  }

  lemma RetryDrops(limit: int)
    ensures DropNulls(RetryJson(limit)) == RetryJson(limit)
  {
    var backoff := Obj(map["duration" := Str("5s"), "factor" := Int(2), "maxDuration" := Str("3m")]);
    assert NoNulls(backoff);
    var retry := RetryJson(limit);
    forall k | k in retry.members ensures !retry.members[k].Null? && NoNulls(retry.members[k]) {
      assert retry.members[k] == Int(limit) || retry.members[k] == backoff;
    }
    DropNullsFixpoint(retry);
  }

  lemma OperationFieldDrops(r: SyncRequest, i: nat)
    requires i < 4
    ensures OperationFields(DropSourceNulls(r))[i].key == OperationFields(r)[i].key
    ensures OperationFields(DropSourceNulls(r))[i].value ==
            if OperationFields(r)[i].value.Some? then Some(DropNulls(OperationFields(r)[i].value.value)) else None
  {
    if i == 0 {
      SyncDrops(r);
    } else if i == 1 {
      DropNullsFixpoint(UserJson(InitiatorOf(r)));
    } else if i == 3 {
      RetryDrops(r.retryLimit);
    }
  }

  lemma OperationDrops(r: SyncRequest)
    ensures DropNulls(OperationJson(r)) == OperationJson(DropSourceNulls(r))
  {
    var fs, gs := OperationFields(r), OperationFields(DropSourceNulls(r));
    forall i | 0 <= i < |fs| ensures gs[i] == DropFieldNulls(fs)[i] {
      OperationFieldDrops(r, i);
    }
    assert gs == DropFieldNulls(fs);
    DropBuilt(fs);
  }

  /** An operation merged into an idle application is stored and read back as it was requested. */
  lemma ControllerReadsRequest(live: Json, r: SyncRequest)
    requires Acceptable(r) && !Member(live, "operation").Obj?
    ensures var after := Apply(live, Operation(OperationJson(r)));
            && Member(after, "operation") == DropNulls(OperationJson(r))
            && DecodeOperation(Member(after, "operation")) == Normalise(DropSourceNulls(r))
            && (r.source.None? ==> DecodeOperation(Member(after, "operation")) == Normalise(r))
  {
    PatchMember(live, Operation(OperationJson(r)), "operation");
    MergeIntoNothing(Member(live, "operation"), OperationJson(r));
    OperationDrops(r);
    SyncRoundTrip(DropSourceNulls(r));
  }

  /** Over an operation that is already there the stored operation is the requested one exactly when
    * the request covers it; the condition is on the live operation, before the patch is sent. */
  lemma QueuedOperationReplacedIff(live: Json, op: Json)
    ensures Member(Apply(live, Operation(op)), "operation") == DropNulls(op) <==> Covers(op, Member(live, "operation"))
  {
    PatchMember(live, Operation(op), "operation");
    MergeReplacesIff(Member(live, "operation"), op);
  }

  function SourceJson(source: Option<map<string, Json>>): Json {
    if source.Some? then Obj(source.value) else Null
  }

  /** What a request leaves of an operation that is already queued, as it is read back: the revision and the
    * initiator of the request; flags of either; lists, retry limit and reason of the request where it gives any;
    * a strategy that is apply as soon as one of them says so; a source merged into the queued one. */
  function Overlay(queued: SyncRequest, q: SyncRequest): SyncRequest {
    SyncRequest(
      q.revision, queued.prune || q.prune, queued.dryRun || q.dryRun,
      if q.syncOptions != [] then q.syncOptions else queued.syncOptions,
      if q.resources != [] then q.resources else queued.resources,
      if STRATEGY_APPLY in {q.strategy, queued.strategy} then STRATEGY_APPLY
      else if STRATEGY_HOOK in {q.strategy, queued.strategy} then STRATEGY_HOOK else "",
      queued.force || q.force,
      if q.retryLimit > 0 then q.retryLimit else queued.retryLimit,
      InitiatorOf(q),
      if q.reason != "" then q.reason else queued.reason,
      if q.source.Some? then Some(Members(MergePatch(SourceJson(queued.source), Obj(q.source.value))))
      else queued.source,
      if q.sources != [] then q.sources else queued.sources)
  }

  lemma SyncOverlay(sync: Json, q: SyncRequest, i: nat)
    requires i < 8
    ensures var f := SyncFields(q)[i];
            Member(MergePatch(sync, SyncJson(q)), f.key) ==
            if f.value.Some? then MergePatch(Member(sync, f.key), f.value.value) else Member(sync, f.key)
  {
    SyncMembers(q, i);
    MergeMember(sync, SyncJson(q), SyncFields(q)[i].key);
  }

  lemma OperationOverlay(op: Json, q: SyncRequest, i: nat)
    requires i < 4
    ensures var f := OperationFields(q)[i];
            Member(MergePatch(op, OperationJson(q)), f.key) ==
            if f.value.Some? then MergePatch(Member(op, f.key), f.value.value) else Member(op, f.key)
  {
    OperationKeysDistinct(q);
    BuildMember(OperationFields(q), i);
    MergeMember(op, OperationJson(q), OperationFields(q)[i].key);
  }

  lemma StrategyOverlay(st: Json, q: SyncRequest)
    requires Acceptable(q)
    ensures var after := if StrategyField(q).Some? then MergePatch(st, StrategyField(q).value) else st;
            && StrategyName(after) ==
               (if STRATEGY_APPLY in {q.strategy, StrategyName(st)} then STRATEGY_APPLY
                else if STRATEGY_HOOK in {q.strategy, StrategyName(st)} then STRATEGY_HOOK else "")
            && Flag(Member(Member(after, STRATEGY_APPLY), "force")) ==
               (Flag(Member(Member(st, STRATEGY_APPLY), "force")) || q.force)
  {
    assert |STRATEGY_APPLY| == 5 && |STRATEGY_HOOK| == 4;
    if q.strategy == STRATEGY_APPLY {
      var apply := Obj(if q.force then map["force" := Bool(true)] else map[]);
      MergeMember(st, ApplyJson(q.force), STRATEGY_APPLY);
      MergeMember(st, ApplyJson(q.force), STRATEGY_HOOK);
      assert ApplyJson(q.force).members[STRATEGY_APPLY] == apply;
      MergeMember(Member(st, STRATEGY_APPLY), apply, "force");
    } else if q.strategy == STRATEGY_HOOK {
      MergeMember(st, HookJson(), STRATEGY_APPLY);
      MergeMember(st, HookJson(), STRATEGY_HOOK);
    }
  }

  lemma SourceOverlay(source: Json, m: map<string, Json>)
    ensures MergePatch(source, Obj(m)) ==
            MergePatch(SourceJson(if source.Obj? then Some(source.members) else None), Obj(m))
  {
    if !source.Obj? {
      MergeIntoNothing(source, Obj(m));
      MergeIntoNothing(Null, Obj(m));
    }
  }

  /** The members of a merged `sync`, read back. */
  lemma SyncOverlays(sync: Json, q: SyncRequest)
    requires Acceptable(q)
    ensures var after, st := MergePatch(sync, SyncJson(q)), Member(sync, "syncStrategy");
            && Text(Member(after, "revision")) == q.revision
            && Flag(Member(after, "prune")) == (Flag(Member(sync, "prune")) || q.prune)
            && Flag(Member(after, "dryRun")) == (Flag(Member(sync, "dryRun")) || q.dryRun)
            && DecodeStrings(Elements(Member(after, "syncOptions"))) ==
               (if q.syncOptions != [] then q.syncOptions else DecodeStrings(Elements(Member(sync, "syncOptions"))))
            && DecodeResources(Elements(Member(after, "resources"))) ==
               (if q.resources != [] then q.resources else DecodeResources(Elements(Member(sync, "resources"))))
            && Member(after, "syncStrategy") ==
               (if StrategyField(q).Some? then MergePatch(st, StrategyField(q).value) else st)
            && Member(after, "source") ==
               (if q.source.Some? then MergePatch(Member(sync, "source"), Obj(q.source.value))
                else Member(sync, "source"))
            && Elements(Member(after, "sources")) ==
               (if q.sources != [] then q.sources else Elements(Member(sync, "sources")))
  {
    SyncOverlay(sync, q, 0); SyncOverlay(sync, q, 1); SyncOverlay(sync, q, 2); SyncOverlay(sync, q, 3);
    SyncOverlay(sync, q, 4); SyncOverlay(sync, q, 5); SyncOverlay(sync, q, 6); SyncOverlay(sync, q, 7);
    ListsRoundTrip(q);
  }

  /** The other members of a merged operation, read back. */
  lemma RestOverlays(op: Json, q: SyncRequest)
    ensures var after := MergePatch(op, OperationJson(q));
            && Member(after, "sync") == MergePatch(Member(op, "sync"), SyncJson(q))
            && Text(Member(Member(after, "initiatedBy"), "username")) == InitiatorOf(q)
            && DecodeReason(Member(after, "info")) ==
               (if q.reason != "" then q.reason else DecodeReason(Member(op, "info")))
            && Integer(Member(Member(after, "retry"), "limit")) ==
               (if q.retryLimit > 0 then q.retryLimit else Integer(Member(Member(op, "retry"), "limit")))
  {
    OperationOverlay(op, q, 0); OperationOverlay(op, q, 1); OperationOverlay(op, q, 2); OperationOverlay(op, q, 3);
    MergeMember(Member(op, "initiatedBy"), UserJson(InitiatorOf(q)), "username");
    MergeMember(Member(op, "retry"), RetryJson(q.retryLimit), "limit");
    SmallRoundTrips(q);
  }

  lemma SourceDecodes(source: Json, q: SyncRequest)
    ensures var queued := if source.Obj? then Some(source.members) else None;
            var after := if q.source.Some? then MergePatch(source, Obj(q.source.value)) else source;
            (if after.Obj? then Some(after.members) else None) ==
            if q.source.Some? then Some(Members(MergePatch(SourceJson(queued), Obj(q.source.value)))) else queued
  {
    if q.source.Some? {
      SourceOverlay(source, q.source.value);
    }
  }

  /** What is stored when a request lands on an operation that is already queued, whoever queued it. */
  lemma QueuedOperationOverlaid(live: Json, q: SyncRequest)
    requires Acceptable(q)
    ensures DecodeOperation(Member(Apply(live, Operation(OperationJson(q))), "operation")) ==
            Overlay(DecodeOperation(Member(live, "operation")), q)
  {
    PatchMember(live, Operation(OperationJson(q)), "operation");
    OperationOverlaid(Member(live, "operation"), q);
  }

  lemma OperationOverlaid(op: Json, q: SyncRequest)
    requires Acceptable(q)
    ensures DecodeOperation(MergePatch(op, OperationJson(q))) == Overlay(DecodeOperation(op), q)
  {
    var sync := Member(op, "sync");
    RestOverlays(op, q);
    SyncOverlays(sync, q);
    StrategyOverlay(Member(sync, "syncStrategy"), q);
    SourceDecodes(Member(sync, "source"), q);
  }

  /** In particular a flag set by an operation that is already queued survives a request that leaves it off. */
  lemma QueuedPruneSurvives(live: Json, r: SyncRequest)
    requires Acceptable(r) && !r.prune
    requires DecodeOperation(Member(live, "operation")).prune
    ensures DecodeOperation(Member(Apply(live, Operation(OperationJson(r))), "operation")).prune
  {
    QueuedOperationOverlaid(live, r);
  }
}
