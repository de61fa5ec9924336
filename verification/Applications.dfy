/** The projection of an Application object (internal/argocd/types.go). */
module Applications {
  import opened JsonValues
  import opened Sorting

  const ANNOTATION_REFRESH := "argocd.argoproj.io/refresh"
  const PHASE_RUNNING := "Running"
  const PHASE_TERMINATING := "Terminating"
  const PHASE_FAILED := "Failed"
  const PHASE_ERROR := "Error"
  const SYNC_SYNCED := "Synced"
  const HEALTH_HEALTHY := "Healthy"

  /** Timestamps are parsed by a library; the instants it yields are only compared. */
  type TimeParser = string -> Option<int>

  datatype Source = Source(repoURL: string, path: string, chart: string, targetRevision: string, ref: string)

  datatype ResourceStatus = ResourceStatus(
    group: string, version: string, kind: string, namespace: string, name: string,
    status: string, health: string, healthMessage: string,
    hook: bool, requiresPruning: bool, syncWave: int)

  datatype HistoryEntry = HistoryEntry(
    id: int, revision: string, revisions: seq<string>, deployedAt: Option<int>,
    source: Option<map<string, Json>>, sources: seq<Json>, initiatedBy: string)

  datatype Condition = Condition(kind: string, message: string)

  datatype OperationState = OperationState(
    phase: string, message: string, startedAt: Option<int>, finishedAt: Option<int>,
    revision: string, initiatedBy: string)

  datatype App = App(
    namespace: string, name: string, project: string,
    sources: seq<Source>, destServer: string, destName: string, destNamespace: string,
    autoSync: bool, selfHeal: bool, autoPrune: bool,
    syncStatus: string, syncRevision: string, healthStatus: string, healthMessage: string,
    reconciledAt: Option<int>,
    hasPendingOp: bool, operation: Option<OperationState>,
    resources: seq<ResourceStatus>, history: seq<HistoryEntry>, conditions: seq<Condition>,
    refreshRequested: string, labels: map<string, string>)

  /** Whether an operation occupies the application; a missing operation state does not. */
  predicate Running(o: Option<OperationState>) {
    o.Some? && (o.value.phase == PHASE_RUNNING || o.value.phase == PHASE_TERMINATING)
  }

  // ----- Tolerant accessors: a value of the wrong shape reads like a missing one -----

  function Text(j: Json): string {
    if j.Str? then j.s else ""
  }

  predicate Flag(j: Json) {
    j.Bool? && j.b
  }

  function Elements(j: Json): seq<Json> {
    if j.Arr? then j.elems else []
  }

  /** A float is converted by dropping its fraction, towards zero. */
  function Integer(j: Json): int {
    match j
    case Int(i) => i
    case Float(f) => if f >= 0.0 then f.Floor else -(-f).Floor
    case _ => 0
  }

  function Instant(j: Json, parse: TimeParser): Option<int> {
    if j.Str? && j.s != "" then parse(j.s) else None
  }

  /** Every member is a string, or a null that reads as the empty string. */
  predicate StringValued(j: Json) {
    j.Obj? && forall k :: k in j.members ==> j.members[k].Str? || j.members[k].Null?
  }

  /** A map with any other member reads as absent altogether. */
  function StringMap(j: Json): map<string, string> {
    if StringValued(j) then map k | k in j.members :: Text(j.members[k]) else map[]
  }

  function LookupText(m: map<string, string>, k: string): string {
    if k in m then m[k] else ""
  }

  function StringSlice(j: Json): seq<string> {
    if j.Arr? && forall i :: 0 <= i < |j.elems| ==> j.elems[i].Str?
    then seq(|j.elems|, i requires 0 <= i < |j.elems| => Text(j.elems[i]))
    else []
  }

  /** f of every object in the list, in order; other elements are skipped. */
  function Collect<T>(xs: seq<Json>, f: Json -> T): seq<T> {
    if xs == [] then []
    else Collect(xs[..|xs| - 1], f) + (if xs[|xs| - 1].Obj? then [f(xs[|xs| - 1])] else [])
  }

  // ----- The projection -----

  function SourceFromMap(m: Json): Source {
    Source(Text(Member(m, "repoURL")), Text(Member(m, "path")), Text(Member(m, "chart")),
           Text(Member(m, "targetRevision")), Text(Member(m, "ref")))
  }

  function ResourceFromMap(m: Json): ResourceStatus {
    var health := Member(m, "health");
    ResourceStatus(
      Text(Member(m, "group")), Text(Member(m, "version")), Text(Member(m, "kind")),
      Text(Member(m, "namespace")), Text(Member(m, "name")), Text(Member(m, "status")),
      Text(Member(health, "status")), Text(Member(health, "message")),
      Flag(Member(m, "hook")), Flag(Member(m, "requiresPruning")), Integer(Member(m, "syncWave")))
  }

  function HistoryFromMap(m: Json, parse: TimeParser): HistoryEntry {
    HistoryEntry(
      Integer(Member(m, "id")), Text(Member(m, "revision")), StringSlice(Member(m, "revisions")),
      Instant(Member(m, "deployedAt"), parse),
      if Member(m, "source").Obj? then Some(Members(Member(m, "source"))) else None,
      Elements(Member(m, "sources")),
      Text(Member(Member(m, "initiatedBy"), "username")))
  }

  function ConditionFromMap(m: Json): Condition {
    Condition(Text(Member(m, "type")), Text(Member(m, "message")))
  }

  function OperationFromMap(os: Json, parse: TimeParser): OperationState {
    OperationState(
      Text(Member(os, "phase")), Text(Member(os, "message")),
      Instant(Member(os, "startedAt"), parse), Instant(Member(os, "finishedAt"), parse),
      Text(Member(Member(os, "syncResult"), "revision")),
      Text(Member(Member(Member(os, "operation"), "initiatedBy"), "username")))
  }

  function SourcesOf(spec: Json): seq<Source> {
    (if Member(spec, "source").Obj? then [SourceFromMap(Member(spec, "source"))] else [])
    + Collect(Elements(Member(spec, "sources")), SourceFromMap)
  }

  function HistoryReader(parse: TimeParser): Json -> HistoryEntry {
    m => HistoryFromMap(m, parse)
  }

  /** status.history as it is written, before it is sorted. */
  function RawHistory(status: Json, parse: TimeParser): seq<HistoryEntry> {
    Collect(Elements(Member(status, "history")), HistoryReader(parse))
  }

  predicate OlderId(x: HistoryEntry, y: HistoryEntry) {
    x.id < y.id
  }

  function OperationOf(status: Json, parse: TimeParser): Option<OperationState> {
    var os := Member(status, "operationState");
    if os.Obj? then Some(OperationFromMap(os, parse)) else None
  }

  function Project(u: Json, parse: TimeParser): App {
    var metadata, spec, status := Member(u, "metadata"), Member(u, "spec"), Member(u, "status");
    var dest := Member(spec, "destination");
    var auto := Member(Member(spec, "syncPolicy"), "automated");
    App(
      Text(Member(metadata, "namespace")), Text(Member(metadata, "name")), Text(Member(spec, "project")),
      SourcesOf(spec),
      Text(Member(dest, "server")), Text(Member(dest, "name")), Text(Member(dest, "namespace")),
      auto.Obj?, Flag(Member(auto, "selfHeal")), Flag(Member(auto, "prune")),
      Text(Member(Member(status, "sync"), "status")), Text(Member(Member(status, "sync"), "revision")),
      Text(Member(Member(status, "health"), "status")), Text(Member(Member(status, "health"), "message")),
      Instant(Member(status, "reconciledAt"), parse),
      Member(u, "operation").Obj?,
      OperationOf(status, parse),
      Collect(Elements(Member(status, "resources")), ResourceFromMap),
      StableSort(RawHistory(status, parse), OlderId),
      Collect(Elements(Member(status, "conditions")), ConditionFromMap),
      LookupText(StringMap(Member(metadata, "annotations")), ANNOTATION_REFRESH),
      StringMap(Member(metadata, "labels")))
  }

  /** The append loop every list of the projection is read with. */
  method CollectLoop<T>(xs: seq<Json>, f: Json -> T) returns (out: seq<T>)
    ensures out == Collect(xs, f)
  {
    out := [];
    for i := 0 to |xs|
      invariant out == Collect(xs[..i], f)
    {
      assert xs[..i + 1][..i] == xs[..i];
      if xs[i].Obj? {
        out := out + [f(xs[i])];
      }
    }
    assert xs[..|xs|] == xs;
  }

  method ReadSources(spec: Json) returns (sources: seq<Source>)
    ensures sources == SourcesOf(spec)
  {
    sources := [];
    if Member(spec, "source").Obj? {
      sources := [SourceFromMap(Member(spec, "source"))];
    }
    var more := CollectLoop(Elements(Member(spec, "sources")), SourceFromMap);
    sources := sources + more;
  }

  /** Appends the entries as they are written, then sorts them in place. */
  method ReadHistory(status: Json, parse: TimeParser) returns (history: seq<HistoryEntry>)
    ensures history == StableSort(RawHistory(status, parse), OlderId)
  {
    var entries := CollectLoop(Elements(Member(status, "history")), HistoryReader(parse));
    var sorted := new HistoryEntry[|entries|](i requires 0 <= i < |entries| => entries[i]);
    assert sorted[..] == entries;
    SortStable(sorted, OlderId);
    history := sorted[..];
  }

  method AppFromUnstructured(u: Json, parse: TimeParser) returns (a: App)
    ensures a == Project(u, parse)
  {
    var metadata, spec, status := Member(u, "metadata"), Member(u, "spec"), Member(u, "status");
    var refresh := LookupText(StringMap(Member(metadata, "annotations")), ANNOTATION_REFRESH);
    var dest := Member(spec, "destination");
    var sources := ReadSources(spec);

    var autoSync, selfHeal, autoPrune := false, false, false;
    var auto := Member(Member(spec, "syncPolicy"), "automated");
    if auto.Obj? {
      autoSync := true;
      selfHeal := Flag(Member(auto, "selfHeal"));
      autoPrune := Flag(Member(auto, "prune"));
    }

    var resources := CollectLoop(Elements(Member(status, "resources")), ResourceFromMap);
    var history := ReadHistory(status, parse);
    var conditions := CollectLoop(Elements(Member(status, "conditions")), ConditionFromMap);

    a := App(
      Text(Member(metadata, "namespace")), Text(Member(metadata, "name")), Text(Member(spec, "project")),
      sources,
      Text(Member(dest, "server")), Text(Member(dest, "name")), Text(Member(dest, "namespace")),
      autoSync, selfHeal, autoPrune,
      Text(Member(Member(status, "sync"), "status")), Text(Member(Member(status, "sync"), "revision")),
      Text(Member(Member(status, "health"), "status")), Text(Member(Member(status, "health"), "message")),
      Instant(Member(status, "reconciledAt"), parse),
      Member(u, "operation").Obj?,
      OperationOf(status, parse), resources, history, conditions, refresh,
      StringMap(Member(metadata, "labels")));
  }

  // ----- The projection reads paths -----

  /** The string at a path of member names; anything else reads as empty. */
  function TextAt(u: Json, path: seq<string>): string {
    var v := At(u, path);
    if v.Some? then Text(v.value) else ""
  }

  predicate ObjectAt(u: Json, path: seq<string>) {
    var v := At(u, path);
    v.Some? && v.value.Obj?
  }

  lemma TwoSteps(u: Json, a: string, b: string)
    ensures TextAt(u, [a, b]) == Text(Member(Member(u, a), b))
    ensures ObjectAt(u, [a, b]) == Member(Member(u, a), b).Obj?
  {
    AtTwo(u, a, b);
  }

  lemma ThreeSteps(u: Json, a: string, b: string, c: string)
    ensures TextAt(u, [a, b, c]) == Text(Member(Member(Member(u, a), b), c))
    ensures ObjectAt(u, [a, b, c]) == Member(Member(Member(u, a), b), c).Obj?
  {
    AtThree(u, a, b, c);
  }

  predicate FlagAt(u: Json, path: seq<string>) {
    var v := At(u, path);
    v.Some? && Flag(v.value)
  }

  function ElementsAt(u: Json, path: seq<string>): seq<Json> {
    var v := At(u, path);
    if v.Some? then Elements(v.value) else []
  }

  lemma FourSteps(u: Json, a: string, b: string, c: string, d: string)
    ensures TextAt(u, [a, b, c, d]) == Text(Member(Member(Member(Member(u, a), b), c), d))
    ensures FlagAt(u, [a, b, c, d]) == Flag(Member(Member(Member(Member(u, a), b), c), d))
  {
    AtFour(u, a, b, c, d);
  }

  /** What names and places an application is read at its own path of the object, */
  lemma ProjectionReadsSpec(u: Json, parse: TimeParser)
    ensures var a := Project(u, parse);
            && a.namespace == TextAt(u, ["metadata", "namespace"]) && a.name == TextAt(u, ["metadata", "name"])
            && a.project == TextAt(u, ["spec", "project"])
            && a.destServer == TextAt(u, ["spec", "destination", "server"])
            && a.destName == TextAt(u, ["spec", "destination", "name"])
            && a.destNamespace == TextAt(u, ["spec", "destination", "namespace"])
  {
    TwoSteps(u, "metadata", "namespace");
    TwoSteps(u, "metadata", "name");
    TwoSteps(u, "spec", "project");
    ThreeSteps(u, "spec", "destination", "server");
    ThreeSteps(u, "spec", "destination", "name");
    ThreeSteps(u, "spec", "destination", "namespace");
  }

  /** what it is deployed from and how: a single source before the listed ones, in their order, */
  lemma ProjectionReadsPolicy(u: Json, parse: TimeParser)
    ensures var a := Project(u, parse);
            && a.autoSync == ObjectAt(u, ["spec", "syncPolicy", "automated"])
            && a.selfHeal == FlagAt(u, ["spec", "syncPolicy", "automated", "selfHeal"])
            && a.autoPrune == FlagAt(u, ["spec", "syncPolicy", "automated", "prune"])
            && a.sources == (if ObjectAt(u, ["spec", "source"])
                             then [SourceFromMap(At(u, ["spec", "source"]).value)] else [])
                            + Collect(ElementsAt(u, ["spec", "sources"]), SourceFromMap)
  {
    ThreeSteps(u, "spec", "syncPolicy", "automated");
    FourSteps(u, "spec", "syncPolicy", "automated", "selfHeal");
    FourSteps(u, "spec", "syncPolicy", "automated", "prune");
    AtTwo(u, "spec", "source");
    AtTwo(u, "spec", "sources");
  }

  /** the two string maps, which read as absent altogether when a value is no string, */
  lemma ProjectionReadsMaps(u: Json, parse: TimeParser)
    ensures var a := Project(u, parse);
            var labels, annotations := At(u, ["metadata", "labels"]), At(u, ["metadata", "annotations"]);
            && a.labels == (if labels.Some? then StringMap(labels.value) else map[])
            && a.refreshRequested ==
               (if annotations.Some? then LookupText(StringMap(annotations.value), "argocd.argoproj.io/refresh")
                else "")
  {
    AtTwo(u, "metadata", "labels");
    AtTwo(u, "metadata", "annotations");
  }

  function InstantAt(u: Json, path: seq<string>, parse: TimeParser): Option<int> {
    var s := TextAt(u, path);
    if s == "" then None else parse(s)
  }

  /** the state the guards and the waits look at, */
  lemma ProjectionReadsStatus(u: Json, parse: TimeParser)
    ensures var a := Project(u, parse);
            && a.syncStatus == TextAt(u, ["status", "sync", "status"])
            && a.syncRevision == TextAt(u, ["status", "sync", "revision"])
            && a.healthStatus == TextAt(u, ["status", "health", "status"])
            && a.healthMessage == TextAt(u, ["status", "health", "message"])
            && a.reconciledAt == InstantAt(u, ["status", "reconciledAt"], parse)
            && a.hasPendingOp == ObjectAt(u, ["operation"])
  {
    AtOne(u, "operation");
    ThreeSteps(u, "status", "sync", "status");
    ThreeSteps(u, "status", "sync", "revision");
    ThreeSteps(u, "status", "health", "status");
    ThreeSteps(u, "status", "health", "message");
    TwoSteps(u, "status", "reconciledAt");
  }

  /** and the state of the last operation. */
  lemma ProjectionReadsOperation(u: Json, parse: TimeParser)
    ensures var op, path := Project(u, parse).operation, ["status", "operationState"];
            && (op.Some? <==> ObjectAt(u, path))
            && (op.Some? ==>
                && op.value.phase == TextAt(u, ["status", "operationState", "phase"])
                && op.value.message == TextAt(u, ["status", "operationState", "message"])
                && op.value.startedAt == InstantAt(u, ["status", "operationState", "startedAt"], parse)
                && op.value.finishedAt == InstantAt(u, ["status", "operationState", "finishedAt"], parse)
                && op.value.revision == TextAt(u, ["status", "operationState", "syncResult", "revision"])
                && op.value.initiatedBy ==
                   TextAt(u, ["status", "operationState", "operation", "initiatedBy", "username"]))
  {
    var rest := ["operationState", "operation", "initiatedBy", "username"];
    TwoSteps(u, "status", "operationState");
    ThreeSteps(u, "status", "operationState", "phase");
    ThreeSteps(u, "status", "operationState", "message");
    ThreeSteps(u, "status", "operationState", "startedAt");
    ThreeSteps(u, "status", "operationState", "finishedAt");
    FourSteps(u, "status", "operationState", "syncResult", "revision");
    FourSteps(Member(u, "status"), "operationState", "operation", "initiatedBy", "username");
    assert ["status", "operationState", "operation", "initiatedBy", "username"][1..] == rest;
    assert Has(u, "status") ==> TextAt(Member(u, "status"), rest) == TextAt(u, ["status"] + rest);
    assert ["status"] + rest == ["status", "operationState", "operation", "initiatedBy", "username"];
  }

  /** The lists hold what is read from each map-shaped element, in order; CollectExact says where each one goes. */
  lemma ProjectionReadsLists(u: Json, parse: TimeParser)
    ensures var a := Project(u, parse);
            && a.resources == Collect(ElementsAt(u, ["status", "resources"]), ResourceFromMap)
            && a.conditions == Collect(ElementsAt(u, ["status", "conditions"]), ConditionFromMap)
            && multiset(a.history) == multiset(Collect(ElementsAt(u, ["status", "history"]), HistoryReader(parse)))
  {
    AtTwo(u, "status", "resources");
    AtTwo(u, "status", "conditions");
    AtTwo(u, "status", "history");
    StableSortPermutes(RawHistory(Member(u, "status"), parse), OlderId);
  }

  /** Each object in the list lands behind what was collected before it; nothing else is collected. */
  lemma {:induction false} CollectExact<T>(xs: seq<Json>, f: Json -> T, i: nat)
    requires i < |xs|
    ensures var at := |Collect(xs[..i], f)|;
            && |Collect(xs[..i + 1], f)| == (if xs[i].Obj? then at + 1 else at) <= |Collect(xs, f)|
            && (xs[i].Obj? ==> Collect(xs, f)[at] == f(xs[i]))
  {
    assert xs[..i + 1][..i] == xs[..i];
    if i == |xs| - 1 {
      assert xs[..i + 1] == xs;
    } else {
      var front := xs[..|xs| - 1];
      CollectExact(front, f, i);
      assert front[..i] == xs[..i] && front[..i + 1] == xs[..i + 1];
    }
  }

  lemma OneStep(m: Json, a: string)
    ensures TextAt(m, [a]) == Text(Member(m, a)) && FlagAt(m, [a]) == Flag(Member(m, a))
    ensures ObjectAt(m, [a]) == Member(m, a).Obj? && ElementsAt(m, [a]) == Elements(Member(m, a))
  {
    AtOne(m, a);
  }

  /** What is read of a source, */
  lemma SourceReads(m: Json)
    ensures var s := SourceFromMap(m);
            && s.repoURL == TextAt(m, ["repoURL"]) && s.path == TextAt(m, ["path"]) && s.chart == TextAt(m, ["chart"])
            && s.targetRevision == TextAt(m, ["targetRevision"]) && s.ref == TextAt(m, ["ref"])
  {
    OneStep(m, "repoURL"); OneStep(m, "path"); OneStep(m, "chart"); OneStep(m, "targetRevision"); OneStep(m, "ref");
  }

  /** of a history entry, */
  lemma EntryReads(m: Json, parse: TimeParser)
    ensures var e := HistoryFromMap(m, parse);
            && e.id == (if At(m, ["id"]).Some? then Integer(At(m, ["id"]).value) else 0)
            && e.revision == TextAt(m, ["revision"])
            && e.revisions == (if At(m, ["revisions"]).Some? then StringSlice(At(m, ["revisions"]).value) else [])
            && e.deployedAt == InstantAt(m, ["deployedAt"], parse)
            && e.initiatedBy == TextAt(m, ["initiatedBy", "username"])
            && e.source == (if ObjectAt(m, ["source"]) then Some(At(m, ["source"]).value.members) else None)
            && e.sources == ElementsAt(m, ["sources"])
  {
    AtOne(m, "id"); AtOne(m, "revisions"); AtOne(m, "source");
    OneStep(m, "revision"); OneStep(m, "deployedAt"); OneStep(m, "sources");
    TwoSteps(m, "initiatedBy", "username");
  }

  /** of a resource and of a condition. */
  lemma ResourceReads(m: Json)
    ensures var r := ResourceFromMap(m);
            && r.group == TextAt(m, ["group"]) && r.version == TextAt(m, ["version"]) && r.kind == TextAt(m, ["kind"])
            && r.namespace == TextAt(m, ["namespace"]) && r.name == TextAt(m, ["name"])
            && r.status == TextAt(m, ["status"]) && r.health == TextAt(m, ["health", "status"])
            && r.healthMessage == TextAt(m, ["health", "message"])
            && r.hook == FlagAt(m, ["hook"]) && r.requiresPruning == FlagAt(m, ["requiresPruning"])
            && r.syncWave == (if At(m, ["syncWave"]).Some? then Integer(At(m, ["syncWave"]).value) else 0)
  {
    OneStep(m, "group"); OneStep(m, "version"); OneStep(m, "kind"); OneStep(m, "namespace"); OneStep(m, "name");
    OneStep(m, "status"); OneStep(m, "hook"); OneStep(m, "requiresPruning");
    TwoSteps(m, "health", "status"); TwoSteps(m, "health", "message");
    AtOne(m, "syncWave");
  }

  lemma ConditionReads(m: Json)
    ensures ConditionFromMap(m).kind == TextAt(m, ["type"]) && ConditionFromMap(m).message == TextAt(m, ["message"])
  {
    OneStep(m, "type"); OneStep(m, "message");
  }

  /** What a value of each shape reads as. A number with a fraction is cut off towards zero; a list with one element
    * that is no string, or a map with one that is neither a string nor null, reads as nothing. */
  lemma AccessorsExact(j: Json, parse: TimeParser)
    ensures Text(j) == match j case Str(s) => s case _ => ""
    ensures Flag(j) <==> j == Bool(true)
    ensures Elements(j) == match j case Arr(xs) => xs case _ => []
    ensures Instant(j, parse) == match j case Str(s) => (if s == "" then None else parse(s)) case _ => None
    ensures j.Int? ==> Integer(j) == j.i
    ensures j.Float? ==> var i := Integer(j) as real;
              if j.f >= 0.0 then 0.0 <= i <= j.f < i + 1.0 else i - 1.0 < j.f <= i <= 0.0
    ensures !j.Int? && !j.Float? ==> Integer(j) == 0
    ensures var fits := j.Obj? && forall k :: k in j.members ==> j.members[k].Str? || j.members[k].Null?;
            && (forall k :: k in StringMap(j) <==> fits && k in j.members)
            && (forall k :: k in StringMap(j) ==>
                  StringMap(j)[k] == if j.members[k].Str? then j.members[k].s else "")
    ensures var fits := j.Arr? && forall i :: 0 <= i < |j.elems| ==> j.elems[i].Str?;
            && |StringSlice(j)| == (if fits then |j.elems| else 0)
            && (forall i :: 0 <= i < |StringSlice(j)| ==> j.elems[i] == Str(StringSlice(j)[i]))
  {
  }

  /** The target revision of the first source, which is the single one or else the first map-shaped one listed. */
  lemma FirstSourceReads(u: Json, parse: TimeParser)
    ensures var sources, listed := Project(u, parse).sources, ElementsAt(u, ["spec", "sources"]);
            if ObjectAt(u, ["spec", "source"]) then
              sources != [] && sources[0].targetRevision == TextAt(u, ["spec", "source", "targetRevision"])
            else
              var n := FirstObject(listed);
              if n < |listed| then sources != [] && sources[0].targetRevision == TextAt(listed[n], ["targetRevision"])
              else sources == []
  {
    AtTwo(u, "spec", "source");
    AtTwo(u, "spec", "sources");
    ThreeSteps(u, "spec", "source", "targetRevision");
    var listed := ElementsAt(u, ["spec", "sources"]);
    FirstCollected(listed, SourceFromMap);
    if FirstObject(listed) < |listed| {
      OneStep(listed[FirstObject(listed)], "targetRevision");
    }
  }

  /** The position of the first object in a list, or the length. */
  function FirstObject(xs: seq<Json>): (r: nat)
    ensures r <= |xs|
    ensures r < |xs| ==> xs[r].Obj?
    ensures forall i :: 0 <= i < r ==> !xs[i].Obj?
  {
    if xs == [] || xs[0].Obj? then 0 else 1 + FirstObject(xs[1..])
  }

  lemma {:induction false} FirstCollected<T>(xs: seq<Json>, f: Json -> T)
    ensures var n := FirstObject(xs);
            if n < |xs| then Collect(xs, f) != [] && Collect(xs, f)[0] == f(xs[n]) else Collect(xs, f) == []
  {
    if xs != [] {
      assert xs == [xs[0]] + xs[1..];
      CollectCons(xs[0], xs[1..], f);
      FirstCollected(xs[1..], f);
    }
  }

  // ----- History: sorting is invisible to lookup -----

  /** The entry a scan from the front finds first. */
  function FirstWithId(h: seq<HistoryEntry>, id: int): Option<HistoryEntry> {
    if h == [] then None
    else if h[0].id == id then Some(h[0])
    else FirstWithId(h[1..], id)
  }

  lemma OlderIdOrder()
    ensures StrictWeakOrder(OlderId)
  {
  }

  lemma {:induction false} FirstOfClass(h: seq<HistoryEntry>, x: HistoryEntry)
    ensures FirstWithId(h, x.id) == if Class(h, x, OlderId) == [] then None else Some(Class(h, x, OlderId)[0])
    decreases |h|
  {
    if h != [] {
      var front, last := h[..|h| - 1], h[|h| - 1];
      FirstOfClass(front, x);
      FirstAppend(front, last, x.id);
      assert front + [last] == h;
    }
  }

  lemma {:induction false} FirstAppend(h: seq<HistoryEntry>, last: HistoryEntry, id: int)
    ensures FirstWithId(h + [last], id) ==
            if FirstWithId(h, id).Some? then FirstWithId(h, id) else if last.id == id then Some(last) else None
  {
    if h == [] {
      assert ([] + [last])[1..] == [];
    } else {
      FirstAppend(h[1..], last, id);
      assert (h + [last])[1..] == h[1..] + [last];
    }
  }

  /** Looking an id up in the sorted history finds what the raw list has first. */
  lemma LookupIgnoresSorting(h: seq<HistoryEntry>, id: int)
    ensures FirstWithId(StableSort(h, OlderId), id) == FirstWithId(h, id)
  {
    OlderIdOrder();
    var probe := HistoryEntry(id, "", [], None, None, [], "");
    StableSortClass(h, probe, OlderId);
    FirstOfClass(h, probe);
    FirstOfClass(StableSort(h, OlderId), probe);
  }

  /** The projected history is the raw entries in id order, entries of one id in their old order. */
  lemma HistoryOrdered(u: Json, parse: TimeParser)
    ensures var raw := RawHistory(Member(u, "status"), parse);
            var h := Project(u, parse).history;
            && multiset(h) == multiset(raw)
            && (forall i, j :: 0 <= i < j < |h| ==> h[i].id <= h[j].id)
            && (forall id :: FirstWithId(h, id) == FirstWithId(raw, id))
  {
    var raw := RawHistory(Member(u, "status"), parse);
    OlderIdOrder();
    StableSortPermutes(raw, OlderId);
    StableSortSorted(raw, OlderId);
    forall id ensures FirstWithId(StableSort(raw, OlderId), id) == FirstWithId(raw, id) {
      LookupIgnoresSorting(raw, id);
    }
    var h := StableSort(raw, OlderId);
    forall i, j | 0 <= i < j < |h| ensures h[i].id <= h[j].id {
      assert !OlderId(h[j], h[i]);
    }
  }

  /** The position of the first object in the raw list whose id is the one wanted, or the length. */
  function FirstRaw(raw: seq<Json>, id: int): (r: nat)
    ensures r <= |raw|
    ensures r < |raw| ==> raw[r].Obj? && Integer(Member(raw[r], "id")) == id
    ensures forall i :: 0 <= i < r ==> !(raw[i].Obj? && Integer(Member(raw[i], "id")) == id)
  {
    if raw == [] then 0
    else if raw[0].Obj? && Integer(Member(raw[0], "id")) == id then 0
    else 1 + FirstRaw(raw[1..], id)
  }

  lemma {:induction false} CollectCons<T>(x: Json, xs: seq<Json>, f: Json -> T)
    ensures Collect([x] + xs, f) == (if x.Obj? then [f(x)] else []) + Collect(xs, f)
  {
    if xs == [] {
      assert ([x] + xs)[..0] == [];
    } else {
      var front := xs[..|xs| - 1];
      CollectCons(x, front, f);
      assert ([x] + xs)[..|xs|] == [x] + front;
    }
  }

  lemma {:induction false} FirstOfCollected(raw: seq<Json>, parse: TimeParser, id: int)
    ensures FirstWithId(Collect(raw, HistoryReader(parse)), id) ==
            var r := FirstRaw(raw, id);
            if r < |raw| then Some(HistoryFromMap(raw[r], parse)) else None
  {
    if raw != [] {
      assert raw == [raw[0]] + raw[1..];
      CollectCons(raw[0], raw[1..], HistoryReader(parse));
      FirstOfCollected(raw[1..], parse, id);
      if raw[0].Obj? {
        var rest := Collect(raw[1..], HistoryReader(parse));
        assert ([HistoryFromMap(raw[0], parse)] + rest)[1..] == rest;
      } else {
        assert [] + Collect(raw[1..], HistoryReader(parse)) == Collect(raw[1..], HistoryReader(parse));
      }
    }
  }

  /** Lookup in a projected Application, read off the object itself: the first map-shaped entry with the id. */
  lemma LookupReadsRawList(u: Json, parse: TimeParser, id: int)
    ensures var raw := Elements(Member(Member(u, "status"), "history"));
            var r := FirstRaw(raw, id);
            FirstWithId(Project(u, parse).history, id) ==
            if r < |raw| then Some(HistoryFromMap(raw[r], parse)) else None
  {
    LookupIgnoresSorting(RawHistory(Member(u, "status"), parse), id);
    FirstOfCollected(Elements(Member(Member(u, "status"), "history")), parse, id);
  }

  /** The last `limit` entries (historyTable); a limit that is not positive keeps all. */
  function Tail(h: seq<HistoryEntry>, limit: int): seq<HistoryEntry> {
    if limit > 0 && |h| > limit then h[|h| - limit..] else h
  }

  lemma TailKeepsAll(h: seq<HistoryEntry>, limit: int)
    requires limit <= 0
    ensures Tail(h, limit) == h
  {
  }

  /** What the history table drops is never newer than anything it shows, and nothing is lost or reordered. */
  lemma TailKeepsNewest(u: Json, parse: TimeParser, limit: int)
    requires limit > 0
    ensures var h := Project(u, parse).history;
            var shown := Tail(h, limit);
            && |shown| == (if |h| < limit then |h| else limit)
            && h[..|h| - |shown|] + shown == h
            && forall i, j :: 0 <= i < |h| - |shown| && 0 <= j < |shown| ==> h[i].id <= shown[j].id
  {
    HistoryOrdered(u, parse);
    TailOfSorted(Project(u, parse).history, limit);
  }

  lemma TailOfSorted(h: seq<HistoryEntry>, limit: int)
    requires limit > 0
    requires forall i, j :: 0 <= i < j < |h| ==> h[i].id <= h[j].id
    ensures var shown := Tail(h, limit);
            && |shown| == (if |h| < limit then |h| else limit)
            && h[..|h| - |shown|] + shown == h
            && forall i, j :: 0 <= i < |h| - |shown| && 0 <= j < |shown| ==> h[i].id <= shown[j].id
  {
    var shown := Tail(h, limit);
    forall i, j | 0 <= i < |h| - |shown| && 0 <= j < |shown| ensures h[i].id <= shown[j].id {
      assert shown[j] == h[|h| - |shown| + j];
    }
  }
}
