/** The admission policy that constrains what this server may write (internal/argocd/guard.go).
  *
  * The three rules are CEL expressions. They are evaluated here with the errors CEL has: selecting
  * a missing field fails, `has()` fails when an intermediate is missing, and `&&` and `||` absorb a
  * failing operand when the other one decides ("Logical Operators" in the CEL language definition).
  */
module WriteGuard {
  import opened JsonValues
  import opened Operations
  import opened Patches

  datatype Expr =
    | ObjectVar
    | OldObjectVar
    | EmptyList
    | Select(of: Expr, field: string)
    | HasField(of: Expr, field: string)
    | Not(e: Expr)
    | And(l: Expr, r: Expr)
    | Or(l: Expr, r: Expr)
    | Equal(l: Expr, r: Expr)
    | Cond(c: Expr, t: Expr, f: Expr)

  datatype Outcome = Value(j: Json) | Failed

  const TRUE := Value(Bool(true))
  const FALSE := Value(Bool(false))

  /** Equality of CEL values: numbers compare across their two shapes, at every depth. */
  predicate CelEqual(a: Json, b: Json) {
    match (a, b)
    case (Int(i), Float(f)) => i as real == f
    case (Float(f), Int(i)) => f == i as real
    case (Arr(xs), Arr(ys)) => |xs| == |ys| && forall i :: 0 <= i < |xs| ==> CelEqual(xs[i], ys[i])
    case (Obj(m), Obj(n)) => m.Keys == n.Keys && forall k :: k in m ==> CelEqual(m[k], n[k])
    case _ => a == b
  }

  lemma {:induction false} CelEqualReflexive(a: Json)
    ensures CelEqual(a, a)
  {
    match a
    case Arr(xs) =>
      forall i | 0 <= i < |xs| ensures CelEqual(xs[i], xs[i]) { CelEqualReflexive(xs[i]); }
    case Obj(m) =>
      forall k | k in m ensures CelEqual(m[k], m[k]) { CelEqualReflexive(m[k]); }
    case _ =>
  }

  /** The value with every number in it read as a real. */
  function Reals(j: Json): Json {
    match j
    case Int(i) => Float(i as real)
    case Arr(xs) => Arr(seq(|xs|, i requires 0 <= i < |xs| => Reals(xs[i])))
    case Obj(m) => Obj(map k | k in m :: Reals(m[k]))
    case _ => j
  }

  /** Two values are equal to CEL exactly when they are the same but for the shape of their numbers. */
  lemma {:induction false} CelEqualIff(a: Json, b: Json)
    ensures CelEqual(a, b) <==> Reals(a) == Reals(b)
  {
    match (a, b)
    case (Arr(xs), Arr(ys)) =>
      if |xs| == |ys| {
        forall i | 0 <= i < |xs| ensures CelEqual(xs[i], ys[i]) <==> Reals(xs[i]) == Reals(ys[i]) {
          CelEqualIff(xs[i], ys[i]);
        }
        ArraysAgree(xs, ys);
      } else {
        assert |Reals(a).elems| == |xs| && |Reals(b).elems| == |ys|;
      }
    case (Obj(m), Obj(n)) =>
      forall k | k in m && k in n ensures CelEqual(m[k], n[k]) <==> Reals(m[k]) == Reals(n[k]) {
        CelEqualIff(m[k], n[k]);
      }
      ObjectsAgree(m, n);
    case _ =>
  }

  lemma ArraysAgree(xs: seq<Json>, ys: seq<Json>)
    requires |xs| == |ys|
    ensures Reals(Arr(xs)) == Reals(Arr(ys)) <==> forall i :: 0 <= i < |xs| ==> Reals(xs[i]) == Reals(ys[i])
  {
    var rs, ts := Reals(Arr(xs)).elems, Reals(Arr(ys)).elems;
    assert forall i :: 0 <= i < |xs| ==> rs[i] == Reals(xs[i]) && ts[i] == Reals(ys[i]);
  }

  lemma ObjectsAgree(m: map<string, Json>, n: map<string, Json>)
    ensures Reals(Obj(m)) == Reals(Obj(n)) <==>
            m.Keys == n.Keys && forall k :: k in m && k in n ==> Reals(m[k]) == Reals(n[k])
  {
    var r, t := Reals(Obj(m)).members, Reals(Obj(n)).members;
    assert r.Keys == m.Keys && t.Keys == n.Keys;
    assert forall k :: k in m && k in n ==> r[k] == Reals(m[k]) && t[k] == Reals(n[k]);
  }

  /** No number in the value has the shape of a float. */
  predicate Whole(j: Json) {
    match j
    case Float(_) => false
    case Arr(xs) => forall i :: 0 <= i < |xs| ==> Whole(xs[i])
    case Obj(m) => forall k :: k in m ==> Whole(m[k])
    case _ => true
  }

  /** Values without floats are then the same altogether. */
  lemma {:induction false} RealsInjective(a: Json, b: Json)
    requires Whole(a) && Whole(b) && Reals(a) == Reals(b)
    ensures a == b
  {
    match (a, b)
    case (Arr(xs), Arr(ys)) =>
      assert |Reals(a).elems| == |xs| && |Reals(b).elems| == |ys|;
      ArraysAgree(xs, ys);
      forall i | 0 <= i < |xs| ensures xs[i] == ys[i] {
        RealsInjective(xs[i], ys[i]);
      }
    case (Obj(m), Obj(n)) =>
      ObjectsAgree(m, n);
      forall k | k in m ensures m[k] == n[k] {
        RealsInjective(m[k], n[k]);
      }
    case _ =>
  }

  function Truth(b: bool): Outcome {
    Value(Bool(b))
  }

  function Eval(e: Expr, next: Json, prev: Json): Outcome {
    match e
    case ObjectVar => Value(next)
    case OldObjectVar => Value(prev)
    case EmptyList => Value(Arr([]))
    case Select(of, field) =>
      var v := Eval(of, next, prev);
      if v.Value? && Has(v.j, field) then Value(Member(v.j, field)) else Failed
    case HasField(of, field) =>
      var v := Eval(of, next, prev);
      if v.Value? && v.j.Obj? then Truth(Has(v.j, field)) else Failed
    case Not(x) =>
      var v := Eval(x, next, prev);
      if v.Value? && v.j.Bool? then Truth(!v.j.b) else Failed
    case And(l, r) =>
      var a, b := Eval(l, next, prev), Eval(r, next, prev);
      if a == FALSE || b == FALSE then FALSE else if a == TRUE && b == TRUE then TRUE else Failed
    case Or(l, r) =>
      var a, b := Eval(l, next, prev), Eval(r, next, prev);
      if a == TRUE || b == TRUE then TRUE else if a == FALSE && b == FALSE then FALSE else Failed
    case Equal(l, r) =>
      var a, b := Eval(l, next, prev), Eval(r, next, prev);
      if a.Value? && b.Value? then Truth(CelEqual(a.j, b.j)) else Failed
    case Cond(c, t, f) =>
      var v := Eval(c, next, prev);
      if v == TRUE then Eval(t, next, prev)
      else if v == FALSE then Eval(f, next, prev)
      else Failed
  }

  // ----- The three rules -----

  /** object.spec == oldObject.spec */
  function SpecRule(): Expr {
    Equal(Select(ObjectVar, "spec"), Select(OldObjectVar, "spec"))
  }

  /** No source or sources below object.operation.sync, with a has() for every step on the way. */
  function SourceRule(): Expr {
    var op := Select(ObjectVar, "operation");
    Or(Or(Not(HasField(ObjectVar, "operation")), Not(HasField(op, "sync"))), NoSourceFields())
  }

  /** The last disjunct of the source rule, which is all that is left without the nested has(). */
  function NoSourceFields(): Expr {
    var sync := Select(Select(ObjectVar, "operation"), "sync");
    And(Not(HasField(sync, "source")), Not(HasField(sync, "sources")))
  }

  function HistoryOrEmpty(o: Expr): Expr {
    var status := Select(o, "status");
    Cond(And(HasField(o, "status"), HasField(status, "history")), Select(status, "history"), EmptyList)
  }

  function HistoryRule(): Expr {
    Equal(HistoryOrEmpty(ObjectVar), HistoryOrEmpty(OldObjectVar))
  }

  /** The rules in the order they are rendered. */
  function GuardValidations(): seq<Expr> {
    [SpecRule(), SourceRule(), HistoryRule()]
  }

  /** The policy's verdict on an update under failurePolicy Fail: an error denies like a false. */
  predicate Admits(prev: Json, next: Json) {
    forall i :: 0 <= i < |GuardValidations()| ==> Eval(GuardValidations()[i], next, prev) == TRUE
  }

  // ----- What the rules mean -----

  predicate SpecUnchanged(next: Json, prev: Json) {
    CelEqual(Member(next, "spec"), Member(prev, "spec"))
  }

  /** The queued operation names a source of its own. */
  predicate OverridesSource(o: Json) {
    var sync := Member(Member(o, "operation"), "sync");
    Has(sync, "source") || Has(sync, "sources")
  }

  /** status.history, a missing one counting as empty. */
  function HistoryOf(o: Json): Json {
    if Has(Member(o, "status"), "history") then Member(Member(o, "status"), "history") else Arr([])
  }

  predicate HistoryUnchanged(next: Json, prev: Json) {
    CelEqual(HistoryOf(next), HistoryOf(prev))
  }

  predicate ObjectWhenPresent(o: Json, k: string) {
    Has(o, k) ==> Member(o, k).Obj?
  }

  /** What the Application schema promises about the fields the rules look at. */
  predicate SchemaValid(o: Json) {
    && o.Obj?
    && Has(o, "spec")
    && ObjectWhenPresent(o, "status")
    && ObjectWhenPresent(o, "operation")
    && ObjectWhenPresent(Member(o, "operation"), "sync")
  }

  /** The spec rule fails exactly when a spec is missing; otherwise it compares the specs. */
  lemma SpecRuleExact(next: Json, prev: Json)
    ensures var v := Eval(SpecRule(), next, prev);
            && (v == Failed <==> !Has(next, "spec") || !Has(prev, "spec"))
            && (v != Failed ==> v == Truth(SpecUnchanged(next, prev)))
  {
    var l, r := Select(ObjectVar, "spec"), Select(OldObjectVar, "spec");
    assert Eval(ObjectVar, next, prev) == Value(next) && Eval(OldObjectVar, next, prev) == Value(prev);
    assert Eval(l, next, prev) == if Has(next, "spec") then Value(Member(next, "spec")) else Failed;
    assert Eval(r, next, prev) == if Has(prev, "spec") then Value(Member(prev, "spec")) else Failed;
  }

  lemma SelectTwice(o: Json, prev: Json, a: string, b: string)
    requires o.Obj?
    ensures Eval(Select(Select(ObjectVar, a), b), o, prev) ==
            if Has(Member(o, a), b) then Value(Member(Member(o, a), b)) else Failed
    ensures Eval(HasField(Select(ObjectVar, a), b), o, prev) ==
            if Member(o, a).Obj? then Truth(Has(Member(o, a), b)) else Failed
  {
    assert Eval(Select(ObjectVar, a), o, prev) == if Has(o, a) then Value(Member(o, a)) else Failed;
  }

  /** Without the nested has() the rule fails on every operation that carries no sync, and on every idle object. */
  lemma BareSourceRuleExact(next: Json, prev: Json)
    requires next.Obj?
    ensures var v := Eval(NoSourceFields(), next, prev);
            && (v == Failed <==> !Member(Member(next, "operation"), "sync").Obj?)
            && (v != Failed ==> v == Truth(!OverridesSource(next)))
  {
    var sync := Select(Select(ObjectVar, "operation"), "sync");
    SelectTwice(next, prev, "operation", "sync");
    var s := Member(Member(next, "operation"), "sync");
    assert Eval(HasField(sync, "source"), next, prev) == if s.Obj? then Truth(Has(s, "source")) else Failed;
    assert Eval(HasField(sync, "sources"), next, prev) == if s.Obj? then Truth(Has(s, "sources")) else Failed;
  }

  /** The source rule as written fails exactly on an operation, or a sync in it, that is not an object. */
  lemma SourceRuleExact(next: Json, prev: Json)
    requires next.Obj?
    ensures var v := Eval(SourceRule(), next, prev);
            && (v == Failed <==>
                !ObjectWhenPresent(next, "operation") || !ObjectWhenPresent(Member(next, "operation"), "sync"))
            && (v != Failed ==> v == Truth(!OverridesSource(next)))
  {
    BareSourceRuleExact(next, prev);
    SelectTwice(next, prev, "operation", "sync");
    var hasOp, hasSync := HasField(ObjectVar, "operation"), HasField(Select(ObjectVar, "operation"), "sync");
    assert Eval(ObjectVar, next, prev) == Value(next);
    assert Eval(hasOp, next, prev) == Truth(Has(next, "operation"));
    assert Eval(Not(hasOp), next, prev) == Truth(!Has(next, "operation"));
    assert Eval(Not(hasSync), next, prev) ==
           if Member(next, "operation").Obj? then Truth(!Has(Member(next, "operation"), "sync")) else Failed;
    assert Eval(SourceRule(), next, prev) ==
           Eval(Or(Or(Not(hasOp), Not(hasSync)), NoSourceFields()), next, prev);
  }

  lemma HasHistoryExact(o: Expr, x: Json, next: Json, prev: Json)
    requires x.Obj? && Eval(o, next, prev) == Value(x)
    ensures Eval(And(HasField(o, "status"), HasField(Select(o, "status"), "history")), next, prev) ==
            if !ObjectWhenPresent(x, "status") then Failed else Truth(Has(Member(x, "status"), "history"))
  {
    var status := Select(o, "status");
    assert Eval(status, next, prev) == if Has(x, "status") then Value(Member(x, "status")) else Failed;
    assert Eval(HasField(o, "status"), next, prev) == Truth(Has(x, "status"));
    assert Eval(HasField(status, "history"), next, prev) ==
           if Member(x, "status").Obj? then Truth(Has(Member(x, "status"), "history")) else Failed;
  }

  lemma SelectHistoryExact(o: Expr, x: Json, next: Json, prev: Json)
    requires x.Obj? && Eval(o, next, prev) == Value(x)
    ensures Has(Member(x, "status"), "history") ==>
              Eval(Select(Select(o, "status"), "history"), next, prev) == Value(Member(Member(x, "status"), "history"))
  {
    var status := Select(o, "status");
    assert Eval(status, next, prev) == if Has(x, "status") then Value(Member(x, "status")) else Failed;
  }

  lemma HistoryOperandExact(o: Expr, x: Json, next: Json, prev: Json)
    requires x.Obj? && Eval(o, next, prev) == Value(x)
    ensures var v := Eval(HistoryOrEmpty(o), next, prev);
            && (v == Failed <==> !ObjectWhenPresent(x, "status"))
            && (v != Failed ==> v == Value(HistoryOf(x)))
  {
    HasHistoryExact(o, x, next, prev);
    SelectHistoryExact(o, x, next, prev);
  }

  /** The history rule fails exactly when a status is not an object; otherwise it compares the histories. */
  lemma HistoryRuleExact(next: Json, prev: Json)
    requires next.Obj? && prev.Obj?
    ensures var v := Eval(HistoryRule(), next, prev);
            && (v == Failed <==> !ObjectWhenPresent(next, "status") || !ObjectWhenPresent(prev, "status"))
            && (v != Failed ==> v == Truth(HistoryUnchanged(next, prev)))
  {
    HistoryOperandExact(ObjectVar, next, next, prev);
    HistoryOperandExact(OldObjectVar, prev, next, prev);
  }

  /** On schema-valid objects no rule ever fails, and the policy is the conjunction of the plain predicates. */
  lemma GuardTotal(next: Json, prev: Json)
    requires SchemaValid(next) && SchemaValid(prev)
    ensures forall i :: 0 <= i < |GuardValidations()| ==> Eval(GuardValidations()[i], next, prev).Value?
    ensures Admits(prev, next) <==>
            SpecUnchanged(next, prev) && !OverridesSource(next) && HistoryUnchanged(next, prev)
  {
    SpecRuleExact(next, prev);
    SourceRuleExact(next, prev);
    HistoryRuleExact(next, prev);
    var g := GuardValidations();
    assert g[0] == SpecRule() && g[1] == SourceRule() && g[2] == HistoryRule();
    if Admits(prev, next) {
      assert Eval(g[0], next, prev) == TRUE && Eval(g[1], next, prev) == TRUE
             && Eval(g[2], next, prev) == TRUE;
    }
  }

  /** On any two values whatever, an admitted update redirects nothing. */
  lemma AdmittedIsHarmless(prev: Json, next: Json)
    requires Admits(prev, next)
    ensures SpecUnchanged(next, prev) && !OverridesSource(next) && HistoryUnchanged(next, prev)
  {
    var g := GuardValidations();
    assert g[0] == SpecRule() && g[1] == SourceRule() && g[2] == HistoryRule();
    assert Eval(g[0], next, prev) == TRUE && Eval(g[1], next, prev) == TRUE && Eval(g[2], next, prev) == TRUE;
    SpecRuleExact(next, prev);
    SourceRuleExact(next, prev);
    HistoryRuleExact(next, prev);
  }

  /** The value at a path with its numbers read as reals, or what stands for a missing one. */
  function RealsAt(o: Json, path: seq<string>, missing: Json): Json {
    Reals(if At(o, path).Some? then At(o, path).value else missing)
  }

  /** The policy in the terms of the two objects: the spec and the history stay the same, but for the shape of their
    * numbers, and the operation has neither a source nor sources. */
  lemma AdmitsExact(prev: Json, next: Json)
    requires SchemaValid(prev) && SchemaValid(next)
    ensures Admits(prev, next) <==>
            && RealsAt(next, ["spec"], Null) == RealsAt(prev, ["spec"], Null)
            && RealsAt(next, ["status", "history"], Arr([])) == RealsAt(prev, ["status", "history"], Arr([]))
            && At(next, ["operation", "sync", "source"]) == None && At(next, ["operation", "sync", "sources"]) == None
  {
    GuardTotal(next, prev);
    AtOne(next, "spec"); AtOne(prev, "spec");
    AtTwo(next, "status", "history"); AtTwo(prev, "status", "history");
    AtThree(next, "operation", "sync", "source"); AtThree(next, "operation", "sync", "sources");
    CelEqualIff(Member(next, "spec"), Member(prev, "spec"));
    CelEqualIff(HistoryOf(next), HistoryOf(prev));
  }

  /** Without floats in either, an admitted update leaves the spec and the history exactly as they were. */
  lemma AdmittedChangesNothing(prev: Json, next: Json)
    requires Admits(prev, next) && Whole(Member(prev, "spec")) && Whole(Member(next, "spec"))
    requires Whole(HistoryOf(prev)) && Whole(HistoryOf(next))
    ensures Member(next, "spec") == Member(prev, "spec") && HistoryOf(next) == HistoryOf(prev)
  {
    AdmittedIsHarmless(prev, next);
    CelEqualIff(Member(next, "spec"), Member(prev, "spec"));
    CelEqualIff(HistoryOf(next), HistoryOf(prev));
    RealsInjective(Member(next, "spec"), Member(prev, "spec"));
    RealsInjective(HistoryOf(next), HistoryOf(prev));
  }

  // ----- Which tool patches are admitted -----

  /** An operation as SyncPatch builds it: an object whose sync is an object. */
  predicate WellShaped(p: ToolPatch) {
    p.Operation? ==> p.op.Obj? && Member(p.op, "sync").Obj?
  }

  /** No tool patch can change the spec or the history, on any object, guarded or not. */
  lemma ToolPatchKeepsSpecAndHistory(live: Json, p: ToolPatch)
    ensures Member(Apply(live, p), "spec") == Member(live, "spec")
    ensures Has(Apply(live, p), "spec") <==> Has(live, "spec")
    ensures HistoryOf(Apply(live, p)) == HistoryOf(live)
    ensures SpecUnchanged(Apply(live, p), live) && HistoryUnchanged(Apply(live, p), live)
  {
    assert |"operation"| == 9 && |"metadata"| == 8 && |"status"| == 6 && |"spec"| == 4
           && |"history"| == 7 && |"operationState"| == 14;
    PatchMember(live, p, "spec");
    PatchMember(live, p, "status");
    MergeMember(Member(live, "status"), StatusPatch(), "history");
    CelEqualReflexive(Member(live, "spec"));
    CelEqualReflexive(HistoryOf(live));
  }

  lemma ToolPatchKeepsSchema(live: Json, p: ToolPatch)
    requires SchemaValid(live) && WellShaped(p)
    ensures SchemaValid(Apply(live, p))
  {
    assert |"operation"| == 9 && |"metadata"| == 8 && |"status"| == 6 && |"spec"| == 4;
    PatchMember(live, p, "spec");
    PatchMember(live, p, "status");
    PatchMember(live, p, "operation");
    if p.Operation? {
      MergeMember(Member(live, "operation"), p.op, "sync");
    }
  }

  /** With the guard in force a tool patch is admitted exactly when it leaves no source override behind. */
  lemma AdmittedIff(live: Json, p: ToolPatch)
    requires SchemaValid(live) && WellShaped(p)
    ensures Admits(live, Apply(live, p)) <==> !OverridesSource(Apply(live, p))
  {
    ToolPatchKeepsSchema(live, p);
    ToolPatchKeepsSpecAndHistory(live, p);
    GuardTotal(Apply(live, p), live);
  }

  /** A refresh or a terminate is admitted exactly when no source override is live already. */
  lemma RefreshTerminateAdmittedIff(live: Json, p: ToolPatch)
    requires SchemaValid(live) && !p.Operation?
    ensures Admits(live, Apply(live, p)) <==> !OverridesSource(live)
  {
    AdmittedIff(live, p);
    assert |"operation"| == 9 && |"metadata"| == 8 && |"status"| == 6;
    PatchMember(live, p, "operation");
  }

  lemma RequestShape(r: SyncRequest)
    ensures WellShaped(Operation(OperationJson(r)))
    ensures Has(SyncJson(r), "source") <==> r.source.Some?
    ensures Has(SyncJson(r), "sources") <==> r.sources != []
    ensures r.source.Some? ==> Member(SyncJson(r), "source") == Obj(r.source.value)
    ensures r.sources != [] ==> Member(SyncJson(r), "sources") == Arr(r.sources)
    ensures Member(OperationJson(r), "sync") == SyncJson(r)
  {
    OperationMembers(r, 0);
    SyncMembers(r, 6);
    SyncMembers(r, 7);
  }

  /** A sync or rollback is admitted exactly when neither the live operation nor the request names a source. */
  lemma RequestAdmittedIff(live: Json, r: SyncRequest)
    requires SchemaValid(live)
    ensures var p := Operation(OperationJson(r));
            Admits(live, Apply(live, p)) <==> !OverridesSource(live) && r.source.None? && r.sources == []
  {
    var p := Operation(OperationJson(r));
    RequestShape(r);
    AdmittedIff(live, p);
    PatchMember(live, p, "operation");
    var q, s := Member(live, "operation"), SyncJson(r);
    MergeMember(q, OperationJson(r), "sync");
    MergeMember(Member(q, "sync"), s, "source");
    MergeMember(Member(q, "sync"), s, "sources");
  }

  // ----- The probe -----

  const PROBE_PROJECT := "argocd-mcp-write-guard-probe"

  function SpecProbe(): Json {
    Obj(map["project" := Str(PROBE_PROJECT)])
  }

  /** A spec rewrite that must be refused; only ever sent as a dry run. */
  function GuardProbePatch(): Json {
    Obj(map["spec" := SpecProbe()])
  }

  /** The guard lets the probe through exactly on an Application of the probe's own project
    * that carries no source override. */
  lemma ProbeAdmittedIff(live: Json)
    requires SchemaValid(live)
    ensures Admits(live, MergePatch(live, GuardProbePatch())) <==>
            Member(Member(live, "spec"), "project") == Str("argocd-mcp-write-guard-probe") && !OverridesSource(live)
  {
    assert |"operation"| == 9 && |"status"| == 6 && |"spec"| == 4;
    var after := MergePatch(live, GuardProbePatch());
    MergeMember(live, GuardProbePatch(), "spec");
    MergeMember(live, GuardProbePatch(), "status");
    MergeMember(live, GuardProbePatch(), "operation");
    assert SchemaValid(after);
    GuardTotal(after, live);
    CelEqualReflexive(HistoryOf(live));
    SpecProbeChangesIff(Member(live, "spec"));
  }

  lemma CelEqualMember(a: Json, b: Json, k: string)
    ensures CelEqual(a, b) && Has(a, k) ==> Has(b, k) && CelEqual(Member(a, k), Member(b, k))
  {
  }

  lemma SpecProbeChangesIff(spec: Json)
    ensures CelEqual(MergePatch(spec, SpecProbe()), spec) <==> Member(spec, "project") == Str(PROBE_PROJECT)
  {
    var after := MergePatch(spec, SpecProbe());
    MergeMember(spec, SpecProbe(), "project");
    CelEqualMember(after, spec, "project");
    if Member(spec, "project") == Str(PROBE_PROJECT) {
      forall k ensures (Has(after, k) <==> Has(spec, k)) && Member(after, k) == Member(spec, k) {
        MergeMember(spec, SpecProbe(), k);
      }
      ObjExtensional(after, spec);
      CelEqualReflexive(spec);
    }
  }
}
