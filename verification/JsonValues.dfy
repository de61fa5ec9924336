/** JSON trees and the JSON merge patch of RFC 7396, section 2.
  *
  * Every mutation of the server is one merge patch sent to the Kubernetes API
  * server, so the meaning of a tool call is the meaning of `MergePatch`.
  */
module JsonValues {

  datatype Option<+T> = None | Some(value: T)

  /** Numbers keep the two shapes the Kubernetes decoder produces. */
  datatype Json =
    | Null
    | Bool(b: bool)
    | Int(i: int)
    | Float(f: real)
    | Str(s: string)
    | Arr(elems: seq<Json>)
    | Obj(members: map<string, Json>)

  /** The members of an object; a value of another shape has none. */
  function Members(j: Json): map<string, Json> {
    if j.Obj? then j.members else map[]
  }

  predicate Has(j: Json, k: string) {
    k in Members(j)
  }

  /** The member named k, or Null when there is none. */
  function Member(j: Json, k: string): Json {
    if Has(j, k) then j.members[k] else Null
  }

  /** The value at a path of member names, when every step exists. */
  function At(j: Json, path: seq<string>): Option<Json> {
    if path == [] then Some(j)
    else if Has(j, path[0]) then At(j.members[path[0]], path[1..])
    else None
  }

  lemma AtOne(j: Json, a: string)
    ensures At(j, [a]) == if Has(j, a) then Some(Member(j, a)) else None
  {
    assert [a][1..] == [];
  }

  lemma AtTwo(j: Json, a: string, b: string)
    ensures At(j, [a, b]) == if Has(Member(j, a), b) then Some(Member(Member(j, a), b)) else None
  {
    assert [a, b][1..] == [b] && [b][1..] == [];
    assert Has(j, a) ==> At(Member(j, a), [b]) == At(j, [a, b]);
  }

  lemma AtThree(j: Json, a: string, b: string, c: string)
    ensures At(j, [a, b, c]) ==
            if Has(Member(Member(j, a), b), c) then Some(Member(Member(Member(j, a), b), c)) else None
  {
    assert [a, b, c][1..] == [b, c];
    AtTwo(Member(j, a), b, c);
  }

  lemma AtFour(j: Json, a: string, b: string, c: string, d: string)
    ensures At(j, [a, b, c, d]) ==
            var v := Member(Member(Member(j, a), b), c);
            if Has(v, d) then Some(Member(v, d)) else None
  {
    assert [a, b, c, d][1..] == [b, c, d];
    AtThree(Member(j, a), b, c, d);
  }

  /** RFC 7396, section 2. An undefined target is passed as Null: neither is an object. */
  function MergePatch(target: Json, patch: Json): Json
    decreases patch
  {
    if patch.Obj? then
      var t := Members(target);
      Obj(map k | k in t.Keys + patch.members.Keys && !(k in patch.members && patch.members[k].Null?) ::
            if k in patch.members then MergePatch(Member(target, k), patch.members[k]) else t[k])
    else patch
  }

  /** The effect of an object patch on one member. */
  lemma MergeMember(t: Json, p: Json, k: string)
    requires p.Obj?
    ensures MergePatch(t, p).Obj?
    ensures Member(MergePatch(t, p), k) == if Has(p, k) then MergePatch(Member(t, k), p.members[k]) else Member(t, k)
    ensures Has(MergePatch(t, p), k) <==> if Has(p, k) then !p.members[k].Null? else Has(t, k)
  {
  }

  /** Two objects are equal when they have the same members. */
  lemma ObjExtensional(a: Json, b: Json)
    requires a.Obj? && b.Obj?
    requires forall k :: Has(a, k) <==> Has(b, k)
    requires forall k :: Member(a, k) == Member(b, k)
    ensures a == b
  {
    assert a.members.Keys == b.members.Keys by {
      forall k ensures k in a.members.Keys <==> k in b.members.Keys {
        assert Has(a, k) <==> Has(b, k);
      }
    }
    forall k | k in a.members ensures a.members[k] == b.members[k] {
      assert Member(a, k) == Member(b, k);
    }
    assert a.members == b.members;
  }

  // ----- Frames: what a patch leaves alone, what it writes -----

  /** A patch touches a path when it replaces, removes or merges into the value there. */
  predicate Touches(p: Json, path: seq<string>)
  {
    if !p.Obj? || path == [] then true
    else Has(p, path[0]) && Touches(p.members[path[0]], path[1..])
  }

  lemma {:induction false} MergeFrame(t: Json, p: Json, path: seq<string>)
    requires !Touches(p, path)
    ensures At(MergePatch(t, p), path) == At(t, path)
    decreases |path|
  {
    var k := path[0];
    MergeMember(t, p, k);
    if Has(p, k) {
      MergeFrame(Member(t, k), p.members[k], path[1..]);
      if !Has(t, k) {
        assert At(Null, path[1..]) == None;
      }
    }
  }

  /** A value that is not an object is written as it is, or removed when it is null. */
  lemma {:induction false} MergeWrites(t: Json, p: Json, path: seq<string>)
    requires path != []
    requires At(p, path).Some? && !At(p, path).value.Obj?
    ensures At(MergePatch(t, p), path) == if At(p, path).value.Null? then None else At(p, path)
    decreases |path|
  {
    var k := path[0];
    MergeMember(t, p, k);
    if |path| > 1 {
      MergeWrites(Member(t, k), p.members[k], path[1..]);
    } else {
      assert path[1..] == [];
    }
  }

  // ----- Idempotence -----

  lemma {:induction false} MergeIdempotent(t: Json, p: Json)
    ensures MergePatch(MergePatch(t, p), p) == MergePatch(t, p)
    decreases p
  {
    if p.Obj? {
      var once := MergePatch(t, p);
      var twice := MergePatch(once, p);
      forall k ensures (Has(twice, k) <==> Has(once, k)) && Member(twice, k) == Member(once, k) {
        MergeMember(t, p, k);
        MergeMember(once, p, k);
        if Has(p, k) {
          MergeIdempotent(Member(t, k), p.members[k]);
        }
      }
      ObjExtensional(twice, once);
    }
  }

  // ----- Commutation, with its exact condition -----

  /** Where both patches name a member, they agree on it or both merge into it. */
  ghost predicate Compatible(p: Json, q: Json)
    decreases p
  {
    p == q ||
    (p.Obj? && q.Obj? &&
     forall k :: k in p.members && k in q.members ==> Compatible(p.members[k], q.members[k]))
  }

  lemma {:induction false} CompatibleCommutes(t: Json, p: Json, q: Json)
    requires Compatible(p, q)
    ensures MergePatch(MergePatch(t, p), q) == MergePatch(MergePatch(t, q), p)
    decreases p
  {
    if p != q {
      var pq := MergePatch(MergePatch(t, p), q);
      var qp := MergePatch(MergePatch(t, q), p);
      forall k ensures (Has(pq, k) <==> Has(qp, k)) && Member(pq, k) == Member(qp, k) {
        MergeMember(t, p, k);
        MergeMember(t, q, k);
        MergeMember(MergePatch(t, p), q, k);
        MergeMember(MergePatch(t, q), p, k);
        if Has(p, k) && Has(q, k) {
          CompatibleCommutes(Member(t, k), p.members[k], q.members[k]);
          NullCompatible(p.members[k], q.members[k]);
        }
      }
      ObjExtensional(pq, qp);
    }
  }

  lemma NullCompatible(p: Json, q: Json)
    requires Compatible(p, q)
    ensures p.Null? <==> q.Null?
  {
  }

  lemma {:induction false} CommutesCompatible(t: Json, p: Json, q: Json)
    requires MergePatch(MergePatch(t, p), q) == MergePatch(MergePatch(t, q), p)
    ensures Compatible(p, q)
    decreases p
  {
    if p.Obj? && q.Obj? {
      var pq := MergePatch(MergePatch(t, p), q);
      forall k | k in p.members && k in q.members ensures Compatible(p.members[k], q.members[k]) {
        MergeMember(t, p, k);
        MergeMember(t, q, k);
        MergeMember(MergePatch(t, p), q, k);
        MergeMember(MergePatch(t, q), p, k);
        CommutesCompatible(Member(t, k), p.members[k], q.members[k]);
      }
    }
  }

  /** Two merge patches commute on a target exactly when they are compatible; the target plays no part. */
  lemma MergeCommutesIff(t: Json, p: Json, q: Json)
    ensures MergePatch(MergePatch(t, p), q) == MergePatch(MergePatch(t, q), p) <==> Compatible(p, q)
  {
    if Compatible(p, q) {
      CompatibleCommutes(t, p, q);
    }
    if MergePatch(MergePatch(t, p), q) == MergePatch(MergePatch(t, q), p) {
      CommutesCompatible(t, p, q);
    }
  }

  // ----- Null removal -----

  /** Null object members dropped at every depth; array elements are not looked into. */
  function DropNulls(j: Json): Json {
    if j.Obj? then Obj(map k | k in j.members && !j.members[k].Null? :: DropNulls(j.members[k])) else j
  }

  /** No object member reachable through objects is null. */
  ghost predicate NoNulls(j: Json) {
    j.Obj? ==> forall k :: k in j.members ==> !j.members[k].Null? && NoNulls(j.members[k])
  }

  /** Merging into something that is not an object leaves the patch without its nulls. */
  lemma {:induction false} MergeIntoNothing(t: Json, p: Json)
    requires !t.Obj?
    ensures MergePatch(t, p) == DropNulls(p)
    decreases p
  {
    if p.Obj? {
      var m := MergePatch(t, p);
      forall k ensures (Has(m, k) <==> Has(DropNulls(p), k)) && Member(m, k) == Member(DropNulls(p), k) {
        MergeMember(t, p, k);
        if Has(p, k) {
          MergeIntoNothing(Member(t, k), p.members[k]);
        }
      }
      ObjExtensional(m, DropNulls(p));
    }
  }

  /** DropNulls removes every null member and is the identity exactly where there is none. */
  lemma {:induction false} DropNullsFixpoint(j: Json)
    ensures NoNulls(DropNulls(j))
    ensures DropNulls(j) == j <==> NoNulls(j)
    ensures DropNulls(j).Null? <==> j.Null?
  {
    if j.Obj? {
      var d := DropNulls(j);
      forall k | k in j.members
        ensures NoNulls(DropNulls(j.members[k]))
        ensures DropNulls(j.members[k]) == j.members[k] <==> NoNulls(j.members[k])
        ensures DropNulls(j.members[k]).Null? <==> j.members[k].Null?
      {
        DropNullsFixpoint(j.members[k]);
      }
      if NoNulls(j) {
        assert d.members.Keys == j.members.Keys;
        assert d.members == j.members;
      }
      if d == j {
        forall k | k in j.members ensures !j.members[k].Null? && NoNulls(j.members[k]) {
          assert k in d.members;
        }
      }
    }
  }

  // ----- When a merge amounts to a replacement -----

  /** Every member of the target is overwritten, removed, or covered by the patch in turn. */
  ghost predicate Covers(p: Json, t: Json)
    decreases p
  {
    p.Obj? && t.Obj? ==>
      forall k :: k in t.members ==> k in p.members && (p.members[k].Null? || Covers(p.members[k], t.members[k]))
  }

  /** A merge leaves the patch itself (without nulls) exactly when nothing of the target shows through. */
  lemma {:induction false} MergeReplacesIff(t: Json, p: Json)
    ensures MergePatch(t, p) == DropNulls(p) <==> Covers(p, t)
    decreases p
  {
    if !t.Obj? {
      MergeIntoNothing(t, p);
    } else if p.Obj? {
      var m, d := MergePatch(t, p), DropNulls(p);
      forall k | Has(p, k)
        ensures MergePatch(Member(t, k), p.members[k]) == DropNulls(p.members[k]) <==>
                Covers(p.members[k], Member(t, k))
      {
        MergeReplacesIff(Member(t, k), p.members[k]);
      }
      if Covers(p, t) {
        forall k ensures (Has(m, k) <==> Has(d, k)) && Member(m, k) == Member(d, k) {
          MergeMember(t, p, k);
        }
        ObjExtensional(m, d);
      }
      if m == d {
        forall k | k in t.members ensures k in p.members && (p.members[k].Null? || Covers(p.members[k], t.members[k])) {
          MergeMember(t, p, k);
          assert Has(m, k) <==> Has(d, k);
        }
      }
    }
  }
}
