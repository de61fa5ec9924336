/** Stable sorting: what `sort.SliceStable` and `sort.Strings` leave behind, and why it is the
  * only sequence that could be left behind.
  */
module Sorting {

  ghost predicate StrictWeakOrder<T(!new)>(less: (T, T) -> bool) {
    && (forall x :: !less(x, x))
    && (forall x, y, z :: less(x, y) && less(y, z) ==> less(x, z))
    && (forall x, y, z :: less(x, z) ==> less(x, y) || less(y, z))
  }

  predicate Equivalent<T>(x: T, y: T, less: (T, T) -> bool) {
    !less(x, y) && !less(y, x)
  }

  ghost predicate Sorted<T>(xs: seq<T>, less: (T, T) -> bool) {
    forall i, j :: 0 <= i < j < |xs| ==> !less(xs[j], xs[i])
  }

  /** The elements of xs equivalent to x, in the order xs has them. */
  function Class<T>(xs: seq<T>, x: T, less: (T, T) -> bool): seq<T> {
    if xs == [] then []
    else
      var last := xs[|xs| - 1];
      Class(xs[..|xs| - 1], x, less) + (if Equivalent(last, x, less) then [last] else [])
  }

  /** Sorted, and within every class the order of the input. */
  ghost predicate IsStableSort<T(!new)>(xs: seq<T>, ys: seq<T>, less: (T, T) -> bool) {
    Sorted(ys, less) && forall x :: Class(ys, x, less) == Class(xs, x, less)
  }

  /** x placed behind everything in xs that is not greater than x. */
  function Insert<T>(xs: seq<T>, x: T, less: (T, T) -> bool): seq<T> {
    if xs != [] && less(x, xs[|xs| - 1])
    then Insert(xs[..|xs| - 1], x, less) + [xs[|xs| - 1]]
    else xs + [x]
  }

  function StableSort<T>(xs: seq<T>, less: (T, T) -> bool): seq<T> {
    if xs == [] then [] else Insert(StableSort(xs[..|xs| - 1], less), xs[|xs| - 1], less)
  }

  lemma Between<T(!new)>(x: T, y: T, z: T, less: (T, T) -> bool)
    requires StrictWeakOrder(less)
    ensures less(x, z) ==> less(x, y) || less(y, z)
  {
  }

  lemma {:induction false} InsertContents<T>(xs: seq<T>, x: T, less: (T, T) -> bool)
    ensures multiset(Insert(xs, x, less)) == multiset(xs) + multiset{x}
  {
    if xs != [] && less(x, xs[|xs| - 1]) {
      InsertContents(xs[..|xs| - 1], x, less);
      assert xs == xs[..|xs| - 1] + [xs[|xs| - 1]];
    }
  }

  lemma {:induction false} InsertSorted<T(!new)>(xs: seq<T>, x: T, less: (T, T) -> bool)
    requires StrictWeakOrder(less) && Sorted(xs, less)
    ensures Sorted(Insert(xs, x, less), less)
  {
    if xs != [] && less(x, xs[|xs| - 1]) {
      var front, last := xs[..|xs| - 1], xs[|xs| - 1];
      InsertSorted(front, x, less);
      var ins := Insert(front, x, less);
      InsertContents(front, x, less);
      forall i | 0 <= i < |ins| ensures !less(last, ins[i]) {
        assert ins[i] in multiset(ins);
        if ins[i] != x {
          assert ins[i] in front;
        }
      }
    } else if xs != [] {
      var last := xs[|xs| - 1];
      forall i | 0 <= i < |xs| ensures !less(x, xs[i]) {
        Between(x, last, xs[i], less);
      }
    }
  }

  lemma ClassAppend<T>(xs: seq<T>, last: T, x: T, less: (T, T) -> bool)
    ensures Class(xs + [last], x, less) == Class(xs, x, less) + (if Equivalent(last, x, less) then [last] else [])
  {
    assert (xs + [last])[..|xs|] == xs;
  }

  lemma {:induction false} InsertClass<T(!new)>(xs: seq<T>, x: T, y: T, less: (T, T) -> bool)
    requires StrictWeakOrder(less)
    ensures Class(Insert(xs, x, less), y, less) == Class(xs + [x], y, less)
  {
    if xs != [] && less(x, xs[|xs| - 1]) {
      var front, last := xs[..|xs| - 1], xs[|xs| - 1];
      InsertClass(front, x, y, less);
      assert front + [last] == xs;
      ClassAppend(Insert(front, x, less), last, y, less);
      ClassAppend(front, x, y, less);
      ClassAppend(front, last, y, less);
      ClassAppend(xs, x, y, less);
      NotBothIn(x, last, y, less);
      assert Class(front, y, less) + [] == Class(front, y, less);
    }
  }

  lemma NotBothIn<T(!new)>(x: T, last: T, y: T, less: (T, T) -> bool)
    requires StrictWeakOrder(less) && less(x, last)
    ensures !(Equivalent(x, y, less) && Equivalent(last, y, less))
  {
  }

  lemma {:induction false} StableSortClass<T(!new)>(xs: seq<T>, x: T, less: (T, T) -> bool)
    requires StrictWeakOrder(less)
    ensures Class(StableSort(xs, less), x, less) == Class(xs, x, less)
  {
    if xs != [] {
      var front, last := xs[..|xs| - 1], xs[|xs| - 1];
      StableSortClass(front, x, less);
      InsertClass(StableSort(front, less), last, x, less);
      ClassAppend(StableSort(front, less), last, x, less);
    }
  }

  lemma {:induction false} StableSortSorted<T(!new)>(xs: seq<T>, less: (T, T) -> bool)
    requires StrictWeakOrder(less)
    ensures Sorted(StableSort(xs, less), less)
  {
    if xs != [] {
      StableSortSorted(xs[..|xs| - 1], less);
      InsertSorted(StableSort(xs[..|xs| - 1], less), xs[|xs| - 1], less);
    }
  }

  lemma {:induction false} InsertLength<T>(xs: seq<T>, x: T, less: (T, T) -> bool)
    ensures |Insert(xs, x, less)| == |xs| + 1
  {
    if xs != [] && less(x, xs[|xs| - 1]) {
      InsertLength(xs[..|xs| - 1], x, less);
    }
  }

  lemma {:induction false} StableSortLength<T>(xs: seq<T>, less: (T, T) -> bool)
    ensures |StableSort(xs, less)| == |xs|
  {
    if xs != [] {
      StableSortLength(xs[..|xs| - 1], less);
      InsertLength(StableSort(xs[..|xs| - 1], less), xs[|xs| - 1], less);
    }
  }

  lemma MultisetLast<T>(xs: seq<T>)
    requires xs != []
    ensures multiset(xs) == multiset(xs[..|xs| - 1]) + multiset{xs[|xs| - 1]}
  {
    assert xs == xs[..|xs| - 1] + [xs[|xs| - 1]];
  }

  lemma {:induction false} StableSortPermutes<T>(xs: seq<T>, less: (T, T) -> bool)
    ensures multiset(StableSort(xs, less)) == multiset(xs)
    ensures |StableSort(xs, less)| == |xs|
  {
    StableSortLength(xs, less);
    if xs != [] {
      StableSortPermutes(xs[..|xs| - 1], less);
      InsertContents(StableSort(xs[..|xs| - 1], less), xs[|xs| - 1], less);
      MultisetLast(xs);
    }
  }

  lemma StableSortMembers<T>(xs: seq<T>, less: (T, T) -> bool)
    ensures forall x :: x in StableSort(xs, less) <==> x in xs
  {
    StableSortPermutes(xs, less);
    forall x ensures x in StableSort(xs, less) <==> x in xs {
      assert x in multiset(StableSort(xs, less)) <==> x in multiset(xs);
    }
  }

  lemma {:induction false} ClassEmpty<T>(xs: seq<T>, x: T, less: (T, T) -> bool)
    requires forall i :: 0 <= i < |xs| ==> !Equivalent(xs[i], x, less)
    ensures Class(xs, x, less) == []
  {
    if xs != [] {
      ClassEmpty(xs[..|xs| - 1], x, less);
    }
  }

  lemma LastInClass<T(!new)>(xs: seq<T>, less: (T, T) -> bool)
    requires StrictWeakOrder(less) && xs != []
    ensures Class(xs, xs[|xs| - 1], less) != []
    ensures Class(xs, xs[|xs| - 1], less)[|Class(xs, xs[|xs| - 1], less)| - 1] == xs[|xs| - 1]
  {
  }

  lemma DropTail<T>(a: seq<T>, b: seq<T>, tail: seq<T>)
    requires a + tail == b + tail
    ensures a == b
  {
    assert a == (a + tail)[..|a|] && b == (b + tail)[..|b|];
  }

  lemma SameClassesEmpty<T(!new)>(ys: seq<T>, zs: seq<T>, less: (T, T) -> bool)
    requires StrictWeakOrder(less)
    requires forall x :: Class(ys, x, less) == Class(zs, x, less)
    ensures ys == [] <==> zs == []
  {
    if ys != [] { LastInClass(ys, less); }
    if zs != [] { LastInClass(zs, less); }
  }

  /** A stable sort of a sequence is unique, whichever algorithm produced it. */
  lemma {:induction false} StableSortUnique<T(!new)>(ys: seq<T>, zs: seq<T>, less: (T, T) -> bool)
    requires StrictWeakOrder(less)
    requires Sorted(ys, less) && Sorted(zs, less)
    requires forall x :: Class(ys, x, less) == Class(zs, x, less)
    ensures ys == zs
    decreases |ys|
  {
    SameClassesEmpty(ys, zs, less);
    if ys != [] {
      var y, z := ys[|ys| - 1], zs[|zs| - 1];
      LastNotBelow(ys, zs, less);
      LastNotBelow(zs, ys, less);
      LastInClass(ys, less);
      assert Class(ys, y, less) == Class(zs, y, less);
      assert y == z;
      var ysFront, zsFront := ys[..|ys| - 1], zs[..|zs| - 1];
      forall x: T ensures Class(ysFront, x, less) == Class(zsFront, x, less) {
        assert Class(ys, x, less) == Class(zs, x, less);
        var tail := if Equivalent(y, x, less) then [y] else [];
        DropTail(Class(ysFront, x, less), Class(zsFront, x, less), tail);
      }
      StableSortUnique(ysFront, zsFront, less);
      assert ys == ysFront + [y] && zs == zsFront + [z];
    }
  }

  lemma LastNotBelow<T(!new)>(ys: seq<T>, zs: seq<T>, less: (T, T) -> bool)
    requires StrictWeakOrder(less)
    requires Sorted(ys, less) && ys != [] && zs != []
    requires forall x :: Class(ys, x, less) == Class(zs, x, less)
    ensures !less(ys[|ys| - 1], zs[|zs| - 1])
  {
    var y, z := ys[|ys| - 1], zs[|zs| - 1];
    LastInClass(zs, less);
    assert Class(ys, z, less) == Class(zs, z, less);
    if less(y, z) {
      forall i | 0 <= i < |ys| ensures !Equivalent(ys[i], z, less) {
        Between(y, ys[i], z, less);
      }
      ClassEmpty(ys, z, less);
      assert false;
    }
  }

  /** Any stable sort of xs is StableSort(xs), and StableSort is one. */
  lemma StableSortExact<T(!new)>(xs: seq<T>, ys: seq<T>, less: (T, T) -> bool)
    requires StrictWeakOrder(less)
    ensures IsStableSort(xs, ys, less) <==> ys == StableSort(xs, less)
  {
    StableSortSorted(xs, less);
    forall x ensures Class(StableSort(xs, less), x, less) == Class(xs, x, less) {
      StableSortClass(xs, x, less);
    }
    if IsStableSort(xs, ys, less) {
      StableSortUnique(ys, StableSort(xs, less), less);
    }
  }

  /** One step of the insertion: x moves in front of a greater neighbour. */
  lemma {:induction false} InsertStep<T>(s: seq<T>, x: T, j: nat, less: (T, T) -> bool)
    requires 0 < j <= |s| && less(x, s[j - 1])
    ensures Insert(s[..j], x, less) + s[j..] == Insert(s[..j - 1], x, less) + s[j - 1..]
  {
    var t := s[..j];
    assert t[..j - 1] == s[..j - 1];
    assert Insert(t, x, less) == Insert(s[..j - 1], x, less) + [s[j - 1]];
    assert s[j - 1..] == [s[j - 1]] + s[j..];
  }

  /** The sequence with its element at i taken out and put back at j, before it. */
  function Placed<T>(s: seq<T>, i: nat, j: nat): seq<T>
    requires j <= i < |s|
  {
    s[..j] + [s[i]] + s[j..i] + s[i + 1..]
  }

  lemma PlacedAt<T>(s: seq<T>, i: nat, j: nat)
    requires j <= i < |s|
    ensures |Placed(s, i, j)| == |s| && Placed(s, i, j)[j] == s[i]
    ensures j > 0 ==> Placed(s, i, j)[j - 1] == s[j - 1]
  {
  }

  /** Swapping it with the element before moves it one on. */
  lemma PlacedOn<T>(s: seq<T>, i: nat, j: nat)
    requires 0 < j <= i < |s| && |Placed(s, i, j)| == |s|
    ensures Placed(s, i, j)[j := s[j - 1]][j - 1 := s[i]] == Placed(s, i, j - 1)
  {
  }

  lemma PlacedPrefix<T>(s: seq<T>, i: nat, j: nat)
    requires j <= i < |s| && |Placed(s, i, j)| == |s|
    ensures Placed(s, i, j)[..i + 1] == s[..j] + [s[i]] + s[..i][j..]
    ensures Placed(s, i, j)[i + 1..] == s[i + 1..]
  {
    assert s[..i][j..] == s[j..i];
  }

  lemma PlacedNowhere<T>(s: seq<T>, i: nat)
    requires i < |s|
    ensures Placed(s, i, i) == s
  {
  }

  lemma InsertLast<T>(t: seq<T>, x: T, less: (T, T) -> bool)
    requires t == [] || !less(x, t[|t| - 1])
    ensures Insert(t, x, less) == t + [x]
  {
  }

  /** Inserting the element at i before it leaves what is past j as it is. */
  ghost predicate Sunk<T>(s: seq<T>, i: nat, j: nat, less: (T, T) -> bool)
    requires j <= i < |s|
  {
    Insert(s[..i], s[i], less) == Insert(s[..i][..j], s[i], less) + s[..i][j..]
  }

  lemma SinkStarts<T>(s: seq<T>, i: nat, less: (T, T) -> bool)
    requires i < |s|
    ensures Sunk(s, i, i, less) && Placed(s, i, i) == s
  {
    assert s[..i][..i] == s[..i] && s[..i][i..] == [];
    PlacedNowhere(s, i);
  }

  lemma SinkStep<T>(s: seq<T>, i: nat, j: nat, less: (T, T) -> bool)
    requires 0 < j <= i < |s| && less(s[i], s[j - 1]) && Sunk(s, i, j, less)
    ensures Sunk(s, i, j - 1, less) && |Placed(s, i, j)| == |s|
    ensures Placed(s, i, j)[j := s[j - 1]][j - 1 := s[i]] == Placed(s, i, j - 1)
  {
    InsertStep(s[..i], s[i], j, less);
    PlacedAt(s, i, j);
    PlacedOn(s, i, j);
  }

  lemma SinkEnds<T>(s: seq<T>, i: nat, j: nat, less: (T, T) -> bool)
    requires j <= i < |s| && (j > 0 ==> !less(s[i], s[j - 1])) && Sunk(s, i, j, less)
    ensures |Placed(s, i, j)| == |s|
    ensures Placed(s, i, j)[..i + 1] == Insert(s[..i], s[i], less) && Placed(s, i, j)[i + 1..] == s[i + 1..]
  {
    InsertLast(s[..i][..j], s[i], less);
    PlacedAt(s, i, j);
    PlacedPrefix(s, i, j);
    assert s[..i][..j] == s[..j];
  }

  method SwapDown<T>(a: array<T>, j: nat)
    requires 0 < j < a.Length
    modifies a
    ensures a[..] == old(a[..])[j := old(a[j - 1])][j - 1 := old(a[j])]
  {
    a[j], a[j - 1] := a[j - 1], a[j];
  }

  /** Sinks the element at i into the sorted prefix before it. */
  method Sink<T>(a: array<T>, i: nat, less: (T, T) -> bool)
    requires i < a.Length
    modifies a
    ensures a[..i + 1] == Insert(old(a[..i]), old(a[i]), less)
    ensures a[i + 1..] == old(a[i + 1..])
  {
    ghost var was := a[..];
    SinkStarts(was, i, less);
    var j := i;
    while j > 0 && less(a[j], a[j - 1])
      invariant 0 <= j <= i
      invariant a[..] == Placed(was, i, j) && Sunk(was, i, j, less)
    {
      PlacedAt(was, i, j);
      assert a[j] == a[..][j] && a[j - 1] == a[..][j - 1];
      SinkStep(was, i, j, less);
      SwapDown(a, j);
      j := j - 1;
    }
    PlacedAt(was, i, j);
    assert a[j] == a[..][j] && (j > 0 ==> a[j - 1] == a[..][j - 1]);
    SinkEnds(was, i, j, less);
    assert a[..i + 1] == a[..][..i + 1] && a[i + 1..] == a[..][i + 1..];
  }

  /** The in-place stable insertion sort that `sort.SliceStable` runs on short slices. */
  method SortStable<T>(a: array<T>, less: (T, T) -> bool)
    modifies a
    ensures a[..] == StableSort(old(a[..]), less)
  {
    ghost var was := a[..];
    var i := 0;
    while i < a.Length
      invariant 0 <= i <= a.Length
      invariant a[..i] == StableSort(was[..i], less)
      invariant a[i..] == was[i..]
    {
      assert a[i] == was[i] by { assert a[i..][0] == was[i..][0]; }
      assert was[..i + 1][..i] == was[..i];
      assert a[i + 1..] == was[i + 1..] by { assert a[i..][1..] == was[i..][1..]; }
      Sink(a, i, less);
      i := i + 1;
    }
    assert a[..] == a[..i] && was[..i] == was;
  }

  // ----- Distinct elements -----

  ghost predicate NoDuplicates<T>(xs: seq<T>) {
    forall i, j :: 0 <= i < j < |xs| ==> xs[i] != xs[j]
  }

  /** A sequence without duplicates holds each element once, and so does every permutation of it. */
  lemma {:induction false} DistinctCount<T>(xs: seq<T>, x: T)
    requires NoDuplicates(xs)
    ensures multiset(xs)[x] <= 1
  {
    if xs != [] {
      var front, last := xs[..|xs| - 1], xs[|xs| - 1];
      DistinctCount(front, x);
      assert xs == front + [last];
      if x == last {
        assert forall i :: 0 <= i < |front| ==> front[i] != last;
        assert last !in multiset(front);
      }
    }
  }

  lemma DistinctStays<T>(names: seq<T>, s: seq<T>, i: nat, j: nat)
    requires NoDuplicates(names) && multiset(s) == multiset(names) && i < j < |s|
    ensures s[i] != s[j]
  {
    DistinctCount(names, s[i]);
    var a, b := s[..j], s[j..];
    assert s == a + b && a[i] == s[i] && b[0] == s[j];
    assert multiset(s) == multiset(a) + multiset(b);
    assert s[i] in multiset(a) && s[j] in multiset(b);
  }

  // ----- Strings -----

  /** Go's `<` on strings. */
  predicate StringLess(a: string, b: string) {
    if b == [] then false
    else if a == [] then true
    else if a[0] != b[0] then a[0] < b[0]
    else StringLess(a[1..], b[1..])
  }

  /** Up to n the strings are the same, and there a ends or has the smaller character. */
  predicate SmallerAt(a: string, b: string, n: nat) {
    n <= |a| && n < |b| && a[..n] == b[..n] && (n == |a| || a[n] < b[n])
  }

  /** The order of strings, without recursion. */
  ghost predicate Precedes(a: string, b: string) {
    exists n: nat :: SmallerAt(a, b, n)
  }

  lemma {:induction false} LessSomewhere(a: string, b: string) returns (n: nat)
    requires StringLess(a, b)
    ensures SmallerAt(a, b, n)
  {
    if a == [] || a[0] != b[0] {
      n := 0;
    } else {
      n := LessSomewhere(a[1..], b[1..]);
      n := n + 1;
      assert a[..n] == [a[0]] + a[1..][..n - 1] && b[..n] == [b[0]] + b[1..][..n - 1];
    }
  }

  lemma {:induction false} SmallerIsLess(a: string, b: string, n: nat)
    requires SmallerAt(a, b, n)
    ensures StringLess(a, b)
  {
    if n > 0 {
      assert a[0] == a[..n][0] == b[..n][0] == b[0];
      assert a[1..][..n - 1] == a[..n][1..] && b[1..][..n - 1] == b[..n][1..];
      SmallerIsLess(a[1..], b[1..], n - 1);
    }
  }

  /** A string is less than another exactly when it is a proper prefix of it or smaller at their first difference. */
  lemma StringLessIff(a: string, b: string)
    ensures StringLess(a, b) <==> Precedes(a, b)
  {
    if StringLess(a, b) {
      var n := LessSomewhere(a, b);
    }
    if n: nat :| SmallerAt(a, b, n) {
      SmallerIsLess(a, b, n);
    }
  }

  lemma {:induction false} StringLessTransitive(a: string, b: string, c: string)
    ensures StringLess(a, b) && StringLess(b, c) ==> StringLess(a, c)
  {
    if a != [] && b != [] && c != [] {
      StringLessTransitive(a[1..], b[1..], c[1..]);
    }
  }

  lemma {:induction false} StringLessTotal(a: string, b: string)
    ensures !(StringLess(a, b) && StringLess(b, a))
    ensures StringLess(a, b) || StringLess(b, a) || a == b
    ensures !StringLess(a, a)
  {
    if a != [] {
      StringLessTotal(a[1..], a[1..]);
    }
    if a != [] && b != [] {
      StringLessTotal(a[1..], b[1..]);
      if a[0] == b[0] && a[1..] == b[1..] {
        assert a == [a[0]] + a[1..] && b == [b[0]] + b[1..];
      }
    }
  }

  /** `sort.Strings` on a copy. */
  method SortStrings(xs: seq<string>) returns (sorted: seq<string>)
    ensures sorted == StableSort(xs, StringLess)
  {
    var a := new string[|xs|](i requires 0 <= i < |xs| => xs[i]);
    assert a[..] == xs;
    SortStable(a, StringLess);
    sorted := a[..];
  }

  /** Strings are totally ordered, so two strings are equivalent only when they are equal. */
  lemma StringLessOrder()
    ensures StrictWeakOrder(StringLess)
    ensures forall a, b :: Equivalent(a, b, StringLess) <==> a == b
  {
    forall a ensures !StringLess(a, a) { StringLessTotal(a, a); }
    forall a, b ensures Equivalent(a, b, StringLess) <==> a == b { StringLessTotal(a, b); }
    forall a, b, c | StringLess(a, b) && StringLess(b, c) ensures StringLess(a, c) { StringLessTransitive(a, b, c); }
    forall a, b, c | StringLess(a, c) ensures StringLess(a, b) || StringLess(b, c) {
      StringLessTotal(a, b);
      if a != b && StringLess(b, a) { StringLessTransitive(b, a, c); }
    }
  }
}
