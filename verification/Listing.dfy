/** Listing the applications of an instance (internal/mcpserver/tools_read.go lines 78-129,
  * internal/mcpserver/format.go lines 49-94). Rendering the table as text is left out.
  */
module Listing {
  import opened JsonValues
  import opened Sorting
  import opened Applications
  import opened Operations
  import opened Configs
  import opened Instances
  import opened Registries
  import opened Calls

  /** The API server's answer to a list request, by namespace. */
  type Lister = string -> Result<seq<Json>, ApiError>

  /** The rows of the table, and the two histograms above them. */
  datatype Table = Table(rows: seq<App>, sync: seq<(string, nat)>, health: seq<(string, nat)>)

  function ListNamespaces(inst: Instance, explicit: string): seq<string> {
    if explicit != "" then [explicit]
    else if |inst.namespaces| == 0 then [inst.namespace]
    else inst.namespaces
  }

  /** The order of the table: by namespace, then by name. */
  predicate RowLess(a: App, b: App) {
    if a.namespace != b.namespace then StringLess(a.namespace, b.namespace) else StringLess(a.name, b.name)
  }

  /** The row comes before the other: its namespace does, or it has the same one and its name does. */
  ghost predicate ComesBefore(a: App, b: App) {
    Precedes(a.namespace, b.namespace) || (a.namespace == b.namespace && Precedes(a.name, b.name))
  }

  lemma RowLessIff(a: App, b: App)
    ensures RowLess(a, b) <==> ComesBefore(a, b)
  {
    StringLessIff(a.namespace, b.namespace);
    StringLessIff(a.name, b.name);
    StringLessTotal(a.namespace, b.namespace);
  }

  function Dash(s: string): string {
    if s == "" then "-" else s
  }

  // ----- Gathering -----

  function View(parse: TimeParser): Json -> App {
    o => Project(o, parse)
  }

  /** The projections of the listed objects that the filters let through. */
  function Matching(items: seq<Json>, view: Json -> App, matches: App -> bool): seq<App> {
    if items == [] then []
    else
      var a := view(items[|items| - 1]);
      Matching(items[..|items| - 1], view, matches) + (if matches(a) then [a] else [])
  }

  function Gathered(nss: seq<string>, list: Lister, view: Json -> App, matches: App -> bool): seq<App>
    requires forall i :: 0 <= i < |nss| ==> list(nss[i]).Ok?
  {
    if nss == [] then []
    else Gathered(nss[..|nss| - 1], list, view, matches) + Matching(list(nss[|nss| - 1]).value, view, matches)
  }

  /** view is the projection; stated so that only a use of the projection brings it to mind. */
  ghost predicate IsView(view: Json -> App, parse: TimeParser) {
    forall o {:trigger Project(o, parse)} :: view(o) == Project(o, parse)
  }

  method ReadApp(u: Json, parse: TimeParser, ghost view: Json -> App) returns (a: App)
    requires IsView(view, parse)
    ensures a == view(u)
  {
    a := AppFromUnstructured(u, parse);
  }

  method AppendMatching(apps: seq<App>, items: seq<Json>, matches: App -> bool, parse: TimeParser,
                        ghost view: Json -> App)
    returns (out: seq<App>)
    requires IsView(view, parse)
    ensures out == apps + Matching(items, view, matches)
  {
    out := apps;
    for i := 0 to |items|
      invariant out == apps + Matching(items[..i], view, matches)
    {
      assert items[..i + 1][..i] == items[..i];
      var a := ReadApp(items[i], parse, view);
      if matches(a) {
        out := out + [a];
      }
    }
    assert items[..|items|] == items;
  }

  method GatherAll(nss: seq<string>, list: Lister, matches: App -> bool, parse: TimeParser, ghost view: Json -> App)
    returns (res: Result<seq<App>, ApiError>)
    requires IsView(view, parse)
    ensures res.Ok? <==> forall i :: 0 <= i < |nss| ==> list(nss[i]).Ok?
    ensures res.Err? ==> exists i :: FirstFailure(nss, list, i) && list(nss[i]) == Err(res.error)
    ensures res.Ok? ==> res.value == Gathered(nss, list, view, matches)
  {
    var apps := [];
    for n := 0 to |nss|
      invariant forall i :: 0 <= i < n ==> list(nss[i]).Ok?
      invariant apps == Gathered(nss[..n], list, view, matches)
    {
      var answer := list(nss[n]);
      if answer.Err? {
        assert FirstFailure(nss, list, n);
        return Err(answer.error);
      }
      assert nss[..n + 1][..n] == nss[..n];
      apps := AppendMatching(apps, answer.value, matches, parse, view);
    }
    assert nss[..|nss|] == nss;
    return Ok(apps);
  }

  /** Lists every namespace in turn and stops at the first that fails. */
  method AppsList(inst: Instance, explicit: string, list: Lister, matches: App -> bool, parse: TimeParser)
    returns (res: Result<Table, ApiError>)
    ensures var nss := ListNamespaces(inst, explicit);
      && (res.Ok? <==> forall i :: 0 <= i < |nss| ==> list(nss[i]).Ok?)
      && (res.Err? ==> exists i :: FirstFailure(nss, list, i) && list(nss[i]) == Err(res.error))
      && (res.Ok? ==> IsTable(Gathered(nss, list, View(parse), matches), res.value))
  {
    var apps := GatherAll(ListNamespaces(inst, explicit), list, matches, parse, View(parse));
    if apps.Err? {
      return Err(apps.error);
    }
    var rows := new App[|apps.value|](i requires 0 <= i < |apps.value| => apps.value[i]);
    assert rows[..] == apps.value;
    var sync, health := AppsTable(rows);
    return Ok(Table(rows[..], sync, health));
  }

  ghost predicate IsTable(apps: seq<App>, t: Table) {
    && t.rows == StableSort(apps, RowLess)
    && IsHistogram(Labels(t.rows, SyncLabel), t.sync)
    && IsHistogram(Labels(t.rows, HealthLabel), t.health)
  }

  /** The first namespace that cannot be listed. */
  ghost predicate FirstFailure(nss: seq<string>, list: Lister, i: int) {
    0 <= i < |nss| && list(nss[i]).Err? && forall j :: 0 <= j < i ==> list(nss[j]).Ok?
  }

  // ----- The table -----

  function SyncLabel(a: App): string {
    Dash(a.syncStatus)
  }

  function HealthLabel(a: App): string {
    Dash(a.healthStatus)
  }

  function Labels(rows: seq<App>, f: App -> string): seq<string> {
    seq(|rows|, i requires 0 <= i < |rows| => f(rows[i]))
  }

  /** Every label that occurs, once, in ascending order, with the number of its occurrences. */
  ghost predicate IsHistogram(labels: seq<string>, h: seq<(string, nat)>) {
    && (forall i, j :: 0 <= i < j < |h| ==> StringLess(h[i].0, h[j].0))
    && (forall i :: 0 <= i < |h| ==> h[i].1 == multiset(labels)[h[i].0] > 0)
    && (forall x :: x in labels ==> exists i :: 0 <= i < |h| && h[i].0 == x)
  }

  /** The counts that the table's loop builds up. */
  ghost predicate Counts(labels: seq<string>, m: map<string, nat>) {
    && (forall x :: x in m <==> x in labels)
    && (forall x :: x in m ==> m[x] == multiset(labels)[x])
  }

  function Increment(m: map<string, nat>, x: string): map<string, nat> {
    m[x := (if x in m then m[x] else 0) + 1]
  }

  lemma CountsExtend(labels: seq<string>, m: map<string, nat>, x: string)
    requires Counts(labels, m)
    ensures Counts(labels + [x], Increment(m, x))
  {
    assert x !in labels ==> multiset(labels)[x] == 0;
  }

  lemma CountsNext(rows: seq<App>, i: nat, f: App -> string, m: map<string, nat>)
    requires i < |rows| && Counts(Labels(rows[..i], f), m)
    ensures Counts(Labels(rows[..i + 1], f), Increment(m, f(rows[i])))
  {
    CountsExtend(Labels(rows[..i], f), m, f(rows[i]));
    assert Labels(rows[..i + 1], f) == Labels(rows[..i], f) + [f(rows[i])];
  }

  /** Sorts the rows in place, and counts them by sync and health status. */
  method AppsTable(apps: array<App>) returns (sync: seq<(string, nat)>, health: seq<(string, nat)>)
    modifies apps
    ensures apps[..] == StableSort(old(apps[..]), RowLess)
    ensures IsHistogram(Labels(apps[..], SyncLabel), sync)
    ensures IsHistogram(Labels(apps[..], HealthLabel), health)
  {
    SortStable(apps, RowLess);
    ghost var rows := apps[..];
    var bySync: map<string, nat>, byHealth: map<string, nat> := map[], map[];
    for i := 0 to apps.Length
      invariant apps[..] == rows
      invariant Counts(Labels(rows[..i], SyncLabel), bySync)
      invariant Counts(Labels(rows[..i], HealthLabel), byHealth)
    {
      assert rows[i] == apps[i];
      CountsNext(rows, i, SyncLabel, bySync);
      CountsNext(rows, i, HealthLabel, byHealth);
      bySync := Increment(bySync, Dash(apps[i].syncStatus));
      byHealth := Increment(byHealth, Dash(apps[i].healthStatus));
    }
    assert rows[..apps.Length] == rows;
    sync := Histogram(bySync);
    health := Histogram(byHealth);
    HistogramOfCounts(Labels(apps[..], SyncLabel), bySync, sync);
    HistogramOfCounts(Labels(apps[..], HealthLabel), byHealth, health);
  }

  /** The keys of a map come in any order; sorting them makes the rendering deterministic. */
  method SortedKeys(m: map<string, nat>) returns (sorted: seq<string>)
    ensures forall x :: x in sorted <==> x in m
    ensures forall i, j :: 0 <= i < j < |sorted| ==> StringLess(sorted[i], sorted[j])
  {
    var names := [];
    var rest := m.Keys;
    while rest != {}
      invariant rest <= m.Keys
      invariant forall x :: x in names <==> x in m && x !in rest
      invariant NoDuplicates(names)
      decreases |rest|
    {
      var x :| x in rest;
      names := names + [x];
      rest := rest - {x};
    }
    SortedNames(names);
    sorted := SortStrings(names);
  }

  method Histogram(m: map<string, nat>) returns (h: seq<(string, nat)>)
    ensures forall i, j :: 0 <= i < j < |h| ==> StringLess(h[i].0, h[j].0)
    ensures forall i :: 0 <= i < |h| ==> h[i].0 in m && m[h[i].0] == h[i].1
    ensures forall x :: x in m ==> exists i :: 0 <= i < |h| && h[i].0 == x
  {
    var sorted := SortedKeys(m);
    h := [];
    for i := 0 to |sorted|
      invariant |h| == i
      invariant forall k :: 0 <= k < i ==> h[k].0 == sorted[k] && sorted[k] in m && h[k].1 == m[sorted[k]]
    {
      assert sorted[i] in sorted;
      h := h + [(sorted[i], m[sorted[i]])];
    }
    forall x | x in m ensures exists i :: 0 <= i < |h| && h[i].0 == x {
      var i :| 0 <= i < |sorted| && sorted[i] == x;
      assert h[i].0 == x;
    }
  }

  lemma HistogramOfCounts(labels: seq<string>, m: map<string, nat>, h: seq<(string, nat)>)
    requires Counts(labels, m)
    requires forall i, j :: 0 <= i < j < |h| ==> StringLess(h[i].0, h[j].0)
    requires forall i :: 0 <= i < |h| ==> h[i].0 in m && m[h[i].0] == h[i].1
    requires forall x :: x in m ==> exists i :: 0 <= i < |h| && h[i].0 == x
    ensures IsHistogram(labels, h)
  {
    forall i | 0 <= i < |h| ensures h[i].1 == multiset(labels)[h[i].0] > 0 {
      assert h[i].0 in labels;
      assert h[i].0 in multiset(labels);
    }
  }

  // ----- What the histograms say -----

  function Total(h: seq<(string, nat)>): nat {
    if h == [] then 0 else Total(h[..|h| - 1]) + h[|h| - 1].1
  }

  lemma {:induction false} TotalOfCounts(m: multiset<string>, h: seq<(string, nat)>)
    requires forall i, j :: 0 <= i < j < |h| ==> StringLess(h[i].0, h[j].0)
    requires forall i :: 0 <= i < |h| ==> h[i].1 == m[h[i].0]
    requires forall x :: x in m ==> exists i :: 0 <= i < |h| && h[i].0 == x
    ensures Total(h) == |m|
  {
    if h == [] {
      assert m == multiset{};
    } else {
      var front, last := h[..|h| - 1], h[|h| - 1];
      var rest := m[last.0 := 0];
      forall i | 0 <= i < |front| ensures front[i].1 == rest[front[i].0] {
        StringLessTotal(front[i].0, last.0);
        assert h[i] == front[i];
      }
      forall x | x in rest ensures exists i :: 0 <= i < |front| && front[i].0 == x {
        var i :| 0 <= i < |h| && h[i].0 == x;
        assert front[i] == h[i];
      }
      TotalOfCounts(rest, front);
    }
  }

  /** A histogram accounts for every row. */
  lemma HistogramTotals(labels: seq<string>, h: seq<(string, nat)>)
    requires IsHistogram(labels, h)
    ensures Total(h) == |labels|
  {
    forall x | x in multiset(labels) ensures exists i :: 0 <= i < |h| && h[i].0 == x {
      assert x in labels;
    }
    TotalOfCounts(multiset(labels), h);
  }

  /** How many of the rows have the property. */
  function CountWhere(rows: seq<App>, p: App -> bool): nat {
    if rows == [] then 0 else CountWhere(rows[..|rows| - 1], p) + (if p(rows[|rows| - 1]) then 1 else 0)
  }

  lemma {:induction false} LabelsCount(rows: seq<App>, f: App -> string, x: string, p: App -> bool)
    requires forall a :: p(a) <==> f(a) == x
    ensures multiset(Labels(rows, f))[x] == CountWhere(rows, p)
  {
    if rows != [] {
      var front, last := rows[..|rows| - 1], rows[|rows| - 1];
      LabelsCount(front, f, x, p);
      assert Labels(rows, f) == Labels(front, f) + [f(last)];
    }
  }

  /** Each row of a histogram counts the applications with that status, one without any under a dash. */
  lemma HistogramsCount(t: Table, apps: seq<App>, i: nat)
    requires IsTable(apps, t)
    ensures i < |t.sync| ==>
              t.sync[i].1 ==
              CountWhere(t.rows, (a: App) => t.sync[i].0 == if a.syncStatus == "" then "-" else a.syncStatus)
    ensures i < |t.health| ==>
              t.health[i].1 ==
              CountWhere(t.rows, (a: App) => t.health[i].0 == if a.healthStatus == "" then "-" else a.healthStatus)
  {
    if i < |t.sync| {
      LabelsCount(t.rows, SyncLabel, t.sync[i].0,
                  (a: App) => t.sync[i].0 == if a.syncStatus == "" then "-" else a.syncStatus);
    }
    if i < |t.health| {
      LabelsCount(t.rows, HealthLabel, t.health[i].0,
                  (a: App) => t.health[i].0 == if a.healthStatus == "" then "-" else a.healthStatus);
    }
  }

  /** The rows determine the histogram, whatever order the keys of the map came in. */
  lemma HistogramUnique(labels: seq<string>, g: seq<(string, nat)>, h: seq<(string, nat)>)
    requires IsHistogram(labels, g) && IsHistogram(labels, h)
    ensures g == h
  {
    HistogramWithin(labels, g, h);
    HistogramWithin(labels, h, g);
    AscendingUnique(g, h);
  }

  lemma HistogramWithin(labels: seq<string>, g: seq<(string, nat)>, h: seq<(string, nat)>)
    requires IsHistogram(labels, g) && IsHistogram(labels, h)
    ensures forall x :: x in g ==> x in h
  {
    forall x | x in g ensures x in h {
      assert x.0 in multiset(labels);
      assert x.0 in labels;
      var j :| 0 <= j < |h| && h[j].0 == x.0;
      assert h[j] == x;
    }
  }

  lemma {:induction false} AscendingUnique(g: seq<(string, nat)>, h: seq<(string, nat)>)
    requires forall i, j :: 0 <= i < j < |g| ==> StringLess(g[i].0, g[j].0)
    requires forall i, j :: 0 <= i < j < |h| ==> StringLess(h[i].0, h[j].0)
    requires forall x :: x in g <==> x in h
    ensures g == h
    decreases |g|
  {
    assert h == [] || h[0] in h;
    if g != [] {
      assert g[|g| - 1] in g && g[|g| - 1] in h;
      LastsAgree(g, h);
      FrontsAgree(g, h, g[..|g| - 1], h[..|h| - 1]);
      AscendingUnique(g[..|g| - 1], h[..|h| - 1]);
      SameFrontAndLast(g, h);
    }
  }

  lemma SameFrontAndLast<T>(g: seq<T>, h: seq<T>)
    requires g != [] && h != [] && g[..|g| - 1] == h[..|h| - 1] && g[|g| - 1] == h[|h| - 1]
    ensures g == h
  {
    assert g == g[..|g| - 1] + [g[|g| - 1]] && h == h[..|h| - 1] + [h[|h| - 1]];
  }

  lemma FrontsAgree(g: seq<(string, nat)>, h: seq<(string, nat)>, gs: seq<(string, nat)>, hs: seq<(string, nat)>)
    requires forall i, j :: 0 <= i < j < |g| ==> StringLess(g[i].0, g[j].0)
    requires forall i, j :: 0 <= i < j < |h| ==> StringLess(h[i].0, h[j].0)
    requires forall x :: x in g <==> x in h
    requires g != [] && h != [] && g[|g| - 1] == h[|h| - 1] && gs == g[..|g| - 1] && hs == h[..|h| - 1]
    ensures forall z :: z in gs <==> z in hs
  {
    LastOnce(g);
    LastOnce(h);
    forall z ensures z in gs <==> z in hs {
      FrontMembers(g, z);
      FrontMembers(h, z);
    }
  }

  /** The last of an ascending sequence is its greatest. */
  lemma LastsAgree(g: seq<(string, nat)>, h: seq<(string, nat)>)
    requires forall i, j :: 0 <= i < j < |g| ==> StringLess(g[i].0, g[j].0)
    requires forall i, j :: 0 <= i < j < |h| ==> StringLess(h[i].0, h[j].0)
    requires g != [] && h != [] && g[|g| - 1] in h && h[|h| - 1] in g
    ensures g[|g| - 1] == h[|h| - 1]
  {
    var i :| 0 <= i < |h| && h[i] == g[|g| - 1];
    var j :| 0 <= j < |g| && g[j] == h[|h| - 1];
    StringLessTotal(g[|g| - 1].0, h[|h| - 1].0);
  }

  lemma FrontMembers<T>(g: seq<T>, z: T)
    requires g != []
    ensures z in g <==> z in g[..|g| - 1] || z == g[|g| - 1]
  {
    assert g == g[..|g| - 1] + [g[|g| - 1]];
  }

  lemma LastOnce(g: seq<(string, nat)>)
    requires g != [] && forall i, j :: 0 <= i < j < |g| ==> StringLess(g[i].0, g[j].0)
    ensures g[|g| - 1] !in g[..|g| - 1]
  {
    StringLessTotal(g[|g| - 1].0, g[|g| - 1].0);
  }

  // ----- What the rows say -----

  lemma RowLessOrder()
    ensures StrictWeakOrder(RowLess)
  {
    StringLessOrder();
    forall a, b, c | RowLess(a, b) && RowLess(b, c) ensures RowLess(a, c) {
      StringLessTotal(a.namespace, b.namespace);
    }
    forall a, b, c | RowLess(a, c) ensures RowLess(a, b) || RowLess(b, c) {
      StringLessTotal(a.namespace, b.namespace);
      StringLessTotal(b.namespace, c.namespace);
    }
  }

  /** The answer of an API server to one list request: the selected objects of the namespace, each once. */
  ghost predicate Faithful(store: Store, instance: string, ns: string, selected: Json -> bool, items: seq<Json>) {
    && NoDuplicates(items)
    && forall o :: o in items <==> ListedAt(store, instance, ns, selected, o)
  }

  /** Every list succeeds and is faithful. */
  ghost predicate AllFaithful(store: Store, instance: string, nss: seq<string>, list: Lister, selected: Json -> bool) {
    forall i :: 0 <= i < |nss| ==>
      list(nss[i]).Ok? && Faithful(store, instance, nss[i], selected, list(nss[i]).value)
  }

  ghost predicate ListedAt(store: Store, instance: string, ns: string, selected: Json -> bool, o: Json) {
    var k := Key(instance, ns, Text(Member(Member(o, "metadata"), "name")));
    k in store && store[k] == o && selected(o)
  }

  function KeyOf(instance: string, a: App): Key {
    Key(instance, a.namespace, a.name)
  }

  lemma {:induction false} MatchingExact(items: seq<Json>, view: Json -> App, matches: App -> bool, a: App)
    ensures a in Matching(items, view, matches) <==> matches(a) && exists o :: o in items && view(o) == a
  {
    if items != [] {
      var front, last := items[..|items| - 1], items[|items| - 1];
      MatchingExact(front, view, matches, a);
      assert items == front + [last];
    }
  }

  lemma {:induction false} GatheredExact(nss: seq<string>, list: Lister, view: Json -> App, matches: App -> bool,
                                         a: App)
    requires forall i :: 0 <= i < |nss| ==> list(nss[i]).Ok?
    ensures a in Gathered(nss, list, view, matches) <==>
            matches(a) && exists ns, o :: ns in nss && o in list(ns).value && view(o) == a
  {
    if nss != [] {
      var front, last := nss[..|nss| - 1], nss[|nss| - 1];
      GatheredExact(front, list, view, matches, a);
      MatchingExact(list(last).value, view, matches, a);
      assert nss == front + [last];
    }
  }

  predicate SameKey(a: App, b: App) {
    a.namespace == b.namespace && a.name == b.name
  }

  ghost predicate KeysDistinct(rows: seq<App>) {
    forall i, j :: 0 <= i < j < |rows| ==> !SameKey(rows[i], rows[j])
  }

  /** What makes the rows of one namespace distinct. */
  ghost predicate Clean(items: seq<Json>, view: Json -> App, ns: string) {
    && NoDuplicates(items)
    && (forall o :: o in items ==> view(o).namespace == ns)
    && (forall o, p :: o in items && p in items && view(o).name == view(p).name ==> o == p)
  }

  lemma {:induction false} MatchingDistinct(items: seq<Json>, view: Json -> App, matches: App -> bool, ns: string)
    requires Clean(items, view, ns)
    ensures KeysDistinct(Matching(items, view, matches))
    ensures forall a :: a in Matching(items, view, matches) ==> a.namespace == ns
  {
    if items != [] {
      var front, last := items[..|items| - 1], items[|items| - 1];
      assert items == front + [last];
      MatchingDistinct(front, view, matches, ns);
      forall a | a in Matching(front, view, matches) ensures a.name != view(last).name {
        MatchingExact(front, view, matches, a);
      }
    }
  }

  lemma {:induction false} GatheredDistinct(nss: seq<string>, list: Lister, view: Json -> App, matches: App -> bool)
    requires NoDuplicates(nss)
    requires forall i :: 0 <= i < |nss| ==> list(nss[i]).Ok? && Clean(list(nss[i]).value, view, nss[i])
    ensures KeysDistinct(Gathered(nss, list, view, matches))
    ensures forall a :: a in Gathered(nss, list, view, matches) ==> a.namespace in nss
  {
    if nss != [] {
      var front, last := nss[..|nss| - 1], nss[|nss| - 1];
      assert nss == front + [last];
      GatheredDistinct(front, list, view, matches);
      MatchingDistinct(list(last).value, view, matches, last);
    }
  }

  /** Sorting rows with distinct keys leaves the same rows, strictly ascending. */
  lemma SortedRows(apps: seq<App>)
    requires KeysDistinct(apps)
    ensures var rows := StableSort(apps, RowLess);
            && (forall a :: a in rows <==> a in apps)
            && (forall i, j :: 0 <= i < j < |rows| ==> RowLess(rows[i], rows[j]))
  {
    var rows := StableSort(apps, RowLess);
    RowLessOrder();
    StableSortPermutes(apps, RowLess);
    StableSortMembers(apps, RowLess);
    StableSortSorted(apps, RowLess);
    forall i, j | 0 <= i < j < |rows| ensures RowLess(rows[i], rows[j]) {
      DistinctStays(apps, rows, i, j);
      KeysTell(apps, rows[i], rows[j]);
      RowLessTotal(rows[i], rows[j]);
    }
  }

  lemma KeysTell(apps: seq<App>, a: App, b: App)
    requires KeysDistinct(apps) && a in apps && b in apps && a != b
    ensures !SameKey(a, b)
  {
  }

  lemma RowLessTotal(a: App, b: App)
    ensures RowLess(a, b) || RowLess(b, a) || SameKey(a, b)
  {
    StringLessTotal(a.namespace, b.namespace);
    StringLessTotal(a.name, b.name);
  }

  /** The namespaces of a configured instance, or the explicit one, are listed once each. */
  lemma ListedOnce(c: InstanceConfig, explicit: string)
    ensures var nss := ListNamespaces(InstanceOf(c), explicit);
            NoDuplicates(nss) && (forall ns :: ns in nss <==>
              if explicit != "" then ns == explicit
              else ns == Primary(c) || (ns != "" && ns in c.applicationNamespaces))
  {
    NamespacesExact(c);
  }

  /** Without an explicit namespace those of the instance are searched, or its own when it lists none. */
  lemma SearchedWhere(inst: Instance, explicit: string)
    ensures explicit != "" ==> ListNamespaces(inst, explicit) == [explicit]
    ensures explicit == "" && inst.namespaces != [] ==> ListNamespaces(inst, explicit) == inst.namespaces
    ensures explicit == "" && inst.namespaces == [] ==> ListNamespaces(inst, explicit) == [inst.namespace]
  {
  }

  /** What the projection does with the names. */
  ghost predicate KeepsNames(view: Json -> App) {
    forall o :: view(o).namespace == Text(Member(Member(o, "metadata"), "namespace"))
                && view(o).name == Text(Member(Member(o, "metadata"), "name"))
  }

  lemma FaithfulIsClean(store: Store, instance: string, ns: string, selected: Json -> bool, items: seq<Json>,
                        view: Json -> App)
    requires WellNamed(store) && KeepsNames(view) && Faithful(store, instance, ns, selected, items)
    ensures Clean(items, view, ns)
  {
    forall o | o in items ensures view(o).namespace == ns {
      assert ListedAt(store, instance, ns, selected, o);
      var k := Key(instance, ns, Text(Member(Member(o, "metadata"), "name")));
      assert Named(store[k], k);
    }
  }

  /** An application that the list must show. */
  predicate Wanted(store: Store, k: Key, nss: seq<string>, selected: Json -> bool, view: Json -> App,
                   matches: App -> bool) {
    k in store && k.namespace in nss && selected(store[k]) && matches(view(store[k]))
  }

  lemma GatheredIsWanted(store: Store, instance: string, nss: seq<string>, list: Lister, selected: Json -> bool,
                         view: Json -> App, matches: App -> bool, a: App)
    requires WellNamed(store) && KeepsNames(view)
    requires AllFaithful(store, instance, nss, list, selected)
    ensures a in Gathered(nss, list, view, matches) <==>
            Wanted(store, KeyOf(instance, a), nss, selected, view, matches) && view(store[KeyOf(instance, a)]) == a
  {
    GatheredExact(nss, list, view, matches, a);
    var k := KeyOf(instance, a);
    if a in Gathered(nss, list, view, matches) {
      var ns, o :| ns in nss && o in list(ns).value && view(o) == a;
      assert ListedAt(store, instance, ns, selected, o);
      assert Named(store[Key(instance, ns, a.name)], Key(instance, ns, a.name));
    }
    if Wanted(store, k, nss, selected, view, matches) && view(store[k]) == a {
      assert Named(store[k], k);
      assert ListedAt(store, instance, k.namespace, selected, store[k]);
    }
  }

  /** Listing conserves applications: on a configured instance whose lists all succeed, the table shows every
    * wanted application of the store exactly once and nothing else, strictly in the order of namespace and name,
    * and each histogram accounts for every row. */
  lemma ListingConserves(store: Store, c: InstanceConfig, explicit: string, list: Lister, selected: Json -> bool,
                         matches: App -> bool, parse: TimeParser, t: Table)
    requires WellNamed(store)
    requires var nss := ListNamespaces(InstanceOf(c), explicit);
             && AllFaithful(store, c.name, nss, list, selected)
             && IsTable(Gathered(nss, list, View(parse), matches), t)
    ensures forall i, j :: 0 <= i < j < |t.rows| ==> ComesBefore(t.rows[i], t.rows[j])
    ensures var nss := ListNamespaces(InstanceOf(c), explicit);
            forall a :: a in t.rows ==>
              var k := KeyOf(c.name, a);
              Wanted(store, k, nss, selected, View(parse), matches) && Project(store[k], parse) == a
    ensures var nss := ListNamespaces(InstanceOf(c), explicit);
            forall k: Key | k.instance == c.name && Wanted(store, k, nss, selected, View(parse), matches) ::
              Project(store[k], parse) in t.rows
    ensures Total(t.sync) == Total(t.health) == |t.rows|
  {
    var nss, view := ListNamespaces(InstanceOf(c), explicit), View(parse);
    ViewKeepsNames(parse);
    ListedOnce(c, explicit);
    Conserved(store, c.name, nss, list, selected, view, matches, t.rows);
    forall i, j | 0 <= i < j < |t.rows| ensures ComesBefore(t.rows[i], t.rows[j]) {
      RowLessIff(t.rows[i], t.rows[j]);
    }
    HistogramTotals(Labels(t.rows, SyncLabel), t.sync);
    HistogramTotals(Labels(t.rows, HealthLabel), t.health);
  }

  lemma ViewKeepsNames(parse: TimeParser)
    ensures KeepsNames(View(parse))
  {
  }

  lemma Conserved(store: Store, instance: string, nss: seq<string>, list: Lister, selected: Json -> bool,
                  view: Json -> App, matches: App -> bool, rows: seq<App>)
    requires WellNamed(store) && KeepsNames(view) && NoDuplicates(nss)
    requires AllFaithful(store, instance, nss, list, selected)
    requires rows == StableSort(Gathered(nss, list, view, matches), RowLess)
    ensures forall i, j :: 0 <= i < j < |rows| ==> RowLess(rows[i], rows[j])
    ensures forall a :: a in rows ==>
              var k := KeyOf(instance, a); Wanted(store, k, nss, selected, view, matches) && view(store[k]) == a
    ensures forall k :: Wanted(store, k, nss, selected, view, matches) && k.instance == instance ==>
              view(store[k]) in rows
  {
    forall i | 0 <= i < |nss| ensures Clean(list(nss[i]).value, view, nss[i]) {
      FaithfulIsClean(store, instance, nss[i], selected, list(nss[i]).value, view);
    }
    GatheredDistinct(nss, list, view, matches);
    SortedRows(Gathered(nss, list, view, matches));
    forall a ensures a in rows <==>
      Wanted(store, KeyOf(instance, a), nss, selected, view, matches) && view(store[KeyOf(instance, a)]) == a
    {
      GatheredIsWanted(store, instance, nss, list, selected, view, matches, a);
    }
    forall k | Wanted(store, k, nss, selected, view, matches) && k.instance == instance ensures view(store[k]) in rows {
      assert Named(store[k], k);
      assert KeyOf(instance, view(store[k])) == k;
    }
  }
}
