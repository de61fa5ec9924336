/** Configuration: defaults, validation, authentication modes and namespaces (internal/config/config.go). */
module Configs {
  import opened JsonValues
  import opened Sorting
  import opened Operations

  const DEFAULT_NAMESPACE := "argocd"

  datatype InstanceConfig = InstanceConfig(
    name: string,
    inCluster: bool,
    server: string, caFile: string, caData: string, tokenFile: string, token: string, insecure: bool,
    kubeconfigFile: string, context: string,
    namespace: string, applicationNamespaces: seq<string>,
    readOnly: bool)

  /** How agents authenticate to this server: shared tokens, an OIDC provider, or both. */
  datatype AuthToken = AuthToken(name: string, token: string, tokenFile: string)

  datatype Oidc = Oidc(
    enabled: bool, issuer: string, audience: string, uri: string,
    groupsClaim: string, usernameClaim: string, resourceMetadata: Option<bool>)

  datatype Auth = Auth(enabled: bool, staticEnabled: bool, tokens: seq<AuthToken>, oidc: Oidc)

  datatype AuthProblem =
    | NoMethod | NoTokens
    | NamelessToken(index: nat) | DuplicateToken(index: nat) | TokenForm(index: nat)
    | NoIssuer | InsecureIssuer | NoAudience | BadResource

  datatype AuthMode = InCluster | Explicit | Kubeconfig

  datatype ModeError = NoMode | SeveralModes

  datatype Problem =
    | BadLogLevel | NoInstances
    | EmptyName | BadName | DuplicateName
    | BadNamespace | BadApplicationNamespace
    | BadMode(e: ModeError)
    | NoAuthority | NoToken | InsecureWithAuthority | NoContext
    | NoDefault | UnknownDefault | BadAuth(a: AuthProblem)

  /** Exactly one mode must be selected. */
  function Mode(c: InstanceConfig): Result<AuthMode, ModeError> {
    var modes := (if c.inCluster then [InCluster] else [])
                 + (if c.server != "" then [Explicit] else [])
                 + (if c.kubeconfigFile != "" then [Kubeconfig] else []);
    if |modes| == 0 then Err(NoMode) else if |modes| == 1 then Ok(modes[0]) else Err(SeveralModes)
  }

  predicate Alphanumeric(c: char) {
    'a' <= c <= 'z' || '0' <= c <= '9'
  }

  /** Lower-case letters, digits and inner dashes; never empty. */
  predicate DnsLabel(s: string) {
    && s != "" && Alphanumeric(s[0]) && Alphanumeric(s[|s| - 1])
    && forall i :: 0 <= i < |s| ==> Alphanumeric(s[i]) || s[i] == '-'
  }

  /** One mode is selected when its own key is set and the keys of the other two are not. */
  lemma ModeExact(c: InstanceConfig)
    ensures Mode(c) == Ok(InCluster) <==> c.inCluster && c.server == "" && c.kubeconfigFile == ""
    ensures Mode(c) == Ok(Explicit) <==> !c.inCluster && c.server != "" && c.kubeconfigFile == ""
    ensures Mode(c) == Ok(Kubeconfig) <==> !c.inCluster && c.server == "" && c.kubeconfigFile != ""
    ensures Mode(c) == Err(NoMode) <==> !c.inCluster && c.server == "" && c.kubeconfigFile == ""
  {
  }

  /** The rest of a label, read from the left: a dash must be followed by something. */
  predicate LabelGoesOn(s: string) {
    s == ""
    || (('a' <= s[0] <= 'z' || '0' <= s[0] <= '9') && LabelGoesOn(s[1..]))
    || (s[0] == '-' && s[1..] != "" && LabelGoesOn(s[1..]))
  }

  lemma {:induction false} LabelGoesOnIff(s: string)
    requires s != ""
    ensures LabelGoesOn(s) <==>
            Alphanumeric(s[|s| - 1]) && forall i :: 0 <= i < |s| ==> Alphanumeric(s[i]) || s[i] == '-'
  {
    if |s| > 1 {
      LabelGoesOnIff(s[1..]);
      assert forall i :: 0 < i < |s| ==> s[i] == s[1..][i - 1];
    }
  }

  /** A name is accepted exactly when the automaton of the regular expression accepts it. */
  lemma DnsLabelIff(s: string)
    ensures DnsLabel(s) <==> s != "" && ('a' <= s[0] <= 'z' || '0' <= s[0] <= '9') && LabelGoesOn(s[1..])
  {
    if s != "" {
      LabelGoesOnIff(s);
      if s[1..] != "" {
        LabelGoesOnIff(s[1..]);
      }
    }
  }

  // ----- Namespaces -----

  function Primary(c: InstanceConfig): string {
    if c.namespace == "" then DEFAULT_NAMESPACE else c.namespace
  }

  /** The namespaces in the order they are mentioned, empty ones left out, repetitions kept. */
  function Mentioned(c: InstanceConfig): seq<string> {
    [Primary(c)] + NonEmpty(c.applicationNamespaces)
  }

  function NonEmpty(xs: seq<string>): seq<string> {
    if xs == [] then []
    else NonEmpty(xs[..|xs| - 1]) + (if xs[|xs| - 1] != "" then [xs[|xs| - 1]] else [])
  }

  /** Each element where it occurs first. */
  function FirstOccurrences(xs: seq<string>): seq<string> {
    if xs == [] then []
    else
      var front, last := FirstOccurrences(xs[..|xs| - 1]), xs[|xs| - 1];
      if last in front then front else front + [last]
  }

  /** The position at which x is first mentioned. */
  function FirstIndex(xs: seq<string>, x: string): (i: nat)
    requires x in xs
    ensures i < |xs| && xs[i] == x && x !in xs[..i]
  {
    if xs[0] == x then 0
    else
      assert xs == [xs[0]] + xs[1..];
      1 + FirstIndex(xs[1..], x)
  }

  lemma OneMoreMention(primary: string, xs: seq<string>, i: nat)
    requires i < |xs|
    ensures var before := FirstOccurrences([primary] + NonEmpty(xs[..i]));
            FirstOccurrences([primary] + NonEmpty(xs[..i + 1])) ==
            if xs[i] == "" || xs[i] in before then before else before + [xs[i]]
  {
    assert xs[..i + 1][..i] == xs[..i];
    var before := [primary] + NonEmpty(xs[..i]);
    if xs[i] == "" {
      assert [primary] + NonEmpty(xs[..i + 1]) == before;
    } else {
      assert [primary] + NonEmpty(xs[..i + 1]) == before + [xs[i]];
      assert (before + [xs[i]])[..|before|] == before;
    }
  }

  method Namespaces(c: InstanceConfig) returns (out: seq<string>)
    ensures out == FirstOccurrences(Mentioned(c))
  {
    var primary := c.namespace;
    if primary == "" {
      primary := DEFAULT_NAMESPACE;
    }
    out := [primary];
    var seen := {primary};
    assert FirstOccurrences([primary]) == [primary];
    var xs := c.applicationNamespaces;
    for i := 0 to |xs|
      invariant out == FirstOccurrences([primary] + NonEmpty(xs[..i]))
      invariant seen == set x | x in out
    {
      OneMoreMention(primary, xs, i);
      if xs[i] != "" && xs[i] !in seen {
        seen := seen + {xs[i]};
        out := out + [xs[i]];
      }
    }
    assert xs[..|xs|] == xs;
  }

  lemma {:induction false} FirstIndexPrefix(front: seq<string>, last: string, x: string)
    requires x in front
    ensures FirstIndex(front + [last], x) == FirstIndex(front, x)
  {
    if front[0] != x {
      assert (front + [last])[1..] == front[1..] + [last];
      assert front == [front[0]] + front[1..];
      FirstIndexPrefix(front[1..], last, x);
    }
  }

  lemma {:induction false} FirstIndexLast(front: seq<string>, last: string)
    requires last !in front
    ensures FirstIndex(front + [last], last) == |front|
  {
    if front != [] {
      assert (front + [last])[1..] == front[1..] + [last];
      assert (front + [last])[0] == front[0] && front[0] in front;
      FirstIndexLast(front[1..], last);
    }
  }

  /** Duplicate-free, the same namespaces, in the order of their first mention. */
  lemma {:induction false} FirstOccurrencesExact(xs: seq<string>)
    ensures var r := FirstOccurrences(xs);
            && NoDuplicates(r)
            && (forall x :: x in r <==> x in xs)
            && (forall i, j :: 0 <= i < j < |r| && r[i] in xs && r[j] in xs ==>
                FirstIndex(xs, r[i]) < FirstIndex(xs, r[j]))
  {
    if xs != [] {
      var front, last := xs[..|xs| - 1], xs[|xs| - 1];
      FirstOccurrencesExact(front);
      var r, q := FirstOccurrences(xs), FirstOccurrences(front);
      assert xs == front + [last];
      forall x | x in front ensures x in xs && FirstIndex(xs, x) == FirstIndex(front, x) {
        FirstIndexPrefix(front, last, x);
      }
      forall i, j | 0 <= i < j < |r| && r[i] in xs && r[j] in xs ensures FirstIndex(xs, r[i]) < FirstIndex(xs, r[j]) {
        if j == |q| {
          assert r[j] == last && last !in front;
          FirstIndexLast(front, last);
          assert r[i] == q[i] && q[i] in front;
        } else {
          assert r[i] == q[i] && r[j] == q[j] && q[i] in front && q[j] in front;
        }
      }
    }
  }

  /** Namespaces() in one statement: the primary first, nothing twice, nothing missing, first-mention order. */
  lemma NamespacesExact(c: InstanceConfig)
    ensures var nss := FirstOccurrences(Mentioned(c));
            && |nss| > 0 && nss[0] == Primary(c) == (if c.namespace != "" then c.namespace else "argocd")
            && NoDuplicates(nss)
            && (forall x :: x in nss <==> x == Primary(c) || (x != "" && x in c.applicationNamespaces))
            && (forall i, j :: 0 <= i < j < |nss| && nss[i] in Mentioned(c) && nss[j] in Mentioned(c) ==>
                  FirstIndex(Mentioned(c), nss[i]) < FirstIndex(Mentioned(c), nss[j]))
  {
    FirstOccurrencesExact(Mentioned(c));
    FirstStays(Mentioned(c));
    forall x ensures x in NonEmpty(c.applicationNamespaces) <==> x != "" && x in c.applicationNamespaces {
      NonEmptyExact(c.applicationNamespaces, x);
    }
  }

  lemma {:induction false} FirstStays(xs: seq<string>)
    requires xs != []
    ensures FirstOccurrences(xs) != [] && FirstOccurrences(xs)[0] == xs[0]
  {
    if |xs| > 1 {
      FirstStays(xs[..|xs| - 1]);
    } else {
      assert xs[..0] == [];
      assert FirstOccurrences(xs[..0]) == [];
    }
  }

  lemma {:induction false} NonEmptyExact(xs: seq<string>, x: string)
    ensures x in NonEmpty(xs) <==> x != "" && x in xs
  {
    if xs != [] {
      NonEmptyExact(xs[..|xs| - 1], x);
      assert xs == xs[..|xs| - 1] + [xs[|xs| - 1]];
    }
  }

  // ----- Validation -----

  predicate ValidExplicit(c: InstanceConfig) {
    && (c.caFile != "" || c.caData != "" || c.insecure)
    && (c.tokenFile != "" || c.token != "")
    && !(c.insecure && (c.caFile != "" || c.caData != ""))
  }

  predicate ValidInstance(c: InstanceConfig) {
    && DnsLabel(c.name)
    && (c.namespace != "" ==> DnsLabel(c.namespace))
    && (forall i :: 0 <= i < |c.applicationNamespaces| ==> DnsLabel(c.applicationNamespaces[i]))
    && Mode(c).Ok?
    && (Mode(c).value == Explicit ==> ValidExplicit(c))
    && (Mode(c).value == Kubeconfig ==> c.context != "")
  }

  ghost predicate ValidInstances(ins: seq<InstanceConfig>) {
    && (forall i :: 0 <= i < |ins| ==> ValidInstance(ins[i]))
    && (forall i, j :: 0 <= i < j < |ins| ==> ins[i].name != ins[j].name)
  }

  function InstanceNames(ins: seq<InstanceConfig>): (names: seq<string>)
    ensures |names| == |ins|
    ensures forall i :: 0 <= i < |ins| ==> names[i] == ins[i].name
  {
    seq(|ins|, i requires 0 <= i < |ins| => ins[i].name)
  }

  predicate KnownLogLevel(l: string) {
    l == "debug" || l == "info" || l == "warn" || l == "error"
  }

  /** The first problem of one instance, the names of the instances before it given. */
  function InstanceProblem(c: InstanceConfig, seen: set<string>): Option<Problem> {
    if c.name == "" then Some(EmptyName)
    else if !DnsLabel(c.name) then Some(BadName)
    else if c.name in seen then Some(DuplicateName)
    else if c.namespace != "" && !DnsLabel(c.namespace) then Some(BadNamespace)
    else if exists i :: 0 <= i < |c.applicationNamespaces| && !DnsLabel(c.applicationNamespaces[i])
    then Some(BadApplicationNamespace)
    else if Mode(c).Err? then Some(BadMode(Mode(c).error))
    else if Mode(c).value == Explicit && c.caFile == "" && c.caData == "" && !c.insecure then Some(NoAuthority)
    else if Mode(c).value == Explicit && c.tokenFile == "" && c.token == "" then Some(NoToken)
    else if Mode(c).value == Explicit && c.insecure && (c.caFile != "" || c.caData != "")
    then Some(InsecureWithAuthority)
    else if Mode(c).value == Kubeconfig && c.context == "" then Some(NoContext)
    else None
  }

  function NamesBefore(ins: seq<InstanceConfig>, n: nat): set<string>
    requires n <= |ins|
  {
    set x | x in InstanceNames(ins[..n])
  }

  /** Instance n has problem p, and none before it has any. */
  predicate FirstProblemAt(ins: seq<InstanceConfig>, n: nat, p: Problem) {
    && n < |ins|
    && InstanceProblem(ins[n], NamesBefore(ins, n)) == Some(p)
    && forall k :: 0 <= k < n ==> InstanceProblem(ins[k], NamesBefore(ins, k)) == None
  }

  lemma InstanceFine(c: InstanceConfig, seen: set<string>)
    ensures InstanceProblem(c, seen) == None <==> ValidInstance(c) && c.name !in seen
  {
  }

  /** Check number n of one instance fails. */
  predicate FailsInstanceCheck(c: InstanceConfig, seen: set<string>, n: nat) {
    match n
    case 0 => c.name == ""
    case 1 => !DnsLabel(c.name)
    case 2 => c.name in seen
    case 3 => c.namespace != "" && !DnsLabel(c.namespace)
    case 4 => exists i :: 0 <= i < |c.applicationNamespaces| && !DnsLabel(c.applicationNamespaces[i])
    case 5 => Selected(c) != 1
    case 6 => c.server != "" && c.caFile == "" && c.caData == "" && !c.insecure
    case 7 => c.server != "" && c.tokenFile == "" && c.token == ""
    case 8 => c.server != "" && c.insecure && (c.caFile != "" || c.caData != "")
    case 9 => c.kubeconfigFile != "" && c.context == ""
    case _ => false
  }

  /** How many of the keys that select a mode are set. */
  function Selected(c: InstanceConfig): nat {
    (if c.inCluster then 1 else 0) + (if c.server != "" then 1 else 0) + (if c.kubeconfigFile != "" then 1 else 0)
  }

  function InstanceCheckOf(p: Problem): nat {
    match p
    case EmptyName => 0
    case BadName => 1
    case DuplicateName => 2
    case BadNamespace => 3
    case BadApplicationNamespace => 4
    case BadMode(_) => 5
    case NoAuthority => 6
    case NoToken => 7
    case InsecureWithAuthority => 8
    case NoContext => 9
    case _ => 10
  }

  /** An instance is accepted when no check fails, and otherwise the first that fails is reported. */
  lemma FirstInstanceProblem(c: InstanceConfig, seen: set<string>)
    ensures InstanceProblem(c, seen) == None <==> forall n: nat :: n < 10 ==> !FailsInstanceCheck(c, seen, n)
    ensures InstanceProblem(c, seen).Some? ==>
              var first := InstanceCheckOf(InstanceProblem(c, seen).value);
              && FailsInstanceCheck(c, seen, first)
              && forall n: nat :: n < first ==> !FailsInstanceCheck(c, seen, n)
    ensures InstanceProblem(c, seen) == Some(BadMode(NoMode)) ==> Selected(c) == 0
    ensures InstanceProblem(c, seen) == Some(BadMode(SeveralModes)) ==> Selected(c) > 1
  {
    SelectedIff(c);
    var p := InstanceProblem(c, seen);
    var first := if p.Some? then InstanceCheckOf(p.value) else 10;
    assert p.Some? ==> FailsInstanceCheck(c, seen, first);
    forall n: nat | n < first ensures !FailsInstanceCheck(c, seen, n) {
      assert n in {0, 1, 2, 3, 4, 5, 6, 7, 8, 9};
    }
  }

  /** The instances that are valid by themselves are those no check but the one for repeated names refuses. */
  lemma ValidInstanceIff(c: InstanceConfig)
    ensures ValidInstance(c) <==> forall n: nat :: n < 10 ==> !FailsInstanceCheck(c, {}, n)
  {
    InstanceFine(c, {});
    FirstInstanceProblem(c, {});
  }

  lemma SelectedIff(c: InstanceConfig)
    ensures Mode(c).Ok? <==> Selected(c) == 1
    ensures Mode(c) == Err(NoMode) <==> Selected(c) == 0
    ensures Mode(c) == Err(SeveralModes) <==> Selected(c) > 1
  {
    ModeExact(c);
  }

  function Or(s: string, fallback: string): string {
    if s == "" then fallback else s
  }

  // ----- Validation of the auth section -----

  predicate ServesMetadata(o: Oidc) {
    o.resourceMetadata == None || o.resourceMetadata.value
  }

  function ResourceIdentifier(o: Oidc): string {
    if o.uri != "" then o.uri else o.audience
  }

  /** `absolute` is the URL library's verdict: an absolute https URI with a host. */
  predicate ValidOidc(o: Oidc, absolute: string -> bool) {
    && "https://" <= o.issuer && o.audience != ""
    && (ServesMetadata(o) ==> absolute(ResourceIdentifier(o)) && '#' !in ResourceIdentifier(o))
  }

  predicate ValidToken(t: AuthToken) {
    t.name != "" && (t.token == "" <==> t.tokenFile != "")
  }

  ghost predicate ValidTokens(ts: seq<AuthToken>) {
    && (forall i :: 0 <= i < |ts| ==> ValidToken(ts[i]))
    && (forall i, j :: 0 <= i < j < |ts| ==> ts[i].name != ts[j].name)
  }

  ghost predicate ValidAuth(a: Auth, absolute: string -> bool) {
    a.enabled ==>
      && (a.staticEnabled || a.oidc.enabled)
      && (a.staticEnabled ==> a.tokens != [] && ValidTokens(a.tokens))
      && (a.oidc.enabled ==> ValidOidc(a.oidc, absolute))
  }

  function OidcProblem(o: Oidc, absolute: string -> bool): Option<AuthProblem> {
    if o.issuer == "" then Some(NoIssuer)
    else if !("https://" <= o.issuer) then Some(InsecureIssuer)
    else if o.audience == "" then Some(NoAudience)
    else if ServesMetadata(o) && (!absolute(ResourceIdentifier(o)) || '#' in ResourceIdentifier(o))
    then Some(BadResource)
    else None
  }

  /** The exact condition of each problem of the OIDC section. */
  lemma OidcProblemIff(o: Oidc, absolute: string -> bool)
    ensures var p, https := OidcProblem(o, absolute), "https://" <= o.issuer;
            var id := if o.uri != "" then o.uri else o.audience;
            var bad := o.resourceMetadata in {None, Some(true)} && (!absolute(id) || '#' in id);
            && (p == Some(NoIssuer) <==> o.issuer == "")
            && (p == Some(InsecureIssuer) <==> o.issuer != "" && !https)
            && (p == Some(NoAudience) <==> https && o.audience == "")
            && (p == Some(BadResource) <==> https && o.audience != "" && bad)
            && (p == None <==> https && o.audience != "" && !bad)
            && (p == None <==> ValidOidc(o, absolute))
  {
  }

  /** The tokens before n are fine together. */
  ghost predicate FineBefore(ts: seq<AuthToken>, n: nat)
    requires n <= |ts|
  {
    ValidTokens(ts[..n])
  }

  /** What is wrong with token n when those before it are fine. */
  ghost predicate TokenProblemAt(ts: seq<AuthToken>, p: AuthProblem) {
    match p
    case NamelessToken(n) => n < |ts| && FineBefore(ts, n) && ts[n].name == ""
    case DuplicateToken(n) =>
      n < |ts| && FineBefore(ts, n) && ts[n].name != "" && exists j :: 0 <= j < n && ts[j].name == ts[n].name
    case TokenForm(n) =>
      && n < |ts| && FineBefore(ts, n) && ts[n].name != "" && !ValidToken(ts[n])
      && forall j :: 0 <= j < n ==> ts[j].name != ts[n].name
    case _ => false
  }

  /** The first problem of the auth section, in the order of the checks. */
  ghost predicate FirstAuthProblem(a: Auth, absolute: string -> bool, p: AuthProblem) {
    a.enabled &&
    if !a.staticEnabled && !a.oidc.enabled then p == NoMethod
    else if a.staticEnabled && a.tokens == [] then p == NoTokens
    else if a.staticEnabled && !ValidTokens(a.tokens) then TokenProblemAt(a.tokens, p)
    else a.oidc.enabled && OidcProblem(a.oidc, absolute) == Some(p)
  }

  /** Check number n on the tokens fails; each token has three, for its name, for repeating one, and for its form. */
  predicate FailsTokenCheck(ts: seq<AuthToken>, n: nat) {
    var t := n / 3;
    t < |ts| &&
    if n % 3 == 0 then ts[t].name == ""
    else if n % 3 == 1 then exists j :: 0 <= j < t && ts[j].name == ts[t].name
    else (ts[t].token == "") == (ts[t].tokenFile == "")
  }

  function TokenCheckOf(p: AuthProblem): nat
    requires p.NamelessToken? || p.DuplicateToken? || p.TokenForm?
  {
    match p
    case NamelessToken(t) => 3 * t
    case DuplicateToken(t) => 3 * t + 1
    case TokenForm(t) => 3 * t + 2
  }

  lemma FineBeforeIff(ts: seq<AuthToken>, m: nat)
    requires m <= |ts|
    ensures FineBefore(ts, m) <==> forall n: nat :: n < 3 * m ==> !FailsTokenCheck(ts, n)
  {
    var few := ts[..m];
    if FineBefore(ts, m) {
      forall n: nat | n < 3 * m ensures !FailsTokenCheck(ts, n) {
        assert ValidToken(few[n / 3]);
      }
    }
    if forall n: nat :: n < 3 * m ==> !FailsTokenCheck(ts, n) {
      forall i | 0 <= i < m ensures ValidToken(few[i]) && forall j :: 0 <= j < i ==> few[j].name != few[i].name {
        assert !FailsTokenCheck(ts, 3 * i) && !FailsTokenCheck(ts, 3 * i + 1) && !FailsTokenCheck(ts, 3 * i + 2);
      }
    }
  }

  /** Tokens are accepted when no check fails, and otherwise the first that fails is reported. */
  lemma FirstTokenProblem(ts: seq<AuthToken>, p: AuthProblem)
    ensures ValidTokens(ts) <==> forall n: nat :: n < 3 * |ts| ==> !FailsTokenCheck(ts, n)
    ensures TokenProblemAt(ts, p) ==>
              FailsTokenCheck(ts, TokenCheckOf(p)) && forall n: nat :: n < TokenCheckOf(p) ==> !FailsTokenCheck(ts, n)
  {
    FineBeforeIff(ts, |ts|);
    assert ts[..|ts|] == ts;
    if TokenProblemAt(ts, p) {
      var m := TokenCheckOf(p) / 3;
      FineBeforeIff(ts, m);
      assert p.NamelessToken? || !FailsTokenCheck(ts, 3 * m);
      assert p.TokenForm? ==> !FailsTokenCheck(ts, 3 * m + 1);
    }
  }

  /** When authentication is on, some method must be, and each method that is on must be complete. */
  lemma AuthAccepted(a: Auth, absolute: string -> bool)
    ensures ValidAuth(a, absolute) <==>
            !a.enabled
            || ((a.staticEnabled || a.oidc.enabled)
                && (a.staticEnabled ==>
                    a.tokens != [] && forall n: nat :: n < 3 * |a.tokens| ==> !FailsTokenCheck(a.tokens, n))
                && (a.oidc.enabled ==> OidcProblem(a.oidc, absolute) == None))
    ensures FirstAuthProblem(a, absolute, NoMethod) <==> a.enabled && !a.staticEnabled && !a.oidc.enabled
    ensures FirstAuthProblem(a, absolute, NoTokens) <==> a.enabled && a.staticEnabled && a.tokens == []
    ensures forall p :: p in {NoIssuer, InsecureIssuer, NoAudience, BadResource} ==>
              (FirstAuthProblem(a, absolute, p) <==>
               && a.enabled && a.oidc.enabled && OidcProblem(a.oidc, absolute) == Some(p)
               && (a.staticEnabled ==> a.tokens != [] && ValidTokens(a.tokens)))
  {
    FirstTokenProblem(a.tokens, NoMethod);
    OidcProblemIff(a.oidc, absolute);
  }

  method CheckTokens(ts: seq<AuthToken>) returns (problem: Option<AuthProblem>)
    ensures problem == None <==> ValidTokens(ts)
    ensures problem.Some? ==> TokenProblemAt(ts, problem.value)
  {
    var names := {};
    for i := 0 to |ts|
      invariant FineBefore(ts, i)
      invariant forall x :: x in names <==> exists j :: 0 <= j < i && ts[j].name == x
    {
      assert ts[..i + 1] == ts[..i] + [ts[i]];
      if ts[i].name == "" {
        return Some(NamelessToken(i));
      }
      if ts[i].name in names {
        return Some(DuplicateToken(i));
      }
      names := names + {ts[i].name};
      if (ts[i].token == "") == (ts[i].tokenFile == "") {
        return Some(TokenForm(i));
      }
    }
    assert ts[..|ts|] == ts;
    return None;
  }

  method ValidateAuth(a: Auth, absolute: string -> bool) returns (problem: Option<AuthProblem>)
    ensures problem == None <==> ValidAuth(a, absolute)
    ensures problem.Some? ==> FirstAuthProblem(a, absolute, problem.value)
  {
    if !a.enabled {
      return None;
    }
    if !a.staticEnabled && !a.oidc.enabled {
      return Some(NoMethod);
    }
    if a.staticEnabled {
      if |a.tokens| == 0 {
        return Some(NoTokens);
      }
      var p := CheckTokens(a.tokens);
      if p.Some? {
        return p;
      }
    }
    if a.oidc.enabled {
      if a.oidc.issuer == "" {
        return Some(NoIssuer);
      }
      if !("https://" <= a.oidc.issuer) {
        return Some(InsecureIssuer);
      }
      if a.oidc.audience == "" {
        return Some(NoAudience);
      }
      if ServesMetadata(a.oidc) {
        var id := ResourceIdentifier(a.oidc);
        if !absolute(id) || '#' in id {
          return Some(BadResource);
        }
      }
    }
    return None;
  }

  /** The configuration as the file and the environment fill it. */
  class Config {
    var listenAddr: string
    var metricsAddr: string
    var logLevel: string
    var readOnly: bool
    var defaultInstance: string
    var instances: seq<InstanceConfig>
    var auth: Auth

    constructor (listenAddr: string, metricsAddr: string, logLevel: string, readOnly: bool, defaultInstance: string,
                 instances: seq<InstanceConfig>, auth: Auth)
      ensures this.listenAddr == listenAddr && this.metricsAddr == metricsAddr
      ensures this.logLevel == logLevel && this.readOnly == readOnly
      ensures this.defaultInstance == defaultInstance && this.instances == instances && this.auth == auth
    {
      this.listenAddr, this.metricsAddr, this.logLevel, this.readOnly := listenAddr, metricsAddr, logLevel, readOnly;
      this.defaultInstance, this.instances, this.auth := defaultInstance, instances, auth;
    }

    /** Everything Validate promises. */
    ghost predicate Valid(absolute: string -> bool)
      reads this
    {
      && KnownLogLevel(logLevel)
      && instances != [] && ValidInstances(instances)
      && defaultInstance != "" && defaultInstance in InstanceNames(instances)
      && ValidAuth(auth, absolute)
    }

    method DefaultNamespaces()
      modifies this`instances
      ensures |instances| == |old(instances)|
      ensures forall i :: 0 <= i < |instances| ==>
                instances[i] == old(instances)[i].(namespace := Primary(old(instances)[i]))
    {
      for i := 0 to |instances|
        invariant |instances| == |old(instances)|
        invariant forall k :: 0 <= k < i ==> instances[k] == old(instances)[k].(namespace := Primary(old(instances)[k]))
        invariant forall k :: i <= k < |instances| ==> instances[k] == old(instances)[k]
      {
        if instances[i].namespace == "" {
          instances := instances[i := instances[i].(namespace := DEFAULT_NAMESPACE)];
        }
      }
    }

    method DefaultClaims()
      modifies this`auth
      ensures var o := old(auth.oidc);
        auth == old(auth).(oidc := o.(groupsClaim := Or(o.groupsClaim, "groups"),
                                      usernameClaim := Or(o.usernameClaim, "preferred_username")))
    {
      if auth.oidc.groupsClaim == "" {
        auth := auth.(oidc := auth.oidc.(groupsClaim := "groups"));
      }
      if auth.oidc.usernameClaim == "" {
        auth := auth.(oidc := auth.oidc.(usernameClaim := "preferred_username"));
      }
    }

    /** Fills what is empty, and nothing else. */
    method ApplyDefaults()
      modifies this
      ensures listenAddr == Or(old(listenAddr), "0.0.0.0:9090") && metricsAddr == Or(old(metricsAddr), ":9091")
      ensures logLevel == Or(old(logLevel), "info") && readOnly == old(readOnly)
      ensures |instances| == |old(instances)|
      ensures forall i :: 0 <= i < |instances| ==>
                instances[i] == old(instances)[i].(namespace := Primary(old(instances)[i]))
      ensures defaultInstance ==
              if old(defaultInstance) == "" && |instances| == 1 then instances[0].name else old(defaultInstance)
      ensures var o := old(auth.oidc);
        auth == old(auth).(oidc := o.(groupsClaim := Or(o.groupsClaim, "groups"),
                                      usernameClaim := Or(o.usernameClaim, "preferred_username")))
    {
      if listenAddr == "" {
        listenAddr := "0.0.0.0:9090";
      }
      if metricsAddr == "" {
        metricsAddr := ":9091";
      }
      if logLevel == "" {
        logLevel := "info";
      }
      DefaultNamespaces();
      if defaultInstance == "" && |instances| == 1 {
        defaultInstance := instances[0].name;
      }
      DefaultClaims();
    }

    /** Returns the first violation; accepts exactly the valid configurations. */
    method Validate(absolute: string -> bool) returns (problem: Option<Problem>)
      ensures problem == None <==> Valid(absolute)
      ensures logLevel !in {"debug", "info", "warn", "error"} ==> problem == Some(BadLogLevel)
      ensures logLevel in {"debug", "info", "warn", "error"} && instances == [] ==> problem == Some(NoInstances)
      ensures logLevel in {"debug", "info", "warn", "error"} && instances != [] && !ValidInstances(instances) ==>
              problem.Some? && exists n: nat :: FirstProblemAt(instances, n, problem.value)
      ensures logLevel in {"debug", "info", "warn", "error"} && instances != [] && ValidInstances(instances) ==>
              if defaultInstance == "" then problem == Some(NoDefault)
              else if defaultInstance !in InstanceNames(instances) then problem == Some(UnknownDefault)
              else problem.Some? ==> problem.value.BadAuth? && FirstAuthProblem(auth, absolute, problem.value.a)
    {
      if logLevel != "debug" && logLevel != "info" && logLevel != "warn" && logLevel != "error" {
        return Some(BadLogLevel);
      }
      if |instances| == 0 {
        return Some(NoInstances);
      }
      var p := CheckInstances(instances);
      if p.Some? {
        return p;
      }
      var seen := set x | x in InstanceNames(instances);
      if defaultInstance == "" {
        return Some(NoDefault);
      }
      if defaultInstance !in seen {
        return Some(UnknownDefault);
      }
      var bad := ValidateAuth(auth, absolute);
      if bad.Some? {
        return Some(BadAuth(bad.value));
      }
      return None;
    }
  }

  lemma NamesMore(ins: seq<InstanceConfig>, n: nat)
    requires n < |ins|
    ensures InstanceNames(ins[..n + 1]) == InstanceNames(ins[..n]) + [ins[n].name]
  {
  }

  lemma NamesGrow(ins: seq<InstanceConfig>, n: nat)
    requires n < |ins|
    ensures NamesBefore(ins, n + 1) == NamesBefore(ins, n) + {ins[n].name}
  {
    NamesMore(ins, n);
  }

  lemma SeenIff(ins: seq<InstanceConfig>, n: nat)
    requires n < |ins|
    ensures ins[n].name in NamesBefore(ins, n) <==> exists j :: 0 <= j < n && ins[j].name == ins[n].name
  {
    forall j | 0 <= j < n ensures InstanceNames(ins[..n])[j] == ins[j].name {}
  }

  /** The loop finds a problem exactly when the instances are not valid together. */
  lemma NoProblemIff(ins: seq<InstanceConfig>)
    ensures ValidInstances(ins) <==> forall n :: 0 <= n < |ins| ==> InstanceProblem(ins[n], NamesBefore(ins, n)) == None
  {
    forall n | 0 <= n < |ins|
      ensures InstanceProblem(ins[n], NamesBefore(ins, n)) == None <==>
              ValidInstance(ins[n]) && forall j :: 0 <= j < n ==> ins[j].name != ins[n].name
    {
      InstanceFine(ins[n], NamesBefore(ins, n));
      SeenIff(ins, n);
    }
  }

  method CheckInstances(ins: seq<InstanceConfig>) returns (problem: Option<Problem>)
    ensures problem == None <==> ValidInstances(ins)
    ensures problem.Some? ==> exists n: nat :: FirstProblemAt(ins, n, problem.value)
  {
    NoProblemIff(ins);
    var seen := {};
    for n := 0 to |ins|
      invariant seen == NamesBefore(ins, n)
      invariant forall k :: 0 <= k < n ==> InstanceProblem(ins[k], NamesBefore(ins, k)) == None
    {
      var p := CheckInstance(ins[n], seen);
      if p.Some? {
        assert FirstProblemAt(ins, n, p.value);
        return p;
      }
      NamesGrow(ins, n);
      seen := seen + {ins[n].name};
    }
    return None;
  }

  /** The checks on one instance, in their order. */
  method CheckInstance(c: InstanceConfig, seen: set<string>) returns (problem: Option<Problem>)
    ensures problem == InstanceProblem(c, seen)
  {
    if c.name == "" {
      return Some(EmptyName);
    }
    if !DnsLabel(c.name) {
      return Some(BadName);
    }
    if c.name in seen {
      return Some(DuplicateName);
    }
    if c.namespace != "" && !DnsLabel(c.namespace) {
      return Some(BadNamespace);
    }
    for i := 0 to |c.applicationNamespaces|
      invariant forall k :: 0 <= k < i ==> DnsLabel(c.applicationNamespaces[k])
    {
      if !DnsLabel(c.applicationNamespaces[i]) {
        return Some(BadApplicationNamespace);
      }
    }
    var mode := Mode(c);
    if mode.Err? {
      return Some(BadMode(mode.error));
    }
    match mode.value {
      case Explicit =>
        if c.caFile == "" && c.caData == "" && !c.insecure {
          return Some(NoAuthority);
        }
        if c.tokenFile == "" && c.token == "" {
          return Some(NoToken);
        }
        if c.insecure && (c.caFile != "" || c.caData != "") {
          return Some(InsecureWithAuthority);
        }
      case Kubeconfig =>
        if c.context == "" {
          return Some(NoContext);
        }
      case InCluster =>
    }
    return None;
  }
}
