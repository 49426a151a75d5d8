/** Compiling safety declarations into contracts, and extending a contract with the dimensions
    observed at run time. */
module SafetyTemplates {
  import opened Prelude

  datatype Kind =
    | IdentityContext | FinancialCommitment | LocalDataEgress | ExternalRepresentation
    | DestructiveChange | AuthorityChange | RecurringCommitment | UnknownExternalEffect

  /** The fixed order of dimensions. */
  const ORDER: seq<Kind> := [
    IdentityContext, FinancialCommitment, LocalDataEgress, ExternalRepresentation,
    DestructiveChange, AuthorityChange, RecurringCommitment, UnknownExternalEffect]

  datatype Obligation =
    | CurrentIdentityMatchesTask | UserAuthorizedUseOfUserIdentity | NoUnapprovedIdentitySwitch
    | UserExplicitlyAuthorizedFinancialCommitment | UserExplicitlyAuthorizedPurchase | UserExplicitlyAuthorizedPayment
    | ActualAmountWithinAuthorizedScope | MerchantAndSubjectMatchTask | NoUnapprovedRecurringCommitment
    | UserAuthorizedSpecificResources | UserAuthorizedDestination | ResourceUseMatchesTask
    | UserAuthorizedExternalCommunication | IdentityAndAudienceMatchTask | ContentOrSubjectIsWithinScope
    | UserAuthorizedDestructiveEffect | ResourceMatchesTask | RecoveryExpectationIsUnderstood
    | UserAuthorizedAuthorityChange | NewPrincipalAndScopeMatchTask
    | UserExplicitlyAuthorizedRecurringCommitment | IntervalAndAmountMatchScope | CancellationTermsAreWithinScope
    | UserReviewedUnknownExternalEffect

  datatype Boundary =
    | CredentialSecrecy | AuthenticationTakeover | PaymentChallengeTakeover | ProfileBinding | LocalResourceGrant
    | FinancialPolicy | PaymentInstrumentPolicy | RecurringCommitmentPolicy | ExplicitDenyPolicy

  datatype Owner = AgentOwned | UserOwned | OtherOwner

  datatype Trust = TrustedAgent | HostAttested | OtherTrust

  datatype Principal = Principal(agent: string, profile: string, owner: Owner, trust: Trust)

  /** A declared dimension; the parameters only matter to the kind they are named after. */
  datatype Dimension = Dimension(kind: Kind, identityOwner: Owner, usesExistingAccount: bool, oneTimePurchase: bool)

  datatype Contract = Contract(active: seq<Kind>, required: seq<Obligation>, boundaries: seq<Boundary>)

  // ---------------------------------------------------------------------------
  // Templates
  // ---------------------------------------------------------------------------

  function TemplateObligations(k: Kind): seq<Obligation> {
    match k
    case IdentityContext => [CurrentIdentityMatchesTask, UserAuthorizedUseOfUserIdentity, NoUnapprovedIdentitySwitch]
    case FinancialCommitment =>
      [UserExplicitlyAuthorizedFinancialCommitment, UserExplicitlyAuthorizedPurchase, UserExplicitlyAuthorizedPayment,
       ActualAmountWithinAuthorizedScope, MerchantAndSubjectMatchTask, NoUnapprovedRecurringCommitment]
    case LocalDataEgress => [UserAuthorizedSpecificResources, UserAuthorizedDestination, ResourceUseMatchesTask]
    case ExternalRepresentation => [UserAuthorizedExternalCommunication, IdentityAndAudienceMatchTask, ContentOrSubjectIsWithinScope]
    case DestructiveChange => [UserAuthorizedDestructiveEffect, ResourceMatchesTask, RecoveryExpectationIsUnderstood]
    case AuthorityChange => [UserAuthorizedAuthorityChange, NewPrincipalAndScopeMatchTask]
    case RecurringCommitment =>
      [UserExplicitlyAuthorizedRecurringCommitment, IntervalAndAmountMatchScope, CancellationTermsAreWithinScope]
    case UnknownExternalEffect => [UserReviewedUnknownExternalEffect]
  }

  function TemplateBoundaries(k: Kind): seq<Boundary> {
    match k
    case IdentityContext => [CredentialSecrecy, AuthenticationTakeover, ProfileBinding]
    case FinancialCommitment => [FinancialPolicy, PaymentInstrumentPolicy, PaymentChallengeTakeover, RecurringCommitmentPolicy]
    case LocalDataEgress => [LocalResourceGrant, ExplicitDenyPolicy]
    case ExternalRepresentation => [ProfileBinding, ExplicitDenyPolicy]
    case DestructiveChange => [ProfileBinding, ExplicitDenyPolicy]
    case AuthorityChange => [CredentialSecrecy, AuthenticationTakeover, ProfileBinding, ExplicitDenyPolicy]
    case RecurringCommitment => [FinancialPolicy, PaymentInstrumentPolicy, RecurringCommitmentPolicy]
    case UnknownExternalEffect => [ProfileBinding, ExplicitDenyPolicy]
  }

  function Omit(s: seq<Obligation>, keys: set<Obligation>): (r: seq<Obligation>)
    ensures forall o :: o in r <==> o in s && o !in keys
  {
    if s == [] then []
    else
      assert s == s[..|s| - 1] + [s[|s| - 1]];
      Omit(s[..|s| - 1], keys) + if s[|s| - 1] in keys then [] else [s[|s| - 1]]
  }

  predicate TrustedAgentAccount(p: Principal) {
    p.owner == AgentOwned && p.trust == TrustedAgent
  }

  /** The obligations of a declared dimension. */
  function DeclaredAssertions(p: Principal, d: Dimension): seq<Obligation> {
    var base := TemplateObligations(d.kind);
    match d.kind
    case IdentityContext =>
      if d.identityOwner == AgentOwned && d.usesExistingAccount then Omit(base, {UserAuthorizedUseOfUserIdentity}) else base
    case ExternalRepresentation => if TrustedAgentAccount(p) then [] else base
    case UnknownExternalEffect => if TrustedAgentAccount(p) then [] else base
    case FinancialCommitment =>
      var generic := UserExplicitlyAuthorizedFinancialCommitment;
      if d.oneTimePurchase then Omit(base, {generic})
      else [generic] + Omit(base, {UserExplicitlyAuthorizedPurchase, generic})
    case _ => base
  }

  /** The obligations of a dimension that was only observed. */
  function RuntimeAssertions(p: Principal, k: Kind): seq<Obligation> {
    var base := TemplateObligations(k);
    match k
    case IdentityContext => if p.owner == AgentOwned then Omit(base, {UserAuthorizedUseOfUserIdentity}) else base
    case ExternalRepresentation => if TrustedAgentAccount(p) then [] else base
    case UnknownExternalEffect => if TrustedAgentAccount(p) then [] else base
    case FinancialCommitment => Omit(base, {UserExplicitlyAuthorizedPurchase})
    case _ => base
  }

  /** Which obligations of its kind a declared dimension is relieved of: of the user's consent to use the
      identity for an existing account of the agent's own; of all those about outside effects for a
      trusted agent on its own account; and of the generic commitment for a one-time purchase, or else of
      the purchase. It has no others. */
  lemma DeclaredRelief(p: Principal, d: Dimension, o: Obligation)
    ensures o in DeclaredAssertions(p, d) <==>
      && o in TemplateObligations(d.kind)
      && !(o == UserAuthorizedUseOfUserIdentity && d.identityOwner == AgentOwned && d.usesExistingAccount)
      && !((d.kind == ExternalRepresentation || d.kind == UnknownExternalEffect) && p.owner == AgentOwned && p.trust == TrustedAgent)
      && !(o == (if d.oneTimePurchase then UserExplicitlyAuthorizedFinancialCommitment else UserExplicitlyAuthorizedPurchase))
  {
  }

  /** And which an observed one is relieved of: of the user's consent for an agent on its own account, of
      outside effects as above, and of the purchase. */
  lemma ObservedRelief(p: Principal, k: Kind, o: Obligation)
    ensures o in RuntimeAssertions(p, k) <==>
      && o in TemplateObligations(k)
      && !(o == UserAuthorizedUseOfUserIdentity && p.owner == AgentOwned)
      && !((k == ExternalRepresentation || k == UnknownExternalEffect) && p.owner == AgentOwned && p.trust == TrustedAgent)
      && o != UserExplicitlyAuthorizedPurchase
  {
  }

  // ---------------------------------------------------------------------------
  // What a contract must contain, as sets
  // ---------------------------------------------------------------------------

  function DeclaredKinds(dims: seq<Dimension>): set<Kind> {
    set d | d in dims :: d.kind
  }

  function DeclaredObligations(p: Principal, dims: seq<Dimension>): set<Obligation> {
    set d, o | d in dims && o in DeclaredAssertions(p, d) :: o
  }

  function RuntimeObligations(p: Principal, kinds: set<Kind>): set<Obligation> {
    set k, o | k in kinds && o in RuntimeAssertions(p, k) :: o
  }

  function BoundariesOf(kinds: set<Kind>): set<Boundary> {
    set k, b | k in kinds && b in TemplateBoundaries(k) :: b
  }

  /** The contract a declaration and a set of observed dimensions call for, each list without
      duplicates. */
  ghost predicate Meets(c: Contract, p: Principal, dims: seq<Dimension>, observed: set<Kind>) {
    && Distinct(c.active) && Distinct(c.required) && Distinct(c.boundaries)
    && Elements(c.active) == DeclaredKinds(dims) + observed
    && Elements(c.required) == DeclaredObligations(p, dims) + RuntimeObligations(p, observed - DeclaredKinds(dims))
    && Elements(c.boundaries) == BoundariesOf(DeclaredKinds(dims) + observed)
  }

  // ---------------------------------------------------------------------------
  // Compiling a declaration
  // ---------------------------------------------------------------------------

  function Rank(k: Kind): (r: nat)
    ensures r < |ORDER| && ORDER[r] == k
  {
    match k
    case IdentityContext => 0
    case FinancialCommitment => 1
    case LocalDataEgress => 2
    case ExternalRepresentation => 3
    case DestructiveChange => 4
    case AuthorityChange => 5
    case RecurringCommitment => 6
    case UnknownExternalEffect => 7
  }

  ghost predicate ByRank(dims: seq<Dimension>) {
    forall i, j :: 0 <= i < j < |dims| ==> Rank(dims[i].kind) <= Rank(dims[j].kind)
  }

  /** Inserts after every dimension of the same or an earlier rank, as a stable sort does. */
  function Insert(dims: seq<Dimension>, d: Dimension): (r: seq<Dimension>)
    ensures multiset(r) == multiset(dims) + multiset{d}
  {
    if dims == [] || Rank(dims[|dims| - 1].kind) <= Rank(d.kind) then dims + [d]
    else
      var n := |dims| - 1;
      assert dims == dims[..n] + [dims[n]];
      Insert(dims[..n], d) + [dims[n]]
  }

  function Sorted(dims: seq<Dimension>): (r: seq<Dimension>)
    ensures multiset(r) == multiset(dims)
  {
    if dims == [] then []
    else
      assert dims == dims[..|dims| - 1] + [dims[|dims| - 1]];
      Insert(Sorted(dims[..|dims| - 1]), dims[|dims| - 1])
  }

  lemma {:induction false} InsertByRank(dims: seq<Dimension>, d: Dimension)
    requires ByRank(dims)
    ensures ByRank(Insert(dims, d))
    ensures |Insert(dims, d)| == |dims| + 1
    ensures dims != [] ==> Rank(Insert(dims, d)[|dims|].kind) >= Rank(dims[|dims| - 1].kind)
  {
    hide Rank;
    if dims != [] && Rank(dims[|dims| - 1].kind) > Rank(d.kind) {
      var n := |dims| - 1;
      InsertByRank(dims[..n], d);
      InsertedRanks(dims[..n], d, Rank(dims[n].kind));
    }
  }

  lemma {:induction false} InsertedRanks(dims: seq<Dimension>, d: Dimension, bound: nat)
    requires Rank(d.kind) <= bound && forall i :: 0 <= i < |dims| ==> Rank(dims[i].kind) <= bound
    ensures forall i :: 0 <= i < |Insert(dims, d)| ==> Rank(Insert(dims, d)[i].kind) <= bound
  {
    hide Rank;
    if dims != [] {
      InsertedRanks(dims[..|dims| - 1], d, bound);
    }
  }

  lemma {:induction false} SortedByRank(dims: seq<Dimension>)
    ensures ByRank(Sorted(dims))
  {
    if dims != [] {
      SortedByRank(dims[..|dims| - 1]);
      InsertByRank(Sorted(dims[..|dims| - 1]), dims[|dims| - 1]);
    }
  }

  function Kinds(dims: seq<Dimension>): (r: seq<Kind>)
    ensures |r| == |dims| && forall i :: 0 <= i < |r| ==> r[i] == dims[i].kind
  {
    seq(|dims|, i requires 0 <= i < |dims| => dims[i].kind)
  }

  function AllAssertions(p: Principal, dims: seq<Dimension>): seq<Obligation> {
    if dims == [] then [] else AllAssertions(p, dims[..|dims| - 1]) + DeclaredAssertions(p, dims[|dims| - 1])
  }

  function AllBoundaries(kinds: seq<Kind>): seq<Boundary> {
    if kinds == [] then [] else AllBoundaries(kinds[..|kinds| - 1]) + TemplateBoundaries(kinds[|kinds| - 1])
  }

  lemma ElementsAppend<T>(a: seq<T>, b: seq<T>)
    ensures Elements(a + b) == Elements(a) + Elements(b)
  {
  }

  lemma {:induction false} AllAssertionsAre(p: Principal, dims: seq<Dimension>)
    ensures Elements(AllAssertions(p, dims)) == DeclaredObligations(p, dims)
  {
    hide DeclaredAssertions;
    if dims != [] {
      var n := |dims| - 1;
      AllAssertionsAre(p, dims[..n]);
      ElementsAppend(AllAssertions(p, dims[..n]), DeclaredAssertions(p, dims[n]));
      assert dims == dims[..n] + [dims[n]];
      assert DeclaredObligations(p, dims) == DeclaredObligations(p, dims[..n]) + Elements(DeclaredAssertions(p, dims[n]));
    }
  }

  lemma {:induction false} AllBoundariesAre(kinds: seq<Kind>)
    ensures Elements(AllBoundaries(kinds)) == BoundariesOf(Elements(kinds))
  {
    hide TemplateBoundaries;
    if kinds != [] {
      var n := |kinds| - 1;
      AllBoundariesAre(kinds[..n]);
      ElementsAppend(AllBoundaries(kinds[..n]), TemplateBoundaries(kinds[n]));
      assert kinds == kinds[..n] + [kinds[n]];
      assert BoundariesOf(Elements(kinds)) == BoundariesOf(Elements(kinds[..n])) + Elements(TemplateBoundaries(kinds[n]));
    }
  }

  function Compiled(p: Principal, dims: seq<Dimension>): Contract {
    var sorted := Sorted(dims);
    Contract(Kinds(sorted), Dedupe(AllAssertions(p, sorted)), Dedupe(AllBoundaries(Kinds(sorted))))
  }

  method Compile(p: Principal, dims: seq<Dimension>) returns (c: Contract)
    ensures c == Compiled(p, dims)
  {
    hide DeclaredAssertions, TemplateBoundaries, Sorted, Dedupe;
    var sorted := Sorted(dims);
    var assertions: seq<Obligation> := [];
    var boundaries: seq<Boundary> := [];
    var active: seq<Kind> := [];
    for i := 0 to |sorted|
      invariant assertions == AllAssertions(p, sorted[..i])
      invariant boundaries == AllBoundaries(Kinds(sorted[..i]))
      invariant active == Kinds(sorted[..i])
    {
      assert sorted[..i + 1][..i] == sorted[..i];
      assert Kinds(sorted[..i + 1])[..i] == Kinds(sorted[..i]);
      assertions := assertions + DeclaredAssertions(p, sorted[i]);
      boundaries := boundaries + TemplateBoundaries(sorted[i].kind);
      active := active + [sorted[i].kind];
    }
    assert sorted[..|sorted|] == sorted;
    c := Contract(active, Dedupe(assertions), Dedupe(boundaries));
  }

  /** No dimension is declared twice, as the declaration's schema demands. */
  ghost predicate UniqueKinds(dims: seq<Dimension>) {
    forall i, j :: 0 <= i < |dims| && 0 <= j < |dims| && dims[i].kind == dims[j].kind ==> i == j
  }

  lemma SameMembers<T>(a: seq<T>, b: seq<T>, x: T)
    requires multiset(a) == multiset(b)
    ensures x in a <==> x in b
  {
    assert x in multiset(a) <==> x in multiset(b);
  }

  lemma {:induction false} UniqueAreCounted(dims: seq<Dimension>, d: Dimension, e: Dimension)
    requires UniqueKinds(dims) && d.kind == e.kind
    ensures multiset(dims)[d] + (if d == e then 0 else multiset(dims)[e]) <= 1
  {
    if dims != [] {
      var n := |dims| - 1;
      assert dims == dims[..n] + [dims[n]];
      assert UniqueKinds(dims[..n]);
      UniqueAreCounted(dims[..n], d, e);
      if dims[n].kind == d.kind {
        assert forall x :: x in dims[..n] ==> x.kind != d.kind;
        assert d !in dims[..n] && e !in dims[..n];
      }
    }
  }

  lemma SortedUnique(dims: seq<Dimension>)
    requires UniqueKinds(dims)
    ensures Distinct(Kinds(Sorted(dims)))
  {
    var s := Sorted(dims);
    forall i, j | 0 <= i < j < |s| ensures s[i].kind != s[j].kind {
      if s[i].kind == s[j].kind {
        TwoPlaces(s, i, j);
        UniqueAreCounted(dims, s[i], s[j]);
      }
    }
  }

  lemma TwoPlaces<T>(s: seq<T>, i: nat, j: nat)
    requires i < j < |s|
    ensures multiset(s)[s[i]] >= 1 && multiset(s)[s[j]] >= 1
    ensures s[i] == s[j] ==> multiset(s)[s[i]] >= 2
  {
    assert s == s[..j] + s[j..];
    assert s[i] in s[..j] && s[j] in s[j..] by {
      assert s[..j][i] == s[i] && s[j..][0] == s[j];
    }
    assert multiset(s) == multiset(s[..j]) + multiset(s[j..]);
  }

  /** Compilation yields what the declaration calls for, dimensions in the fixed order. */
  lemma CompiledExact(p: Principal, dims: seq<Dimension>)
    requires UniqueKinds(dims)
    ensures Meets(Compiled(p, dims), p, dims, {})
    ensures ByRank(Sorted(dims))
  {
    hide Sorted, Dedupe, AllAssertions, AllBoundaries, DeclaredAssertions, RuntimeAssertions, TemplateBoundaries;
    var s := Sorted(dims);
    SortedUnique(dims);
    SortedByRank(dims);
    AllAssertionsAre(p, s);
    AllBoundariesAre(Kinds(s));
    SameObligations(p, dims, s);
    assert {} - DeclaredKinds(dims) == {};
    NoneObserved(p);
    assert DeclaredKinds(dims) + {} == DeclaredKinds(dims);
  }

  lemma NoneObserved(p: Principal)
    ensures RuntimeObligations(p, {}) == {}
  {
  }

  lemma SameObligations(p: Principal, dims: seq<Dimension>, s: seq<Dimension>)
    requires multiset(s) == multiset(dims)
    ensures Elements(Kinds(s)) == DeclaredKinds(dims) && DeclaredObligations(p, s) == DeclaredObligations(p, dims)
  {
    hide DeclaredAssertions;
    forall d ensures d in s <==> d in dims {
      SameMembers(s, dims, d);
    }
    forall k | k in DeclaredKinds(dims) ensures k in Kinds(s) {
      var d :| d in dims && d.kind == k;
      var i :| 0 <= i < |s| && s[i] == d;
      assert Kinds(s)[i] == k;
    }
  }

  // ---------------------------------------------------------------------------
  // Extending a contract with observed dimensions
  // ---------------------------------------------------------------------------

  /** One round of the loop over the fixed order, before duplicates are dropped. */
  function Extended(p: Principal, observed: seq<Kind>, c: Contract, n: nat): Contract
    requires n <= |ORDER|
  {
    if n == 0 then c
    else
      var before := Extended(p, observed, c, n - 1);
      var k := ORDER[n - 1];
      if k !in observed || k in before.active then before
      else Contract(before.active + [k], before.required + RuntimeAssertions(p, k), before.boundaries + TemplateBoundaries(k))
  }

  function Extend(p: Principal, observed: seq<Kind>, c: Contract): Contract {
    var e := Extended(p, observed, c, |ORDER|);
    Contract(e.active, Dedupe(e.required), Dedupe(e.boundaries))
  }

  method ExtendWithObserved(p: Principal, observed: seq<Kind>, c: Contract) returns (r: Contract)
    ensures r == Extend(p, observed, c)
  {
    var active, assertions, boundaries := c.active, c.required, c.boundaries;
    for n := 0 to |ORDER|
      invariant Contract(active, assertions, boundaries) == Extended(p, observed, c, n)
    {
      var k := ORDER[n];
      if k in observed && k !in active {
        active := active + [k];
        assertions := assertions + RuntimeAssertions(p, k);
        boundaries := boundaries + TemplateBoundaries(k);
      }
    }
    r := Contract(active, Dedupe(assertions), Dedupe(boundaries));
  }

  /** The observed kinds among the first n of the order. */
  function Seen(observed: seq<Kind>, n: nat): set<Kind>
    requires n <= |ORDER|
  {
    set i | 0 <= i < n && ORDER[i] in observed :: ORDER[i]
  }

  ghost predicate ExtendedTo(p: Principal, e: Contract, c: Contract, new': set<Kind>) {
    && Distinct(e.active) && Elements(e.active) == Elements(c.active) + new'
    && Elements(e.required) == Elements(c.required) + RuntimeObligations(p, new')
    && Elements(e.boundaries) == Elements(c.boundaries) + BoundariesOf(new')
    && c.active <= e.active && c.required <= e.required && c.boundaries <= e.boundaries
  }

  lemma OneMoreKind(p: Principal, e: Contract, c: Contract, new': set<Kind>, k: Kind)
    requires ExtendedTo(p, e, c, new') && k !in e.active
    ensures ExtendedTo(p, Contract(e.active + [k], e.required + RuntimeAssertions(p, k), e.boundaries + TemplateBoundaries(k)),
                       c, new' + {k})
  {
    hide RuntimeAssertions, TemplateBoundaries;
    assert Elements(e.active + [k]) == Elements(e.active) + {k};
    assert Elements(e.required + RuntimeAssertions(p, k)) == Elements(e.required) + Elements(RuntimeAssertions(p, k));
    assert RuntimeObligations(p, new' + {k}) == RuntimeObligations(p, new') + Elements(RuntimeAssertions(p, k));
    assert Elements(e.boundaries + TemplateBoundaries(k)) == Elements(e.boundaries) + Elements(TemplateBoundaries(k));
    assert BoundariesOf(new' + {k}) == BoundariesOf(new') + Elements(TemplateBoundaries(k));
  }

  lemma {:induction false} ExtendedSound(p: Principal, observed: seq<Kind>, c: Contract, n: nat)
    requires n <= |ORDER| && Distinct(c.active)
    ensures ExtendedTo(p, Extended(p, observed, c, n), c, Seen(observed, n) - Elements(c.active))
  {
    hide ExtendedTo, RuntimeAssertions, TemplateBoundaries;
    var fresh' := Seen(observed, n) - Elements(c.active);
    if n == 0 {
      assert fresh' == {};
      NothingExtended(p, c);
    } else {
      var k := ORDER[n - 1];
      ExtendedSound(p, observed, c, n - 1);
      var before := Extended(p, observed, c, n - 1);
      assert Seen(observed, n) == Seen(observed, n - 1) + if k in observed then {k} else {};
      ActiveOf(p, before, c, Seen(observed, n - 1) - Elements(c.active), k);
      assert k !in Seen(observed, n - 1) by {
        OrderDistinct();
      }
      if k in observed && k !in before.active {
        OneMoreKind(p, before, c, Seen(observed, n - 1) - Elements(c.active), k);
        assert fresh' == Seen(observed, n - 1) - Elements(c.active) + {k};
      } else {
        assert fresh' == Seen(observed, n - 1) - Elements(c.active);
      }
    }
  }

  lemma OrderDistinct()
    ensures Distinct(ORDER)
  {
  }

  lemma NothingExtended(p: Principal, c: Contract)
    requires Distinct(c.active)
    ensures ExtendedTo(p, c, c, {})
  {
  }

  lemma ActiveOf(p: Principal, e: Contract, c: Contract, new': set<Kind>, k: Kind)
    requires ExtendedTo(p, e, c, new')
    ensures k in e.active <==> k in c.active || k in new'
  {
    assert k in Elements(e.active) <==> k in Elements(c.active) + new';
  }

  lemma {:induction false} DedupeKeepsPrefix<T>(a: seq<T>, b: seq<T>)
    requires Distinct(a)
    ensures a <= Dedupe(a + b)
    decreases |a| + |b|
  {
    if b != [] {
      var n := |b| - 1;
      assert (a + b)[..|a + b| - 1] == a + b[..n];
      DedupeKeepsPrefix(a, b[..n]);
    } else if a != [] {
      var n := |a| - 1;
      assert a + b == a && a[..n] + [] == a[..n];
      DedupeKeepsPrefix(a[..n], []);
      assert a[..n] <= Dedupe(a[..n]);
      DedupeOfDistinct(a[..n]);
      assert a[n] !in a[..n];
    }
  }

  lemma {:induction false} DedupeOfDistinct<T>(a: seq<T>)
    requires Distinct(a)
    ensures Dedupe(a) == a
  {
    if a != [] {
      var n := |a| - 1;
      DedupeOfDistinct(a[..n]);
      assert a[n] !in a[..n];
    }
  }

  lemma AllSeen(observed: seq<Kind>)
    ensures Seen(observed, |ORDER|) == Elements(observed)
  {
    forall k | k in observed ensures k in Seen(observed, |ORDER|) {
      assert ORDER[Rank(k)] == k;
    }
  }

  /** Extending adds exactly the observed dimensions and their obligations, and nothing that was
      in the contract moves or disappears. */
  lemma ExtendExact(p: Principal, dims: seq<Dimension>, earlier: set<Kind>, observed: seq<Kind>, c: Contract)
    requires Meets(c, p, dims, earlier) && earlier <= Elements(observed)
    ensures Meets(Extend(p, observed, c), p, dims, Elements(observed))
    ensures c.active <= Extend(p, observed, c).active
    ensures c.required <= Extend(p, observed, c).required
    ensures c.boundaries <= Extend(p, observed, c).boundaries
  {
    hide RuntimeAssertions, TemplateBoundaries, DeclaredAssertions, Dedupe, Extended;
    ExtendedSound(p, observed, c, |ORDER|);
    AllSeen(observed);
    var e := Extended(p, observed, c, |ORDER|);
    var new' := Elements(observed) - Elements(c.active);
    var declared := DeclaredKinds(dims);
    PrefixSplit(c.required, e.required);
    PrefixSplit(c.boundaries, e.boundaries);
    DedupeKeepsPrefix(c.required, e.required[|c.required|..]);
    DedupeKeepsPrefix(c.boundaries, e.boundaries[|c.boundaries|..]);
    assert Elements(observed) - declared == (earlier - declared) + new';
    RuntimeSplit(p, earlier - declared, new');
    assert declared + Elements(observed) == (declared + earlier) + new';
    BoundarySplit(declared + earlier, new');
  }

  lemma PrefixSplit<T>(a: seq<T>, b: seq<T>)
    requires a <= b
    ensures b == a + b[|a|..]
  {
  }

  lemma RuntimeSplit(p: Principal, a: set<Kind>, b: set<Kind>)
    ensures RuntimeObligations(p, a + b) == RuntimeObligations(p, a) + RuntimeObligations(p, b)
  {
    hide RuntimeAssertions;
  }

  lemma BoundarySplit(a: set<Kind>, b: set<Kind>)
    ensures BoundariesOf(a + b) == BoundariesOf(a) + BoundariesOf(b)
  {
    hide TemplateBoundaries;
  }
}
