/** When two runs of one declaration end with the same contract, lists and all: the contract is
    determined by the order of its dimensions, and that by which report first showed them. */
module SafetyOrder {
  import opened Prelude
  import opened Assurances
  import opened SafetyTemplates
  import opened SafetyContext
  import opened SafetyRuns

  // ---------------------------------------------------------------------------
  // A contract is determined by its list of dimensions
  // ---------------------------------------------------------------------------

  /** A contract with one more observed dimension. */
  function Grown(p: Principal, c: Contract, k: Kind): Contract {
    Contract(c.active + [k], Dedupe(c.required + RuntimeAssertions(p, k)), Dedupe(c.boundaries + TemplateBoundaries(k)))
  }

  function GrownBy(p: Principal, c: Contract, ks: seq<Kind>): Contract {
    if ks == [] then c else Grown(p, GrownBy(p, c, ks[..|ks| - 1]), ks[|ks| - 1])
  }

  lemma {:induction false} GrownActive(p: Principal, c: Contract, ks: seq<Kind>)
    ensures GrownBy(p, c, ks).active == c.active + ks
  {
    hide Dedupe, RuntimeAssertions, TemplateBoundaries;
    if ks != [] {
      GrownActive(p, c, ks[..|ks| - 1]);
      assert ks == ks[..|ks| - 1] + [ks[|ks| - 1]];
    }
  }

  lemma {:induction false} GrownTwice(p: Principal, c: Contract, a: seq<Kind>, b: seq<Kind>)
    ensures GrownBy(p, GrownBy(p, c, a), b) == GrownBy(p, c, a + b)
  {
    hide Grown;
    if b == [] {
      assert a + b == a;
    } else {
      var n := |b| - 1;
      GrownTwice(p, c, a, b[..n]);
      assert (a + b)[..|a + b| - 1] == a + b[..n] && (a + b)[|a + b| - 1] == b[n];
    }
  }

  lemma {:induction false} DedupeTwice<T>(a: seq<T>, b: seq<T>)
    ensures Dedupe(Dedupe(a) + b) == Dedupe(a + b)
  {
    if b == [] {
      assert Dedupe(a) + b == Dedupe(a) && a + b == a;
      DedupeOfDistinct(Dedupe(a));
    } else {
      var n := |b| - 1;
      DedupeTwice(a, b[..n]);
      var x, y := Dedupe(a) + b, a + b;
      assert x[..|x| - 1] == Dedupe(a) + b[..n] && y[..|y| - 1] == a + b[..n];
      assert x[|x| - 1] == b[n] == y[|y| - 1];
    }
  }

  /** The observed kinds among the first n of the order that are not active yet. */
  function New(observed: seq<Kind>, active: seq<Kind>, n: nat): seq<Kind>
    requires n <= |ORDER|
  {
    if n == 0 then []
    else New(observed, active, n - 1) + if ORDER[n - 1] in observed && ORDER[n - 1] !in active then [ORDER[n - 1]] else []
  }

  lemma {:induction false} NewKinds(observed: seq<Kind>, active: seq<Kind>, n: nat)
    requires n <= |ORDER|
    ensures forall k :: k in New(observed, active, n) <==> k in observed && k !in active && Rank(k) < n
  {
    hide Rank;
    if n > 0 {
      NewKinds(observed, active, n - 1);
      RankOf(n - 1);
      assert forall k :: Rank(k) < n <==> Rank(k) < n - 1 || k == ORDER[n - 1];
    }
  }

  lemma RankOf(n: nat)
    requires n < |ORDER|
    ensures forall k :: Rank(k) == n <==> k == ORDER[n]
  {
  }

  ghost predicate RanksRise(ks: seq<Kind>) {
    forall i, j :: 0 <= i < j < |ks| ==> Rank(ks[i]) < Rank(ks[j])
  }

  lemma RanksRiseOn(ks: seq<Kind>, k: Kind)
    requires RanksRise(ks) && forall x :: x in ks ==> Rank(x) < Rank(k)
    ensures RanksRise(ks + [k])
  {
    hide Rank;
    var all := ks + [k];
    forall i, j | 0 <= i < j < |all| ensures Rank(all[i]) < Rank(all[j]) {
      if j == |ks| {
        assert all[i] in ks;
      }
    }
  }

  /** New dimensions come in the fixed order. */
  lemma {:induction false} NewByRank(observed: seq<Kind>, active: seq<Kind>, n: nat)
    requires n <= |ORDER|
    ensures RanksRise(New(observed, active, n))
  {
    hide Rank, RanksRise;
    if n == 0 {
      NothingRises();
    } else {
      NewByRank(observed, active, n - 1);
      NewKinds(observed, active, n - 1);
      RankOf(n - 1);
      var front := New(observed, active, n - 1);
      RanksRiseOn(front, ORDER[n - 1]);
      assert front + [] == front;
    }
  }

  lemma NothingRises()
    ensures RanksRise([])
  {
  }

  function Cleaned(e: Contract): Contract {
    Contract(e.active, Dedupe(e.required), Dedupe(e.boundaries))
  }

  /** The same before duplicates are dropped. */
  function OneMore(p: Principal, e: Contract, k: Kind): Contract {
    Contract(e.active + [k], e.required + RuntimeAssertions(p, k), e.boundaries + TemplateBoundaries(k))
  }

  lemma CleanedGrown(p: Principal, e: Contract, k: Kind)
    ensures Grown(p, Cleaned(e), k) == Cleaned(OneMore(p, e, k))
    ensures OneMore(p, e, k).active == e.active + [k]
  {
    hide RuntimeAssertions, TemplateBoundaries, Dedupe;
    DedupeTwice(e.required, RuntimeAssertions(p, k));
    DedupeTwice(e.boundaries, TemplateBoundaries(k));
  }

  lemma GrownStep(p: Principal, c: Contract, ks: seq<Kind>, k: Kind)
    ensures GrownBy(p, c, ks + [k]) == Grown(p, GrownBy(p, c, ks), k)
  {
    hide Grown;
    assert (ks + [k])[..|ks|] == ks;
  }

  lemma ExtendedStep(p: Principal, observed: seq<Kind>, c: Contract, n: nat)
    requires 0 < n <= |ORDER|
    ensures Extended(p, observed, c, 0) == c && New(observed, c.active, 0) == []
    ensures var before, k := Extended(p, observed, c, n - 1), ORDER[n - 1];
      Extended(p, observed, c, n) == if k in observed && k !in before.active then OneMore(p, before, k) else before
    ensures var front, k := New(observed, c.active, n - 1), ORDER[n - 1];
      && New(observed, c.active, n) == (if k in observed && k !in c.active then front + [k] else front)
      && k !in front
  {
    hide RuntimeAssertions, TemplateBoundaries, Rank;
    NewKinds(observed, c.active, n - 1);
    RankOf(n - 1);
    assert New(observed, c.active, n - 1) + [] == New(observed, c.active, n - 1);
  }

  lemma {:induction false} ExtendedIsGrown(p: Principal, observed: seq<Kind>, c: Contract, n: nat)
    requires n <= |ORDER| && Distinct(c.required) && Distinct(c.boundaries)
    ensures Extended(p, observed, c, n).active == c.active + New(observed, c.active, n)
    ensures GrownBy(p, c, New(observed, c.active, n)) == Cleaned(Extended(p, observed, c, n))
  {
    hide Extended, New, GrownBy, Grown, Cleaned, OneMore;
    if n == 0 {
      ExtendedStep(p, observed, c, 1);
      NothingGrown(p, c);
      assert c.active + [] == c.active;
    } else {
      ExtendedIsGrown(p, observed, c, n - 1);
      ExtendedStep(p, observed, c, n);
      var before, k, front := Extended(p, observed, c, n - 1), ORDER[n - 1], New(observed, c.active, n - 1);
      CleanedGrown(p, before, k);
      GrownStep(p, c, front, k);
      assert c.active + (front + [k]) == c.active + front + [k];
    }
  }

  lemma NothingGrown(p: Principal, c: Contract)
    requires Distinct(c.required) && Distinct(c.boundaries)
    ensures GrownBy(p, c, []) == c == Cleaned(c)
  {
    DedupeOfDistinct(c.required);
    DedupeOfDistinct(c.boundaries);
  }

  /** Extending is growing by the new dimensions, one by one in the fixed order. */
  lemma ExtendIsGrown(p: Principal, observed: seq<Kind>, c: Contract)
    requires Distinct(c.required) && Distinct(c.boundaries)
    ensures Extend(p, observed, c) == GrownBy(p, c, New(observed, c.active, |ORDER|))
  {
    hide Extended, New, GrownBy, Dedupe;
    ExtendedIsGrown(p, observed, c, |ORDER|);
  }

  function Base(d: Declaration): Contract {
    Compiled(d.principal, d.dims)
  }

  /** The dimensions beyond the declared ones, in the order they came. */
  function Later(c: Contract, d: Declaration): seq<Kind> {
    if |Base(d).active| <= |c.active| then c.active[|Base(d).active|..] else []
  }

  ghost predicate Canonical(c: Contract, d: Declaration) {
    Base(d).active <= c.active && c == GrownBy(d.principal, Base(d), Later(c, d))
  }

  lemma ExtendedCanonical(c: Contract, d: Declaration, observed: seq<Kind>)
    requires Canonical(c, d) && Distinct(c.required) && Distinct(c.boundaries)
    ensures Canonical(Extend(d.principal, observed, c), d)
    ensures Later(Extend(d.principal, observed, c), d) == Later(c, d) + New(observed, c.active, |ORDER|)
  {
    hide Base, Extend, New, GrownBy;
    var more := New(observed, c.active, |ORDER|);
    ExtendIsGrown(d.principal, observed, c);
    GrownTwice(d.principal, Base(d), Later(c, d), more);
    GrownActive(d.principal, c, more);
    var e := Extend(d.principal, observed, c);
    assert e.active == Base(d).active + (Later(c, d) + more);
    assert e.active[|Base(d).active|..] == Later(c, d) + more;
  }

  // ---------------------------------------------------------------------------
  // When a dimension was first shown
  // ---------------------------------------------------------------------------

  /** The accepted report, by its place in the run, that first showed a kind observed by then. */
  function FirstShown(home: Home, states: seq<Context>, events: seq<Event>, n: nat, k: Kind): nat
    requires n <= |events| < |states|
  {
    if n == 0 then 0
    else if k in Observed(home, states, events, n - 1) then FirstShown(home, states, events, n - 1, k)
    else n - 1
  }

  lemma {:induction false} ShownEarlier(home: Home, states: seq<Context>, events: seq<Event>, n: nat, k: Kind)
    requires n <= |events| < |states| && k in Observed(home, states, events, n)
    ensures FirstShown(home, states, events, n, k) < n
  {
    hide Accepted;
    if k in Observed(home, states, events, n - 1) {
      ShownEarlier(home, states, events, n - 1, k);
    }
  }

  /** First shown by an earlier report, or by the same one and earlier in the fixed order. */
  predicate ShownBefore(home: Home, states: seq<Context>, events: seq<Event>, n: nat, k: Kind, l: Kind)
    requires n <= |events| < |states|
  {
    var a, b := FirstShown(home, states, events, n, k), FirstShown(home, states, events, n, l);
    a < b || (a == b && Rank(k) < Rank(l))
  }

  /** The observed dimensions that were not declared. */
  function Undeclared(home: Home, states: seq<Context>, events: seq<Event>, n: nat, d: Declaration): set<Kind>
    requires n <= |events| < |states|
  {
    Observed(home, states, events, n) - DeclaredKinds(d.dims)
  }

  ghost predicate Chronological(home: Home, states: seq<Context>, events: seq<Event>, n: nat, later: seq<Kind>)
    requires n <= |events| < |states|
  {
    forall i, j :: 0 <= i < j < |later| ==> ShownBefore(home, states, events, n, later[i], later[j])
  }

  ghost predicate OrderKept(home: Home, d: Declaration, states: seq<Context>, events: seq<Event>, n: nat)
    requires n <= |events| < |states|
  {
    var c := states[n].contract;
    && Canonical(c, d)
    && Elements(Later(c, d)) == Undeclared(home, states, events, n, d)
    && Chronological(home, states, events, n, Later(c, d))
  }

  /** Appending what a report shows for the first time keeps the order of first appearance. */
  lemma ChronologicalAppend(home: Home, states: seq<Context>, events: seq<Event>, n: nat, later: seq<Kind>, more: seq<Kind>)
    requires 0 < n <= |events| < |states|
    requires Chronological(home, states, events, n - 1, later)
    requires forall k :: k in later ==> k in Observed(home, states, events, n - 1)
    requires forall k :: k in more ==> k !in Observed(home, states, events, n - 1)
    requires RanksRise(more)
    ensures Chronological(home, states, events, n, later + more)
  {
    hide Rank, Observed;
    var all := later + more;
    forall i, j | 0 <= i < j < |all| ensures ShownBefore(home, states, events, n, all[i], all[j]) {
      if j < |later| {
        assert all[i] in later && all[j] in later;
        assert ShownBefore(home, states, events, n - 1, later[i], later[j]);
      } else if i < |later| {
        assert all[i] in later && all[j] in more;
        ShownEarlier(home, states, events, n - 1, all[i]);
      } else {
        assert all[i] == more[i - |later|] && all[j] == more[j - |later|];
        assert all[i] in more && all[j] in more;
      }
    }
  }

  lemma EvidenceStep(c: Context, home: Home, caller: Caller, r: Report, now: int)
    requires Inv(c)
    ensures var c' := Evidenced(c, home, caller, r, now).0;
      if AcceptsEvidence(c, home, caller, now) then c'.contract == Extend(c.declaration.principal, c'.observed, c.contract)
      else c'.contract == c.contract
  {
    hide Inv, Extend, Guarded, Dedupe, Settled, AddItems, AddMismatches;
    GuardedInv(c, home, caller, true, now);
    SettledOnlyStatus(Taken(Guarded(c, home, caller, true, now).0, r));
  }

  /** A step either leaves the contract and the observations alone or is an accepted report. */
  lemma ContractStep(c: Context, home: Home, e: Event)
    requires Inv(c)
    ensures var c' := Step(c, home, e);
      if e.Evidence? && AcceptsEvidence(c, home, e.caller, e.at)
      then c'.contract == Extend(c.declaration.principal, c'.observed, c.contract)
      else c'.contract == c.contract && Accepted(c, home, e) == {}
  {
    hide Inv, Extend, Guarded, Settled, Evidenced, AcceptsEvidence, Pending;
    match e
    case Evidence(caller, report, now) => EvidenceStep(c, home, caller, report, now);
    case Assert(caller, given, now) =>
      GuardedInv(c, home, caller, true, now);
      var g := Guarded(c, home, caller, true, now).0;
      SettledOnlyStatus(g.(assertions := g.assertions + given.assertions));
    case ExtendScope(caller, site, now) =>
      GuardedInv(c, home, caller, false, now);
      var g := Guarded(c, home, caller, false, now).0;
      SettledOnlyStatus(g);
      SettledOnlyStatus(g.(scope := g.scope + [site]));
    case Consume(caller, now) => GuardedInv(c, home, caller, true, now);
    case Look(caller, now) => GuardedInv(c, home, caller, true, now);
    case GetContract(_) =>
  }

  lemma OrderUnchanged(home: Home, d: Declaration, states: seq<Context>, events: seq<Event>, n: nat)
    requires 0 < n <= |events| < |states| && OrderKept(home, d, states, events, n - 1)
    requires states[n].contract == states[n - 1].contract
    requires Accepted(states[n - 1], home, events[n - 1]) == {}
    ensures OrderKept(home, d, states, events, n)
  {
    hide Canonical, Later, Accepted, Rank;
    var later := Later(states[n].contract, d);
    assert Observed(home, states, events, n) == Observed(home, states, events, n - 1);
    assert later + [] == later;
    assert forall k :: k in later ==> k in Elements(later);
    ChronologicalAppend(home, states, events, n, later, []);
  }

  lemma OrderExtended(home: Home, d: Declaration, states: seq<Context>, events: seq<Event>, n: nat)
    requires 0 < n <= |events| < |states| && OrderKept(home, d, states, events, n - 1)
    requires Meets(states[n - 1].contract, d.principal, d.dims, Observed(home, states, events, n - 1))
    requires Elements(states[n].observed) == Observed(home, states, events, n)
    requires states[n].contract == Extend(d.principal, states[n].observed, states[n - 1].contract)
    ensures OrderKept(home, d, states, events, n)
  {
    hide Canonical, Later, Accepted, Rank, Extend, New, DeclaredKinds, DeclaredObligations, RuntimeObligations, BoundariesOf,
      Chronological;
    var c, observed := states[n - 1].contract, states[n].observed;
    var later, more := Later(c, d), New(observed, c.active, |ORDER|);
    ExtendedCanonical(c, d, observed);
    NewOf(observed, c.active);
    NewByRank(observed, c.active, |ORDER|);
    assert forall k :: k in later ==> k in Elements(later);
    forall k | k in more ensures k !in Observed(home, states, events, n - 1) {
      assert k !in Elements(c.active);
    }
    ChronologicalAppend(home, states, events, n, later, more);
    assert Elements(later + more) == Elements(later) + Elements(more);
    ActiveSplit(c.active, observed, more, DeclaredKinds(d.dims), Observed(home, states, events, n - 1));
    assert Later(states[n].contract, d) == later + more;
    assert Canonical(states[n].contract, d);
    assert Chronological(home, states, events, n, Later(states[n].contract, d));
    assert Elements(later + more) == Undeclared(home, states, events, n, d);
  }

  lemma NewOf(observed: seq<Kind>, active: seq<Kind>)
    ensures Elements(New(observed, active, |ORDER|)) == Elements(observed) - Elements(active)
    ensures forall k :: k in New(observed, active, |ORDER|) ==> k !in active
  {
    NewKinds(observed, active, |ORDER|);
  }

  lemma ActiveSplit(active: seq<Kind>, observed: seq<Kind>, more: seq<Kind>, declared: set<Kind>, earlier: set<Kind>)
    requires Elements(more) == Elements(observed) - Elements(active)
    requires Elements(active) == declared + earlier && earlier <= Elements(observed)
    ensures (earlier - declared) + Elements(more) == Elements(observed) - declared
  {
  }

  lemma {:induction false} RunKeepsOrder(home: Home, d: Declaration, caller: Caller, start: int, states: seq<Context>,
                                         events: seq<Event>, n: nat)
    requires Run(home, d, caller, start, states, events) && n <= |events|
    ensures OrderKept(home, d, states, events, n)
  {
    hide Inv, Step, Declared, OrderKept, Accepted, Observed, Meets, Extend;
    if n == 0 {
      OrderAtStart(home, d, caller, start, states, events);
    } else {
      RunKeepsOrder(home, d, caller, start, states, events, n - 1);
      RunReaches(home, d, caller, start, states, events, n - 1);
      RunReaches(home, d, caller, start, states, events, n);
      ContractStep(states[n - 1], home, events[n - 1]);
      InvMeets(states[n - 1]);
      if events[n - 1].Evidence? && AcceptsEvidence(states[n - 1], home, events[n - 1].caller, events[n - 1].at) {
        OrderExtended(home, d, states, events, n);
      } else {
        OrderUnchanged(home, d, states, events, n);
      }
    }
  }

  lemma InvMeets(c: Context)
    requires Inv(c)
    ensures Meets(c.contract, c.declaration.principal, c.declaration.dims, Elements(c.observed))
  {
  }

  lemma OrderAtStart(home: Home, d: Declaration, caller: Caller, start: int, states: seq<Context>, events: seq<Event>)
    requires Run(home, d, caller, start, states, events)
    ensures OrderKept(home, d, states, events, 0)
  {
    hide Compiled, Scope, Step;
    assert states[0].contract == Base(d);
    assert Later(Base(d), d) == [];
  }

  // ---------------------------------------------------------------------------
  // Two runs
  // ---------------------------------------------------------------------------

  /** Over two runs of one declaration the contracts are equal exactly when their lists of
      dimensions are: obligations and boundaries follow from them. */
  lemma DimensionsDetermineContract(home: Home, d: Declaration, caller: Caller, start: int, states: seq<Context>, events: seq<Event>, n: nat,
                                    home': Home, caller': Caller, start': int, states': seq<Context>, events': seq<Event>, n': nat)
    requires Run(home, d, caller, start, states, events) && n <= |events|
    requires Run(home', d, caller', start', states', events') && n' <= |events'|
    ensures states[n].contract == states'[n'].contract <==> states[n].contract.active == states'[n'].contract.active
  {
    hide Step, Declared, Observed, Chronological, GrownBy, Base;
    RunKeepsOrder(home, d, caller, start, states, events, n);
    RunKeepsOrder(home', d, caller', start', states', events', n');
  }

  /** Both runs observed the same undeclared dimensions, and for every two of them the accepted
      reports that first showed them order them alike. */
  ghost predicate SameAppearance(home: Home, d: Declaration, states: seq<Context>, events: seq<Event>, n: nat,
                                 home': Home, states': seq<Context>, events': seq<Event>, n': nat)
    requires n <= |events| < |states| && n' <= |events'| < |states'|
  {
    && Undeclared(home, states, events, n, d) == Undeclared(home', states', events', n', d)
    && (forall k, l :: k in Undeclared(home, states, events, n, d) && l in Undeclared(home, states, events, n, d) ==>
          (ShownBefore(home, states, events, n, k, l) <==> ShownBefore(home', states', events', n', k, l)))
  }

  /** A place in the order of first appearance, as one number. */
  function Place(home: Home, states: seq<Context>, events: seq<Event>, n: nat, k: Kind): nat
    requires n <= |events| < |states|
  {
    FirstShown(home, states, events, n, k) * |ORDER| + Rank(k)
  }

  lemma PlaceOrders(home: Home, states: seq<Context>, events: seq<Event>, n: nat, k: Kind, l: Kind)
    requires n <= |events| < |states|
    ensures ShownBefore(home, states, events, n, k, l) <==> Place(home, states, events, n, k) < Place(home, states, events, n, l)
  {
    hide Rank, FirstShown;
  }

  ghost predicate Rising(s: seq<Kind>, place: map<Kind, nat>) {
    && (forall i :: 0 <= i < |s| ==> s[i] in place)
    && forall i, j :: 0 <= i < j < |s| ==> place[s[i]] < place[s[j]]
  }

  /** There is one way to put a set in rising order. */
  lemma {:induction false} RisingUnique(a: seq<Kind>, b: seq<Kind>, place: map<Kind, nat>)
    requires Rising(a, place) && Rising(b, place) && Elements(a) == Elements(b)
    ensures a == b
  {
    NoElements(a);
    NoElements(b);
    if a != [] && b != [] {
      var m, n := |a| - 1, |b| - 1;
      LastAlike(a, b, place);
      RisingFront(a, place);
      RisingFront(b, place);
      RisingUnique(a[..m], b[..n], place);
      assert a == a[..m] + [a[m]] && b == b[..n] + [b[n]];
    }
  }

  lemma NoElements(a: seq<Kind>)
    ensures Elements(a) == {} <==> a == []
  {
    if a != [] {
      assert a[0] in Elements(a);
    }
  }

  lemma LastAlike(a: seq<Kind>, b: seq<Kind>, place: map<Kind, nat>)
    requires Rising(a, place) && Rising(b, place) && Elements(a) == Elements(b) && a != [] && b != []
    ensures a[|a| - 1] == b[|b| - 1]
  {
    var x, y := a[|a| - 1], b[|b| - 1];
    assert x in Elements(b) && y in Elements(a);
    var i :| 0 <= i < |b| && b[i] == x;
    var j :| 0 <= j < |a| && a[j] == y;
  }

  lemma RisingFront(a: seq<Kind>, place: map<Kind, nat>)
    requires Rising(a, place) && a != []
    ensures Rising(a[..|a| - 1], place) && Elements(a[..|a| - 1]) == Elements(a) - {a[|a| - 1]}
  {
    var n := |a| - 1;
    assert a == a[..n] + [a[n]];
    assert a[n] !in a[..n];
  }

  function Places(home: Home, states: seq<Context>, events: seq<Event>, n: nat): map<Kind, nat>
    requires n <= |events| < |states|
  {
    map k | k in ORDER :: Place(home, states, events, n, k)
  }

  lemma LaterRises(home: Home, states: seq<Context>, events: seq<Event>, n: nat, later: seq<Kind>)
    requires n <= |events| < |states|
    ensures Chronological(home, states, events, n, later) <==> Rising(later, Places(home, states, events, n))
  {
    hide Place, ShownBefore, Rank;
    forall k ensures k in ORDER {
      assert ORDER[Rank(k)] == k;
    }
    forall k, l ensures ShownBefore(home, states, events, n, k, l) <==> Places(home, states, events, n)[k] < Places(home, states, events, n)[l] {
      PlaceOrders(home, states, events, n, k, l);
    }
  }

  /** The same list in both runs: any two of its dimensions first appeared in the same order. */
  lemma SameListSameAppearance(home: Home, states: seq<Context>, events: seq<Event>, n: nat,
                               home': Home, states': seq<Context>, events': seq<Event>, n': nat, later: seq<Kind>, k: Kind, l: Kind)
    requires n <= |events| < |states| && n' <= |events'| < |states'| && k in later && l in later
    requires Chronological(home, states, events, n, later) && Chronological(home', states', events', n', later)
    ensures ShownBefore(home, states, events, n, k, l) <==> ShownBefore(home', states', events', n', k, l)
  {
    hide FirstShown, Rank;
    var i :| 0 <= i < |later| && later[i] == k;
    var j :| 0 <= j < |later| && later[j] == l;
    if i < j {
      assert ShownBefore(home, states, events, n, later[i], later[j]) && ShownBefore(home', states', events', n', later[i], later[j]);
    } else if j < i {
      assert ShownBefore(home, states, events, n, later[j], later[i]) && ShownBefore(home', states', events', n', later[j], later[i]);
    }
  }

  lemma SameAppearanceSameList(home: Home, d: Declaration, states: seq<Context>, events: seq<Event>, n: nat,
                               home': Home, states': seq<Context>, events': seq<Event>, n': nat, a: seq<Kind>, b: seq<Kind>)
    requires n <= |events| < |states| && n' <= |events'| < |states'|
    requires SameAppearance(home, d, states, events, n, home', states', events', n')
    requires Elements(a) == Undeclared(home, states, events, n, d) && Elements(b) == Undeclared(home', states', events', n', d)
    requires Chronological(home, states, events, n, a) && Chronological(home', states', events', n', b)
    ensures a == b
  {
    hide ShownBefore, Undeclared;
    assert forall i :: 0 <= i < |b| ==> b[i] in Elements(b);
    assert Chronological(home, states, events, n, b);
    LaterRises(home, states, events, n, a);
    LaterRises(home, states, events, n, b);
    RisingUnique(a, b, Places(home, states, events, n));
  }

  /** Two runs of one declaration end with equal contracts, lists included, exactly when they showed
      the same undeclared dimensions in the same order of first appearance. */
  lemma ContractsEqualExactly(home: Home, d: Declaration, caller: Caller, start: int, states: seq<Context>, events: seq<Event>, n: nat,
                              home': Home, caller': Caller, start': int, states': seq<Context>, events': seq<Event>, n': nat)
    requires Run(home, d, caller, start, states, events) && n <= |events|
    requires Run(home', d, caller', start', states', events') && n' <= |events'|
    ensures states[n].contract == states'[n'].contract
      <==> SameAppearance(home, d, states, events, n, home', states', events', n')
  {
    hide Step, Declared, Chronological, GrownBy, Base, ShownBefore, Undeclared;
    RunKeepsOrder(home, d, caller, start, states, events, n);
    RunKeepsOrder(home', d, caller', start', states', events', n');
    var a, b := Later(states[n].contract, d), Later(states'[n'].contract, d);
    if states[n].contract == states'[n'].contract {
      forall k, l | k in Undeclared(home, states, events, n, d) && l in Undeclared(home, states, events, n, d)
        ensures ShownBefore(home, states, events, n, k, l) <==> ShownBefore(home', states', events', n', k, l)
      {
        assert k in Elements(a) && l in Elements(a);
        SameListSameAppearance(home, states, events, n, home', states', events', n', a, k, l);
      }
    }
    if SameAppearance(home, d, states, events, n, home', states', events', n') {
      SameAppearanceSameList(home, d, states, events, n, home', states', events', n', a, b);
    }
  }

  // ---------------------------------------------------------------------------
  // The order does show
  // ---------------------------------------------------------------------------

  /** The context takes reports from this caller, for some time yet. */
  predicate Listening(c: Context, home: Home, caller: Caller, now: int) {
    && BoundTo(c, home, caller) && c.scope == [] && c.remaining > 0 && now < c.expires
    && (c.status == Ready || c.status == AssertionRequired)
  }

  lemma ListeningReport(c: Context, home: Home, caller: Caller, r: Report, now: int)
    requires Listening(c, home, caller, now)
    ensures AcceptsEvidence(c, home, caller, now)
    ensures Listening(Evidenced(c, home, caller, r, now).0, home, caller, now)
  {
    hide Extend, Pending, Dedupe, AddItems, AddMismatches;
  }

  /** A granted declaration without an origin scope, made by its own agent on its own profile. */
  predicate Plain(home: Home, d: Declaration, caller: Caller, now: int) {
    && d.granted && d.maxUses > 0 && d.origins == [] && caller.origin == ""
    && DeclarationError(d, home, caller).None?
    && now < (if d.expiresAt.Some? then d.expiresAt.value else now + d.expiresIn)
  }

  lemma PlainListens(home: Home, d: Declaration, caller: Caller, now: int)
    requires Plain(home, d, caller, now)
    ensures Listening(Declared(d, home, caller, now), home, caller, now)
  {
    hide Compiled;
    assert Present([]) == [] && Dedupe<string>([]) == [];
  }

  /** Two reports in a row, each showing one dimension. */
  function TwoReports(caller: Caller, k: Kind, l: Kind, now: int): seq<Event> {
    [Evidence(caller, Report([k], AgentAsserted, []), now), Evidence(caller, Report([l], AgentAsserted, []), now)]
  }

  lemma ReportsRun(home: Home, d: Declaration, caller: Caller, now: int, k: Kind, l: Kind) returns (states: seq<Context>)
    requires Plain(home, d, caller, now) && UniqueKinds(d.dims) && k != l
    ensures Run(home, d, caller, now, states, TwoReports(caller, k, l, now))
    ensures var events := TwoReports(caller, k, l, now);
      && Observed(home, states, events, 2) == {k, l}
      && FirstShown(home, states, events, 2, k) == 0 && FirstShown(home, states, events, 2, l) == 1
  {
    hide Declared, Evidenced, Listening, Plain, AcceptsEvidence, UniqueKinds;
    var events := TwoReports(caller, k, l, now);
    var s0 := Declared(d, home, caller, now);
    PlainListens(home, d, caller, now);
    ListeningReport(s0, home, caller, events[0].report, now);
    var s1 := Evidenced(s0, home, caller, events[0].report, now).0;
    ListeningReport(s1, home, caller, events[1].report, now);
    var s2 := Evidenced(s1, home, caller, events[1].report, now).0;
    states := [s0, s1, s2];
    PlainUses(home, d, caller, now);
    ShownOneByOne(home, states, events, k, l);
  }

  lemma PlainUses(home: Home, d: Declaration, caller: Caller, now: int)
    requires Plain(home, d, caller, now)
    ensures d.maxUses > 0
  {
  }

  lemma ShownOneByOne(home: Home, states: seq<Context>, events: seq<Event>, k: Kind, l: Kind)
    requires |states| == 3 && |events| == 2 && k != l
    requires Accepted(states[0], home, events[0]) == {k} && Accepted(states[1], home, events[1]) == {l}
    ensures Observed(home, states, events, 2) == {k, l}
    ensures FirstShown(home, states, events, 2, k) == 0 && FirstShown(home, states, events, 2, l) == 1
  {
    hide Accepted;
    assert Observed(home, states, events, 0) == {};
    assert Observed(home, states, events, 1) == {k};
    assert Observed(home, states, events, 2) == {k, l};
    assert FirstShown(home, states, events, 1, k) == 0;
  }

  /** For every such declaration and two dimensions it does not declare: two reports in either
      order are two runs whose contracts agree as sets and differ as lists. */
  lemma OrderShowsInLists(home: Home, d: Declaration, caller: Caller, now: int, k: Kind, l: Kind)
    returns (states: seq<Context>, states': seq<Context>)
    requires Plain(home, d, caller, now) && UniqueKinds(d.dims) && k != l && {k, l} !! DeclaredKinds(d.dims)
    ensures Run(home, d, caller, now, states, TwoReports(caller, k, l, now))
    ensures Run(home, d, caller, now, states', TwoReports(caller, l, k, now))
    ensures SameContents(states[2].contract, states'[2].contract)
    ensures states[2].contract.active != states'[2].contract.active
  {
    hide Plain, UniqueKinds, DeclaredKinds, SameContents, Observed, FirstShown, Rank, Step, Declared;
    var events, events' := TwoReports(caller, k, l, now), TwoReports(caller, l, k, now);
    states := ReportsRun(home, d, caller, now, k, l);
    states' := ReportsRun(home, d, caller, now, l, k);
    ContractConfluence(home, d, caller, now, states, events, 2, home, caller, now, states', events', 2);
    DimensionsDetermineContract(home, d, caller, now, states, events, 2, home, caller, now, states', events', 2);
    ContractsEqualExactly(home, d, caller, now, states, events, 2, home, caller, now, states', events', 2);
    assert k in Undeclared(home, states, events, 2, d) && l in Undeclared(home, states, events, 2, d);
    assert ShownBefore(home, states, events, 2, k, l) && !ShownBefore(home, states', events', 2, k, l);
  }

  /** One such declaration, of a single dimension. */
  lemma OrderShows() returns (home: Home, d: Declaration, caller: Caller, states: seq<Context>, states': seq<Context>)
    ensures |d.dims| == 1
    ensures Run(home, d, caller, 0, states, TwoReports(caller, AuthorityChange, DestructiveChange, 0))
    ensures Run(home, d, caller, 0, states', TwoReports(caller, DestructiveChange, AuthorityChange, 0))
    ensures states[2].contract != states'[2].contract
  {
    home := Home(None, "s", "g");
    caller := Caller("a", "p", "c", "", "");
    d := Declaration(Principal("a", "p", UserOwned, TrustedAgent), [Dimension(LocalDataEgress, UserOwned, false, false)], true, [],
                     None, 3600, 1);
    states, states' := OrderShowsInLists(home, d, caller, 0, AuthorityChange, DestructiveChange);
  }
}
