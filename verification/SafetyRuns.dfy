/** Whole runs over one safety context: bounded uses, obligations that only grow, and a contract
    that does not depend on the order in which evidence arrives. */
module SafetyRuns {
  import opened Prelude
  import opened Assurances
  import opened SafetyTemplates
  import opened SafetyContext

  datatype Event =
    | Assert(caller: Caller, given: AssertionSet, at: int)
    | Evidence(caller: Caller, report: Report, at: int)
    | ExtendScope(caller: Caller, site: string, at: int)
    | Consume(caller: Caller, at: int)
    | Look(caller: Caller, at: int)
    | GetContract(at: int)

  function Step(c: Context, home: Home, e: Event): Context {
    match e
    case Assert(caller, given, now) => Asserted(c, home, caller, given, now).0
    case Evidence(caller, report, now) => Evidenced(c, home, caller, report, now).0
    case ExtendScope(caller, site, now) => ScopeExtended(c, home, caller, site, now).0
    case Consume(caller, now) => Used(c, home, caller, now).0
    case Look(caller, now) => Looked(c, home, caller, now).0
    case GetContract(now) => Refresh(c, now)
  }

  /** A consume call that is granted a use. */
  predicate Spends(c: Context, home: Home, e: Event) {
    e.Consume? && Grants(c, home, e.caller, e.at)
  }

  /** The dimensions an accepted evidence report adds. */
  function Accepted(c: Context, home: Home, e: Event): set<Kind> {
    if e.Evidence? && AcceptsEvidence(c, home, e.caller, e.at) then Elements(e.report.observed) else {}
  }

  ghost predicate Run(home: Home, d: Declaration, caller: Caller, start: int, states: seq<Context>, events: seq<Event>) {
    && |states| == |events| + 1 && states[0] == Declared(d, home, caller, start)
    && UniqueKinds(d.dims) && d.maxUses > 0
    && forall i :: 0 <= i < |events| ==> states[i + 1] == Step(states[i], home, events[i])
  }

  // ---------------------------------------------------------------------------
  // What every step keeps
  // ---------------------------------------------------------------------------

  /** The contract is what the declaration and the observations call for, and a ready context has
      nothing pending and uses left. */
  ghost predicate Inv(c: Context) {
    && Meets(c.contract, c.declaration.principal, c.declaration.dims, Elements(c.observed))
    && Distinct(c.observed)
    && (c.status == Ready ==> Fulfilled(c) && c.remaining > 0)
    && c.remaining <= c.declaration.maxUses
  }

  /** Every required obligation was asserted as True. */
  ghost predicate Fulfilled(c: Context) {
    forall o :: o in c.contract.required ==> Get(c.assertions, o) == Some(true)
  }

  lemma SettledFulfilled(c: Context)
    ensures Settled(c).status == Ready <==> Fulfilled(c)
  {
    var pending := Pending(c.contract.required, c.assertions);
    if pending != [] {
      assert pending[0] in pending;
    }
  }

  lemma NothingPending(c: Context)
    ensures c.contract.required == [] ==> Fulfilled(c)
  {
  }

  lemma DeclaredInv(d: Declaration, home: Home, caller: Caller, now: int)
    requires UniqueKinds(d.dims) && d.maxUses > 0
    ensures Inv(Declared(d, home, caller, now)) && Declared(d, home, caller, now).remaining == d.maxUses
    ensures Declared(d, home, caller, now).declaration == d
  {
    hide Compiled, Meets, Scope, UniqueKinds, Fulfilled;
    CompiledExact(d.principal, d.dims);
    assert Elements<Kind>([]) == {};
    NothingPending(Declared(d, home, caller, now));
  }

  lemma GuardedInv(c: Context, home: Home, caller: Caller, checkOrigin: bool, now: int)
    requires Inv(c)
    ensures var (g, stop) := Guarded(c, home, caller, checkOrigin, now);
      && Inv(g) && g.contract == c.contract && g.remaining == c.remaining && g.observed == c.observed && g.assurance == c.assurance
      && g.declaration == c.declaration && g.expires == c.expires && g.assertions == c.assertions && g.scope == c.scope
      && g.connection == c.connection && g.session == c.session && g.generation == c.generation
      && (stop.None? && !Terminal(g.status) ==> g.remaining > 0 && now < g.expires)
      && (stop.None? && g.status == StepUpRequired ==> g.remaining > 0)
  {
    hide Meets, BoundTo, Fulfilled;
  }

  /** One step: what stays, what grows, what is spent. */
  ghost predicate Advances(c: Context, home: Home, e: Event, c': Context) {
    && Inv(c')
    && c'.declaration == c.declaration && c'.expires == c.expires && c'.connection == c.connection
    && c'.session == c.session && c'.generation == c.generation
    && c.scope <= c'.scope
    && c'.remaining == c.remaining - (if Spends(c, home, e) then 1 else 0)
    && Elements(c'.observed) == Elements(c.observed) + Accepted(c, home, e)
    && c.contract.active <= c'.contract.active && c.contract.required <= c'.contract.required
    && c.contract.boundaries <= c'.contract.boundaries
    && AssuranceRank(c.assurance) <= AssuranceRank(c'.assurance)
  }

  lemma EvidenceAdvances(c: Context, home: Home, e: Event)
    requires Inv(c) && e.Evidence?
    ensures Advances(c, home, e, Step(c, home, e))
  {
    hide Meets, Guarded, Extend, Settled, Fulfilled, AddItems, AddMismatches;
    GuardedInv(c, home, e.caller, true, e.at);
    var (g, stop) := Guarded(c, home, e.caller, true, e.at);
    if AcceptsEvidence(c, home, e.caller, e.at) {
      var observed := Dedupe(g.observed + e.report.observed);
      assert Elements(g.observed + e.report.observed) == Elements(g.observed) + Elements(e.report.observed);
      ExtendExact(g.declaration.principal, g.declaration.dims, Elements(g.observed), observed, g.contract);
      var s := Taken(g, e.report);
      SettledFulfilled(s);
      SettledOnlyStatus(s);
    }
  }

  lemma SettledOnlyStatus(c: Context)
    ensures Settled(c) == c.(status := Settled(c).status) && (Fulfilled(Settled(c)) <==> Fulfilled(c))
    ensures Settled(c).status == Ready || Settled(c).status == AssertionRequired
  {
  }

  lemma AssertAdvances(c: Context, home: Home, e: Event)
    requires Inv(c) && e.Assert?
    ensures Advances(c, home, e, Step(c, home, e))
  {
    hide Meets, Guarded, Settled, Fulfilled, AttestationMissing;
    GuardedInv(c, home, e.caller, true, e.at);
    var (g, stop) := Guarded(c, home, e.caller, true, e.at);
    var s := g.(assertions := g.assertions + e.given.assertions);
    SettledFulfilled(s);
    SettledOnlyStatus(s);
    assert Elements(c.observed) + {} == Elements(c.observed);
  }

  lemma ExtendScopeAdvances(c: Context, home: Home, e: Event)
    requires Inv(c) && e.ExtendScope?
    ensures Advances(c, home, e, Step(c, home, e))
  {
    hide Meets, Guarded, Settled, Fulfilled;
    GuardedInv(c, home, e.caller, false, e.at);
    var (g, stop) := Guarded(c, home, e.caller, false, e.at);
    var s := if e.site in g.scope then g else g.(scope := g.scope + [e.site]);
    SettledFulfilled(s);
    SettledOnlyStatus(s);
    assert Elements(c.observed) + {} == Elements(c.observed);
  }

  lemma ConsumeAdvances(c: Context, home: Home, e: Event)
    requires Inv(c) && e.Consume?
    ensures Advances(c, home, e, Step(c, home, e))
  {
    hide Meets, Guarded;
    GuardedInv(c, home, e.caller, true, e.at);
    assert Elements(c.observed) + {} == Elements(c.observed);
    var c' := Step(c, home, e);
    var (g, stop) := Guarded(c, home, e.caller, true, e.at);
    if Spends(c, home, e) {
      assert stop.None? && g.status == Ready;
      assert c'.remaining == c.remaining - 1;
    } else {
      assert c'.remaining == g.remaining;
    }
  }

  lemma OtherAdvances(c: Context, home: Home, e: Event)
    requires Inv(c) && (e.Look? || e.GetContract?)
    ensures Advances(c, home, e, Step(c, home, e))
  {
    hide Meets, Guarded, Fulfilled;
    if e.Look? {
      GuardedInv(c, home, e.caller, true, e.at);
    }
    assert Elements(c.observed) + {} == Elements(c.observed);
  }

  lemma StepAdvances(c: Context, home: Home, e: Event)
    requires Inv(c)
    ensures Advances(c, home, e, Step(c, home, e))
  {
    hide Advances, Inv, Step;
    match e
    case Assert(_, _, _) => AssertAdvances(c, home, e);
    case Evidence(_, _, _) => EvidenceAdvances(c, home, e);
    case ExtendScope(_, _, _) => ExtendScopeAdvances(c, home, e);
    case Consume(_, _) => ConsumeAdvances(c, home, e);
    case Look(_, _) => OtherAdvances(c, home, e);
    case GetContract(_) => OtherAdvances(c, home, e);
  }

  // ---------------------------------------------------------------------------
  // Runs
  // ---------------------------------------------------------------------------

  /** How many of the first n events were granted a use. */
  function Spent(home: Home, states: seq<Context>, events: seq<Event>, n: nat): nat
    requires n <= |events| < |states|
  {
    if n == 0 then 0 else Spent(home, states, events, n - 1) + if Spends(states[n - 1], home, events[n - 1]) then 1 else 0
  }

  /** The dimensions of the evidence reports accepted among the first n events. */
  function Observed(home: Home, states: seq<Context>, events: seq<Event>, n: nat): set<Kind>
    requires n <= |events| < |states|
  {
    if n == 0 then {} else Observed(home, states, events, n - 1) + Accepted(states[n - 1], home, events[n - 1])
  }

  ghost predicate Reached(home: Home, d: Declaration, states: seq<Context>, events: seq<Event>, n: nat)
    requires n <= |events| < |states|
  {
    && Inv(states[n]) && states[n].declaration == d && states[n].expires == states[0].expires
    && states[n].connection == states[0].connection
    && states[n].session == states[0].session && states[n].generation == states[0].generation
    && Spent(home, states, events, n) + states[n].remaining == d.maxUses
    && Elements(states[n].observed) == Observed(home, states, events, n)
  }

  lemma {:induction false} RunReaches(home: Home, d: Declaration, caller: Caller, start: int, states: seq<Context>,
                                      events: seq<Event>, n: nat)
    requires Run(home, d, caller, start, states, events) && n <= |events|
    ensures Reached(home, d, states, events, n)
  {
    hide Inv, Step, Declared, Spends, Accepted;
    if n == 0 {
      DeclaredInv(d, home, caller, start);
      DeclaredUnobserved(d, home, caller, start);
    } else {
      RunReaches(home, d, caller, start, states, events, n - 1);
      StepAdvances(states[n - 1], home, events[n - 1]);
    }
  }

  lemma DeclaredUnobserved(d: Declaration, home: Home, caller: Caller, now: int)
    ensures Elements(Declared(d, home, caller, now).observed) == {}
  {
    hide Compiled, Scope;
  }

  /** A granted use is strictly before the deadline, by the bound caller, inside the origin scope if
      one is set, with every required obligation asserted as True. */
  lemma UsesAreSound(home: Home, d: Declaration, caller: Caller, start: int, states: seq<Context>, events: seq<Event>, i: nat)
    requires Run(home, d, caller, start, states, events) && i < |events| && Spends(states[i], home, events[i])
    ensures events[i].at < states[0].expires
    ensures events[i].caller.agent == d.principal.agent && events[i].caller.profile == d.principal.profile
    ensures events[i].caller.connection == caller.connection
    ensures states[i].scope == [] || events[i].caller.origin in states[i].scope
    ensures Fulfilled(states[i])
  {
    hide Declared, Step;
    RunReaches(home, d, caller, start, states, events, i);
    DeclaredBinding(d, home, caller, start);
  }

  lemma DeclaredBinding(d: Declaration, home: Home, caller: Caller, now: int)
    ensures Declared(d, home, caller, now).connection == caller.connection
  {
    hide Compiled, Scope;
  }

  /** Over every run at most max_uses uses are granted, and the remaining count is exact. */
  lemma UsesAreBounded(home: Home, d: Declaration, caller: Caller, start: int, states: seq<Context>, events: seq<Event>, n: nat)
    requires Run(home, d, caller, start, states, events) && n <= |events|
    ensures Spent(home, states, events, n) <= d.maxUses
    ensures states[n].remaining == d.maxUses - Spent(home, states, events, n)
    ensures states[n].status == Ready ==> Fulfilled(states[n])
  {
    RunReaches(home, d, caller, start, states, events, n);
  }

  /** What a run's contract contains depends only on the declaration and on the union of the
      accepted observations, not on their order or grouping. */
  lemma ContractConfluence(home: Home, d: Declaration, caller: Caller, start: int, states: seq<Context>, events: seq<Event>, n: nat,
                           home': Home, caller': Caller, start': int, states': seq<Context>, events': seq<Event>, n': nat)
    requires Run(home, d, caller, start, states, events) && n <= |events|
    requires Run(home', d, caller', start', states', events') && n' <= |events'|
    requires Observed(home, states, events, n) == Observed(home', states', events', n')
    ensures SameContents(states[n].contract, states'[n'].contract)
  {
    hide Declared, Step, Observed, DeclaredKinds, DeclaredObligations, RuntimeObligations, BoundariesOf;
    RunReaches(home, d, caller, start, states, events, n);
    RunReaches(home', d, caller', start', states', events', n');
    assert Meets(states[n].contract, d.principal, d.dims, Observed(home, states, events, n));
    assert Meets(states'[n'].contract, d.principal, d.dims, Observed(home, states, events, n));
  }

  /** Equal as sets, and without duplicates on either side. */
  ghost predicate SameContents(a: Contract, b: Contract) {
    && Elements(a.active) == Elements(b.active) && Distinct(a.active) && Distinct(b.active)
    && Elements(a.required) == Elements(b.required) && Distinct(a.required) && Distinct(b.required)
    && Elements(a.boundaries) == Elements(b.boundaries) && Distinct(a.boundaries) && Distinct(b.boundaries)
  }

  /** Dimensions, obligations and boundaries are only ever appended to, and the minimum assurance
      never falls. */
  lemma {:induction false} ContractOnlyGrows(home: Home, d: Declaration, caller: Caller, start: int, states: seq<Context>,
                                             events: seq<Event>, i: nat, j: nat)
    requires Run(home, d, caller, start, states, events) && i <= j <= |events|
    ensures states[i].contract.active <= states[j].contract.active
    ensures states[i].contract.required <= states[j].contract.required
    ensures states[i].contract.boundaries <= states[j].contract.boundaries
    ensures AssuranceRank(states[i].assurance) <= AssuranceRank(states[j].assurance)
    ensures states[i].scope <= states[j].scope
  {
    hide Inv, Step, Declared, Spends, Accepted;
    if i < j {
      ContractOnlyGrows(home, d, caller, start, states, events, i, j - 1);
      RunReaches(home, d, caller, start, states, events, j - 1);
      StepAdvances(states[j - 1], home, events[j - 1]);
    }
  }

  // ---------------------------------------------------------------------------
  // Evidence and mismatches
  // ---------------------------------------------------------------------------

  function MismatchKinds(mismatches: seq<Mismatch>): (r: seq<Kind>)
    ensures |r| == |mismatches| && forall i :: 0 <= i < |r| ==> r[i] == mismatches[i].observed
  {
    seq(|mismatches|, i requires 0 <= i < |mismatches| => mismatches[i].observed)
  }

  ghost predicate OneItemPerCode(items: seq<Item>) {
    forall i, j :: 0 <= i < j < |items| ==> items[i].code != items[j].code
  }

  /** One mismatch for each of `kinds`, with the severity the principal calls for. */
  ghost predicate Mismatched(mismatches: seq<Mismatch>, p: Principal, kinds: set<Kind>) {
    && Distinct(MismatchKinds(mismatches)) && Elements(MismatchKinds(mismatches)) == kinds
    && forall i :: 0 <= i < |mismatches| ==> mismatches[i].severity == SeverityOf(p, mismatches[i].observed)
  }

  lemma {:induction false} ItemsMerged(held: seq<Item>, items: seq<Item>)
    requires OneItemPerCode(held)
    ensures OneItemPerCode(AddItems(held, items))
    ensures held <= AddItems(held, items)
  {
    if items != [] {
      ItemsMerged(held, items[..|items| - 1]);
    }
  }

  lemma OneMoreMismatch(p: Principal, mismatches: seq<Mismatch>, kinds: set<Kind>, k: Kind, codes: seq<string>)
    requires Mismatched(mismatches, p, kinds)
    ensures HasMismatch(mismatches, k) <==> k in kinds
    ensures k !in kinds ==> Mismatched(mismatches + [Mismatch(k, SeverityOf(p, k), codes)], p, kinds + {k})
  {
    hide SeverityOf;
    var ks := MismatchKinds(mismatches);
    assert k in Elements(ks) <==> k in ks;
    assert HasMismatch(mismatches, k) <==> k in ks by {
      if k in ks {
        var i :| 0 <= i < |ks| && ks[i] == k;
        assert mismatches[i].observed == k;
      }
      if HasMismatch(mismatches, k) {
        var i :| 0 <= i < |mismatches| && mismatches[i].observed == k;
        assert ks[i] == k;
      }
    }
    var more := mismatches + [Mismatch(k, SeverityOf(p, k), codes)];
    assert MismatchKinds(more) == ks + [k];
    ElementsAppend(ks, [k]);
  }

  lemma {:induction false} MismatchesMerged(d: Declaration, held: seq<Mismatch>, kinds: set<Kind>, observed: seq<Kind>, items: seq<Item>)
    requires Mismatched(held, d.principal, kinds) && kinds !! DeclaredKinds(d.dims)
    ensures Mismatched(AddMismatches(d, held, observed, items), d.principal, kinds + (Elements(observed) - DeclaredKinds(d.dims)))
  {
    hide Mismatched, HasMismatch, SeverityOf, CodesFor;
    if observed == [] {
      assert kinds + (Elements(observed) - DeclaredKinds(d.dims)) == kinds;
    } else {
      var n, k := |observed| - 1, observed[|observed| - 1];
      MismatchesMerged(d, held, kinds, observed[..n], items);
      var before := kinds + (Elements(observed[..n]) - DeclaredKinds(d.dims));
      OneMoreMismatch(d.principal, AddMismatches(d, held, observed[..n], items), before, k, CodesFor(items, k));
      assert observed == observed[..n] + [k];
      ElementsAppend(observed[..n], [k]);
      assert IsDeclared(d, k) <==> k in DeclaredKinds(d.dims);
      assert kinds + (Elements(observed) - DeclaredKinds(d.dims)) == if IsDeclared(d, k) then before else before + {k};
      assert k in before ==> before + {k} == before;
    }
  }

  ghost predicate MismatchesKept(c: Context) {
    && OneItemPerCode(c.evidence)
    && Mismatched(c.mismatches, c.declaration.principal, Elements(c.observed) - DeclaredKinds(c.declaration.dims))
  }

  lemma EvidenceKeepsMismatches(c: Context, home: Home, e: Event)
    requires MismatchesKept(c) && e.Evidence?
    ensures MismatchesKept(Step(c, home, e))
  {
    hide Extend, Settled, Mismatched, OneItemPerCode, AddItems, AddMismatches, BoundTo, InScope, DeclaredKinds;
    var (g, stop) := Guarded(c, home, e.caller, true, e.at);
    if AcceptsEvidence(c, home, e.caller, e.at) {
      var declared := DeclaredKinds(c.declaration.dims);
      ItemsMerged(g.evidence, e.report.items);
      MismatchesMerged(g.declaration, g.mismatches, Elements(g.observed) - declared, e.report.observed, e.report.items);
      ElementsAppend(g.observed, e.report.observed);
      SettledOnlyStatus(Taken(g, e.report));
      assert Elements(g.observed) - declared + (Elements(e.report.observed) - declared)
        == Elements(Taken(g, e.report).observed) - declared;
    }
  }

  lemma StepKeepsMismatches(c: Context, home: Home, e: Event)
    requires MismatchesKept(c)
    ensures MismatchesKept(Step(c, home, e))
  {
    hide Mismatched, OneItemPerCode, BoundTo, InScope, DeclaredKinds, Pending, Evidenced, AttestationMissing;
    if e.Evidence? {
      EvidenceKeepsMismatches(c, home, e);
    }
  }

  /** At every point of a run there is one mismatch for each dimension observed but not declared,
      with the severity its principal calls for, and one evidence item per code. */
  lemma {:induction false} MismatchesExact(home: Home, d: Declaration, caller: Caller, start: int, states: seq<Context>,
                                           events: seq<Event>, n: nat)
    requires Run(home, d, caller, start, states, events) && n <= |events|
    ensures Mismatched(states[n].mismatches, d.principal, Observed(home, states, events, n) - DeclaredKinds(d.dims))
    ensures OneItemPerCode(states[n].evidence)
  {
    hide Mismatched, OneItemPerCode, Step, Declared, Observed;
    RunKeepsMismatches(home, d, caller, start, states, events, n);
    RunReaches(home, d, caller, start, states, events, n);
  }

  lemma {:induction false} RunKeepsMismatches(home: Home, d: Declaration, caller: Caller, start: int, states: seq<Context>,
                                              events: seq<Event>, n: nat)
    requires Run(home, d, caller, start, states, events) && n <= |events|
    ensures MismatchesKept(states[n])
  {
    hide MismatchesKept, Step, Declared;
    if n == 0 {
      DeclaredMatches(home, d, caller, start);
    } else {
      RunKeepsMismatches(home, d, caller, start, states, events, n - 1);
      StepKeepsMismatches(states[n - 1], home, events[n - 1]);
    }
  }

  lemma DeclaredMatches(home: Home, d: Declaration, caller: Caller, start: int)
    ensures MismatchesKept(Declared(d, home, caller, start))
  {
    hide Compiled, Scope;
  }

  /** A blocked context that has time and uses left goes on answering blocked, except to its own
      caller from a page outside the scope, which moves it to step-up. */
  lemma BlockedStaysExactly(c: Context, home: Home, e: Event)
    requires c.status == Blocked && c.remaining > 0 && e.at < c.expires
    ensures Step(c, home, e).status == Blocked <==>
      e.GetContract? || e.ExtendScope? || !BoundTo(c, home, e.caller) || InScope(c, e.caller)
  {
    hide Extend, Pending, Dedupe, AddItems, AddMismatches;
  }

  // ---------------------------------------------------------------------------
  // Uses without a granted authorization
  // ---------------------------------------------------------------------------

  /** A checked call of the bound caller from a page outside the origin scope. */
  predicate LeavesScope(c: Context, home: Home, e: Event) {
    && (e.Assert? || e.Evidence? || e.Consume? || e.Look?)
    && BoundTo(c, home, e.caller) && !InScope(c, e.caller)
  }

  /** A scope extension that is accepted. */
  predicate Readmits(c: Context, home: Home, e: Event) {
    e.ExtendScope? &&
    var (g, stop) := Guarded(c, home, e.caller, false, e.at);
    stop.None? && !(Terminal(g.status) && g.status != StepUpRequired) && e.site != ""
  }

  predicate ShutOut(c: Context) {
    c.status == Blocked || c.status == Expired || c.status == Consumed
  }

  predicate HeldBack(c: Context) {
    ShutOut(c) || c.status == StepUpRequired
  }

  lemma GuardedShutOut(c: Context, home: Home, caller: Caller, checkOrigin: bool, now: int)
    requires ShutOut(c)
    ensures var (g, stop) := Guarded(c, home, caller, checkOrigin, now);
      if checkOrigin && BoundTo(c, home, caller) && !InScope(c, caller)
      then g.status == StepUpRequired && stop.Some?
      else ShutOut(g)
  {
  }

  lemma ShutOutStays(c: Context, home: Home, e: Event)
    requires ShutOut(c)
    ensures !Readmits(c, home, e) && HeldBack(Step(c, home, e))
    ensures !LeavesScope(c, home, e) ==> ShutOut(Step(c, home, e))
  {
    hide Guarded, BoundTo, InScope, Settled, Taken, Pending, AttestationMissing;
    if !e.GetContract? {
      GuardedShutOut(c, home, e.caller, !e.ExtendScope?, e.at);
    }
  }

  lemma HeldBackStays(c: Context, home: Home, e: Event)
    requires HeldBack(c)
    ensures !Spends(c, home, e)
    ensures !Readmits(c, home, e) ==> HeldBack(Step(c, home, e))
  {
    hide Extend, Pending, Dedupe, AddItems, AddMismatches;
  }

  lemma UngrantedShutOut(d: Declaration, home: Home, caller: Caller, now: int)
    requires !d.granted
    ensures ShutOut(Declared(d, home, caller, now))
  {
    hide Compiled, Scope;
  }

  lemma {:induction false} LeftScopeBefore(home: Home, d: Declaration, caller: Caller, start: int, states: seq<Context>,
                                           events: seq<Event>, n: nat) returns (i: nat)
    requires Run(home, d, caller, start, states, events) && !d.granted && n <= |events| && !ShutOut(states[n])
    ensures i < n && LeavesScope(states[i], home, events[i])
  {
    hide Step, Declared, LeavesScope, ShutOut, UniqueKinds;
    UngrantedShutOut(d, home, caller, start);
    if ShutOut(states[n - 1]) {
      i := n - 1;
      ShutOutStays(states[i], home, events[i]);
    } else {
      i := LeftScopeBefore(home, d, caller, start, states, events, n - 1);
    }
  }

  lemma {:induction false} ReadmittedBefore(home: Home, d: Declaration, caller: Caller, start: int, states: seq<Context>,
                                            events: seq<Event>, n: nat) returns (j: nat)
    requires Run(home, d, caller, start, states, events) && !d.granted && n <= |events| && !HeldBack(states[n])
    ensures j < n && Readmits(states[j], home, events[j])
  {
    hide Step, Declared, Readmits, UniqueKinds;
    UngrantedShutOut(d, home, caller, start);
    if HeldBack(states[n - 1]) {
      j := n - 1;
      HeldBackStays(states[j], home, events[j]);
    } else {
      j := ReadmittedBefore(home, d, caller, start, states, events, n - 1);
    }
  }

  /** A use is granted although the authorization was not only after the bound caller called from
      outside the scope and, later, a scope extension was accepted. */
  lemma UngrantedUse(home: Home, d: Declaration, caller: Caller, start: int, states: seq<Context>, events: seq<Event>, m: nat)
    returns (i: nat, j: nat)
    requires Run(home, d, caller, start, states, events) && !d.granted
    requires m < |events| && Spends(states[m], home, events[m])
    ensures i < j < m && LeavesScope(states[i], home, events[i]) && Readmits(states[j], home, events[j])
  {
    hide Step, Declared, Readmits, LeavesScope, Spends, ShutOut, UniqueKinds;
    if HeldBack(states[m]) {
      HeldBackStays(states[m], home, events[m]);
    }
    j := ReadmittedBefore(home, d, caller, start, states, events, m);
    if ShutOut(states[j]) {
      ShutOutStays(states[j], home, events[j]);
    }
    i := LeftScopeBefore(home, d, caller, start, states, events, j);
  }
}
