/** What each operation on a safety context needs, spelled out from the context itself, and where the
    assertions behind a granted use come from. */
module SafetyAssertions {
  import opened Prelude
  import opened SafetyTemplates
  import opened SafetyContext
  import opened SafetyRuns

  // ---------------------------------------------------------------------------
  // One call
  // ---------------------------------------------------------------------------

  /** The caller is the one the context is bound to, in the session it belongs to. */
  predicate Bound(c: Context, home: Home, caller: Caller) {
    && caller.agent == c.declaration.principal.agent && caller.profile == c.declaration.principal.profile
    && (home.profile == None || home.profile == Some(caller.profile))
    && caller.connection == c.connection && home.session == c.session && home.generation == c.generation
  }

  /** The call comes from a page the context is for. */
  predicate FromScope(c: Context, caller: Caller) {
    |c.scope| > 0 ==> caller.origin in c.scope
  }

  /** Neither the deadline nor the last use has passed. */
  predicate InTime(c: Context, now: int) {
    c.status != Expired && c.status != Consumed && now < c.expires && c.remaining > 0
  }

  /** Every call by somebody else is turned away, then every call from elsewhere, which also asks for a
      step-up; what is left of the status is `expired` from the deadline on, `consumed` without uses. */
  lemma TurnedAwayExactly(c: Context, home: Home, caller: Caller, checkOrigin: bool, now: int)
    ensures var (g, stop) := Guarded(c, home, caller, checkOrigin, now);
      && g == c.(status := g.status)
      && (stop.None? <==> Bound(c, home, caller) && (checkOrigin ==> FromScope(c, caller)))
      && (stop.Some? ==> stop.value == if Bound(c, home, caller) then Reported(StepUpRequired) else WrongBinding)
      && (if stop == Some(Reported(StepUpRequired)) then g.status == StepUpRequired
          else if InTime(c, now) then g.status == c.status
          else g.status == if c.status == Consumed || (c.status != Expired && now < c.expires) then Consumed else Expired)
  {
  }

  lemma {:induction false} PresentExactly(values: seq<string>, v: string)
    ensures v in Present(values) <==> v in values && v != ""
  {
    if values != [] {
      var n := |values| - 1;
      PresentExactly(values[..n], v);
      assert values == values[..n] + [values[n]];
    }
  }

  /** A new context is for the declared origins, or for the page it was declared on; it ends at the
      declared instant or after the declared time, and starts out blocked unless it was granted. */
  lemma DeclaredExactly(d: Declaration, home: Home, caller: Caller, now: int)
    ensures var c := Declared(d, home, caller, now);
      && c.declaration == d && c.contract == Compiled(d.principal, d.dims)
      && c.connection == caller.connection && c.session == home.session && c.generation == home.generation
      && c.expires == (if d.expiresAt.Some? then d.expiresAt.value else now + d.expiresIn)
      && c.remaining == d.maxUses && c.assertions == map[] && c.observed == [] && c.evidence == [] && c.mismatches == []
      && Distinct(c.scope)
      && (forall s :: s in c.scope <==>
            s != "" && if d.origins == [] then caller.origin != "" && s == caller.site else s in d.origins)
      && c.status == (if now >= c.expires then Expired else if d.maxUses == 0 then Consumed
                      else if !d.granted then Blocked else if Fulfilled(c) then Ready else AssertionRequired)
  {
    hide Compiled, Present, Dedupe;
    var c := Declared(d, home, caller, now);
    var sites := if d.origins != [] then d.origins else if caller.origin != "" then [caller.site] else [];
    forall s ensures s in c.scope <==> s in sites && s != "" {
      PresentExactly(sites, s);
      assert s in Elements(c.scope) <==> s in Elements(Present(sites));
    }
    if c.contract.required != [] {
      assert c.contract.required[0] in c.contract.required && Get(c.assertions, c.contract.required[0]) == None;
    }
  }

  /** The context can take assertions and evidence from this call. */
  predicate Open(c: Context, home: Home, caller: Caller, now: int) {
    (c.status == Ready || c.status == AssertionRequired) && InTime(c, now) && Bound(c, home, caller) && FromScope(c, caller)
  }

  /** A declaration attested by the host takes only assertions with an attestation still in force. */
  predicate Attested(c: Context, a: AssertionSet, now: int) {
    c.declaration.principal.trust == HostAttested ==>
      a.attestation.Some? && (a.attestation.value.Some? ==> now < a.attestation.value.value)
  }

  predicate Takes(c: Context, home: Home, caller: Caller, a: AssertionSet, now: int) {
    Open(c, home, caller, now) && Attested(c, a, now)
  }

  /** An assertion call records its assertions exactly when the context is open and they are attested as
      the declaration demands, and then settles whether anything is pending. Otherwise it records
      nothing; an open context then waits for assertions, whatever it was before. */
  lemma AssertedExactly(c: Context, home: Home, caller: Caller, a: AssertionSet, now: int)
    ensures var (c', verdict) := Asserted(c, home, caller, a, now);
      && c' == c.(assertions := if Takes(c, home, caller, a, now) then c.assertions + a.assertions else c.assertions,
                  status := c'.status)
      && (Takes(c, home, caller, a, now) ==>
            c'.status == (if Fulfilled(c') then Ready else AssertionRequired) && verdict == Reported(c'.status))
      && (Open(c, home, caller, now) && !Attested(c, a, now) ==>
            c'.status == AssertionRequired && verdict == Reported(AssertionRequired))
      && (!Open(c, home, caller, now) ==> verdict == Turned(c, home, caller, now) && c'.status == StatusLeft(c, home, caller, now))
  {
    hide Fulfilled, Settled, Guarded;
    TurnedAwayExactly(c, home, caller, true, now);
    SettledFulfilled(c.(assertions := c.assertions + a.assertions));
    SettledOnlyStatus(c.(assertions := c.assertions + a.assertions));
  }

  /** The status a call leaves behind that finds the context not open to it. */
  function StatusLeft(c: Context, home: Home, caller: Caller, now: int): Status {
    if Bound(c, home, caller) && !FromScope(c, caller) then StepUpRequired
    else if InTime(c, now) then c.status
    else if c.status == Consumed || (c.status != Expired && now < c.expires) then Consumed
    else Expired
  }

  function Turned(c: Context, home: Home, caller: Caller, now: int): Verdict {
    if !Bound(c, home, caller) then WrongBinding else Reported(StatusLeft(c, home, caller, now))
  }

  /** A use is granted exactly in an open context that is ready; it is taken off the remaining ones, and
      the last one consumes the context. */
  lemma UsedExactly(c: Context, home: Home, caller: Caller, now: int)
    ensures Grants(c, home, caller, now) <==> c.status == Ready && Open(c, home, caller, now)
    ensures var (c', verdict) := Used(c, home, caller, now);
      if c.status == Ready && Open(c, home, caller, now) then
        && c' == c.(remaining := c.remaining - 1, status := if c.remaining == 1 then Consumed else Ready)
        && verdict == Reported(c'.status)
      else
        c' == c.(status := StatusLeft(c, home, caller, now)) && verdict == Turned(c, home, caller, now)
  {
    hide Guarded;
    TurnedAwayExactly(c, home, caller, true, now);
  }

  /** Looking at a context turns away as any call does, and tells everybody else the status that is left. */
  lemma LookedExactly(c: Context, home: Home, caller: Caller, now: int)
    ensures Looked(c, home, caller, now) == (c.(status := StatusLeft(c, home, caller, now)), Turned(c, home, caller, now))
  {
    hide Guarded;
    TurnedAwayExactly(c, home, caller, true, now);
  }

  /** Evidence is taken in exactly by an open context; it is then settled again. */
  lemma EvidencedExactly(c: Context, home: Home, caller: Caller, r: Report, now: int)
    ensures AcceptsEvidence(c, home, caller, now) <==> Open(c, home, caller, now)
    ensures var (c', verdict) := Evidenced(c, home, caller, r, now);
      if Open(c, home, caller, now) then
        && c' == Taken(c, r).(status := c'.status) && verdict == Reported(c'.status)
        && c'.status == (if Fulfilled(c') then Ready else AssertionRequired)
      else
        c' == c.(status := StatusLeft(c, home, caller, now)) && verdict == Turned(c, home, caller, now)
  {
    hide Guarded, Settled, Fulfilled, AddItems, AddMismatches, Extend, Dedupe;
    TurnedAwayExactly(c, home, caller, true, now);
    SettledFulfilled(Taken(c, r));
    SettledOnlyStatus(Taken(c, r));
    assert forall s :: Taken(c.(status := s), r) == Taken(c, r).(status := s);
  }

  /** An origin is added exactly by the bound caller, in time, unless the context is blocked or waits for
      a takeover; the context then no longer waits for a step-up. */
  lemma ScopeExtendedExactly(c: Context, home: Home, caller: Caller, site: string, now: int)
    ensures var (c', verdict) := ScopeExtended(c, home, caller, site, now);
      if InTime(c, now) && Bound(c, home, caller) && c.status != Blocked && c.status != TakeoverRequired && site != "" then
        && c' == c.(scope := if site in c.scope then c.scope else c.scope + [site], status := c'.status)
        && c'.status == (if Fulfilled(c') then Ready else AssertionRequired) && verdict == Reported(c'.status)
      else
        && c' == c.(status := c'.status)
        && c'.status == (if InTime(c, now) then c.status
                         else if c.status == Consumed || (c.status != Expired && now < c.expires) then Consumed else Expired)
        && (verdict == WrongBinding <==> !Bound(c, home, caller))
  {
    hide Guarded, Settled, Fulfilled;
    TurnedAwayExactly(c, home, caller, false, now);
    var s := c.(scope := if site in c.scope then c.scope else c.scope + [site]);
    SettledFulfilled(s);
    SettledOnlyStatus(s);
  }

  /** A dimension that was observed but not declared only leaves a trace for an unknown effect of a
      trusted agent on its own account, needs a step-up for one on the user's, and assertions otherwise. */
  lemma SeverityExactly(p: Principal, k: Kind)
    ensures SeverityOf(p, k) == AuditOnly <==> k == UnknownExternalEffect && p.owner == AgentOwned && p.trust == TrustedAgent
    ensures SeverityOf(p, k) == NeedsStepUp <==> k == UnknownExternalEffect && p.owner == UserOwned
  {
  }

  /** A mismatch carries the codes of just those items of its report that speak for its dimension. */
  lemma {:induction false} CodesExactly(items: seq<Item>, k: Kind, code: string)
    ensures code in CodesFor(items, k) <==> Item(code, Some(k)) in items
  {
    if items != [] {
      CodesExactly(items[..|items| - 1], k, code);
      assert items == items[..|items| - 1] + [items[|items| - 1]];
    }
  }

  // ---------------------------------------------------------------------------
  // Over runs
  // ---------------------------------------------------------------------------

  /** An assertion call that the context takes and that speaks about the obligation. */
  predicate Asserts(c: Context, home: Home, e: Event, o: Obligation) {
    e.Assert? && Takes(c, home, e.caller, e.given, e.at) && o in e.given.assertions
  }

  /** Event n is the last of the first i that recorded something about the obligation. */
  ghost predicate LastAsserted(home: Home, states: seq<Context>, events: seq<Event>, o: Obligation, n: nat, i: nat)
    requires i <= |events| < |states|
  {
    && n < i && Asserts(states[n], home, events[n], o)
    && forall m :: n < m < i ==> !Asserts(states[m], home, events[m], o)
  }

  /** One event changes what is recorded about an obligation exactly if it asserts it. */
  lemma AssertionStep(c: Context, home: Home, e: Event, o: Obligation)
    ensures Get(Step(c, home, e).assertions, o) ==
      if Asserts(c, home, e, o) then Some(e.given.assertions[o]) else Get(c.assertions, o)
  {
    hide Guarded, Settled, Taken, Open, Bound, FromScope, InTime, StatusLeft, Turned, Fulfilled, Attested;
    match e
    case Assert(caller, given, now) => AssertedExactly(c, home, caller, given, now);
    case Evidence(caller, report, now) => EvidencedExactly(c, home, caller, report, now); TakenAsserts(c, report);
    case ExtendScope(caller, site, now) => ScopeExtendedExactly(c, home, caller, site, now);
    case Consume(caller, now) => UsedExactly(c, home, caller, now);
    case Look(caller, now) => TurnedAwayExactly(c, home, caller, true, now);
    case GetContract(_) =>
  }

  lemma TakenAsserts(c: Context, r: Report)
    ensures Taken(c, r).assertions == c.assertions
  {
    hide AddItems, AddMismatches, Extend, Dedupe;
  }

  /** What is recorded about the obligation after i events is what event n, the last about it, asserted. */
  ghost predicate RecordedBy(home: Home, states: seq<Context>, events: seq<Event>, o: Obligation, n: nat, i: nat)
    requires i <= |events| < |states|
  {
    && LastAsserted(home, states, events, o, n, i)
    && Get(events[n].given.assertions, o) == Get(states[i].assertions, o)
  }

  lemma RecordedLater(home: Home, states: seq<Context>, events: seq<Event>, o: Obligation, n: nat, i: nat)
    requires 0 < i <= |events| < |states| && states[i] == Step(states[i - 1], home, events[i - 1])
    requires RecordedBy(home, states, events, o, n, i - 1) && !Asserts(states[i - 1], home, events[i - 1], o)
    ensures RecordedBy(home, states, events, o, n, i)
  {
    hide Step, Takes;
    AssertionStep(states[i - 1], home, events[i - 1], o);
  }

  lemma RecordedNow(home: Home, states: seq<Context>, events: seq<Event>, o: Obligation, i: nat)
    requires i < |events| < |states| && states[i + 1] == Step(states[i], home, events[i])
    requires Asserts(states[i], home, events[i], o)
    ensures RecordedBy(home, states, events, o, i, i + 1)
  {
    hide Step, Takes;
    AssertionStep(states[i], home, events[i], o);
  }

  /** Whatever is recorded about an obligation was asserted by the last call about it. */
  lemma {:induction false} RecordedByLast(home: Home, states: seq<Context>, events: seq<Event>, o: Obligation, i: nat)
    requires |states| == |events| + 1 && i <= |events| && states[0].assertions == map[]
    requires forall k :: 0 <= k < |events| ==> states[k + 1] == Step(states[k], home, events[k])
    requires o in states[i].assertions
    ensures exists n: nat :: RecordedBy(home, states, events, o, n, i)
  {
    hide Step, Asserts, RecordedBy;
    if i > 0 {
      if Asserts(states[i - 1], home, events[i - 1], o) {
        RecordedNow(home, states, events, o, i - 1);
      } else {
        AssertionStep(states[i - 1], home, events[i - 1], o);
        assert Get(states[i - 1].assertions, o) == Get(states[i].assertions, o);
        RecordedByLast(home, states, events, o, i - 1);
        var n: nat :| RecordedBy(home, states, events, o, n, i - 1);
        RecordedLater(home, states, events, o, n, i);
      }
    }
  }

  /** Event n asserted the obligation as True, in a context open to its caller, and with an attestation in
      force at that call if the declaration is attested by the host; no later event took it back. */
  ghost predicate Vouched(home: Home, states: seq<Context>, events: seq<Event>, d: Declaration, o: Obligation, n: nat, i: nat)
    requires i <= |events| < |states|
  {
    && n < i && events[n].Assert? && Get(events[n].given.assertions, o) == Some(true)
    && Open(states[n], home, events[n].caller, events[n].at)
    && (d.principal.trust == HostAttested ==>
          events[n].given.attestation.Some?
          && (events[n].given.attestation.value.Some? ==> events[n].at < events[n].given.attestation.value.value))
    && forall m :: n < m < i ==> !Asserts(states[m], home, events[m], o)
  }

  /** Behind every granted use, each obligation required by then was asserted by a call with whatever
      attestation the declaration demands, and not asserted otherwise since. */
  lemma UsesAreVouchedFor(home: Home, d: Declaration, caller: Caller, start: int, states: seq<Context>, events: seq<Event>,
                          i: nat, o: Obligation)
    requires Run(home, d, caller, start, states, events) && i < |events| && Spends(states[i], home, events[i])
    requires o in states[i].contract.required
    ensures exists n: nat :: Vouched(home, states, events, d, o, n, i)
  {
    hide Declared, Step, Spends, RecordedBy, Inv;
    UsesAreSound(home, d, caller, start, states, events, i);
    DeclaredUnasserted(d, home, caller, start);
    assert Get(states[i].assertions, o) == Some(true);
    RecordedByLast(home, states, events, o, i);
    var n: nat :| RecordedBy(home, states, events, o, n, i);
    LastBefore(home, states, events, o, n, i);
    RunReaches(home, d, caller, start, states, events, n);
    LastVouches(home, states, events, d, o, n, i);
  }

  lemma LastBefore(home: Home, states: seq<Context>, events: seq<Event>, o: Obligation, n: nat, i: nat)
    requires i <= |events| < |states| && RecordedBy(home, states, events, o, n, i)
    ensures n < i
  {
  }

  lemma LastVouches(home: Home, states: seq<Context>, events: seq<Event>, d: Declaration, o: Obligation, n: nat, i: nat)
    requires i <= |events| < |states| && RecordedBy(home, states, events, o, n, i)
    requires Get(states[i].assertions, o) == Some(true) && states[n].declaration == d
    ensures Vouched(home, states, events, d, o, n, i)
  {
    hide Open;
  }

  lemma DeclaredUnasserted(d: Declaration, home: Home, caller: Caller, now: int)
    ensures Declared(d, home, caller, now).assertions == map[]
  {
    hide Compiled, Scope;
  }
}
