/** Which declarations can be used at all, and how one whose authorization was not granted comes to
    be used. */
module SafetyUses {
  import opened Prelude
  import opened Assurances
  import opened SafetyTemplates
  import opened SafetyContext
  import opened SafetyRuns

  function Deadline(d: Declaration, now: int): int {
    if d.expiresAt.Some? then d.expiresAt.value else now + d.expiresIn
  }

  /** The clock starts at `start` and never goes back. */
  ghost predicate Timed(start: int, events: seq<Event>) {
    && (forall i :: 0 <= i < |events| ==> start <= events[i].at)
    && (forall i, j :: 0 <= i < j < |events| ==> events[i].at <= events[j].at)
  }

  /** A run on such a clock in which call `m` is granted a use. */
  ghost predicate GrantedAt(home: Home, d: Declaration, caller: Caller, now: int, states: seq<Context>, events: seq<Event>, m: nat) {
    && Run(home, d, caller, now, states, events) && Timed(now, events)
    && m < |events| && Spends(states[m], home, events[m])
  }

  ghost predicate Usable(home: Home, d: Declaration, caller: Caller, now: int) {
    exists states, events, m :: GrantedAt(home, d, caller, now, states, events, m)
  }

  // ---------------------------------------------------------------------------
  // What a use needs
  // ---------------------------------------------------------------------------

  lemma DeclaredFields(d: Declaration, home: Home, caller: Caller, now: int)
    ensures var c := Declared(d, home, caller, now);
      && c.declaration == d && c.contract == Compiled(d.principal, d.dims) && c.scope == Scope(d, caller)
      && c.expires == Deadline(d, now) && c.remaining == d.maxUses && c.assertions == map[]
      && c.connection == caller.connection && c.session == home.session && c.generation == home.generation
      && (now < c.expires && c.remaining > 0 ==>
           c.status == if !d.granted then Blocked else if c.contract.required == [] then Ready else AssertionRequired)
  {
    hide Compiled, Scope;
  }

  /** Without an origin scope no call comes from outside it, so nothing lifts the block. */
  lemma {:induction false} UnscopedStaysShutOut(home: Home, d: Declaration, caller: Caller, now: int, states: seq<Context>,
                                                events: seq<Event>, n: nat)
    requires Run(home, d, caller, now, states, events) && !d.granted && Scope(d, caller) == [] && n <= |events|
    ensures ShutOut(states[n]) && states[n].scope == []
  {
    hide Step, Declared, Scope, ShutOut, UniqueKinds, Readmits, BoundTo;
    if n == 0 {
      UngrantedShutOut(d, home, caller, now);
      DeclaredFields(d, home, caller, now);
    } else {
      UnscopedStaysShutOut(home, d, caller, now, states, events, n - 1);
      ShutOutStays(states[n - 1], home, events[n - 1]);
      ScopeStays(states[n - 1], home, events[n - 1]);
    }
  }

  lemma ScopeStays(c: Context, home: Home, e: Event)
    requires ShutOut(c)
    ensures Step(c, home, e).scope == c.scope
  {
    hide BoundTo, InScope, Settled, Taken, Pending, AttestationMissing;
  }

  lemma UseNeeds(home: Home, d: Declaration, caller: Caller, now: int, states: seq<Context>, events: seq<Event>, m: nat)
    requires GrantedAt(home, d, caller, now, states, events, m)
    ensures now < Deadline(d, now)
    ensures d.granted || Scope(d, caller) != []
  {
    hide Step, Declared, Scope, UniqueKinds, Spends, Deadline, ShutOut;
    UsesAreSound(home, d, caller, now, states, events, m);
    DeclaredFields(d, home, caller, now);
    if !d.granted && Scope(d, caller) == [] {
      UnscopedStaysShutOut(home, d, caller, now, states, events, m);
      HeldBackStays(states[m], home, events[m]);
    }
  }

  // ---------------------------------------------------------------------------
  // How a use is reached
  // ---------------------------------------------------------------------------

  /** A run whose calls are all made at `now`. */
  ghost predicate RunAt(home: Home, d: Declaration, caller: Caller, now: int, states: seq<Context>, events: seq<Event>) {
    Run(home, d, caller, now, states, events) && forall i :: 0 <= i < |events| ==> events[i].at == now
  }

  lemma OneMoreCall(home: Home, d: Declaration, caller: Caller, now: int, states: seq<Context>, events: seq<Event>, e: Event)
    requires RunAt(home, d, caller, now, states, events) && e.at == now
    ensures RunAt(home, d, caller, now, states + [Step(states[|events|], home, e)], events + [e])
  {
    hide Step, Declared, UniqueKinds;
  }

  /** The caller is bound to a context with time and uses left. */
  predicate Alive(c: Context, home: Home, caller: Caller, now: int) {
    BoundTo(c, home, caller) && c.remaining > 0 && now < c.expires && c.status != Consumed && c.status != Expired
  }

  lemma AliveGuarded(c: Context, home: Home, caller: Caller, now: int)
    requires Alive(c, home, caller, now)
    ensures Guarded(c, home, caller, false, now) == (c, None)
    ensures InScope(c, caller) ==> Guarded(c, home, caller, true, now) == (c, None)
    ensures !InScope(c, caller) ==>
      Guarded(c, home, caller, true, now) == (c.(status := StepUpRequired), Some(Reported(StepUpRequired)))
  {
  }

  /** Every obligation asserted as True, with an attestation that does not expire. */
  function Everything(c: Context): AssertionSet {
    AssertionSet(map o | o in c.contract.required :: true, Some(None))
  }

  lemma EverythingAsserted(c: Context, home: Home, caller: Caller, now: int)
    requires Alive(c, home, caller, now) && InScope(c, caller) && c.status == AssertionRequired
    ensures Step(c, home, Assert(caller, Everything(c), now))
         == c.(assertions := c.assertions + Everything(c).assertions, status := Ready)
  {
    hide BoundTo, InScope, Guarded;
    AliveGuarded(c, home, caller, now);
    var s := c.(assertions := c.assertions + Everything(c).assertions);
    SettledFulfilled(s);
  }

  lemma ReadySpends(c: Context, home: Home, caller: Caller, now: int)
    requires Alive(c, home, caller, now) && InScope(c, caller) && c.status == Ready
    ensures Spends(c, home, Consume(caller, now))
  {
    hide BoundTo, InScope, Guarded;
    AliveGuarded(c, home, caller, now);
  }

  /** From a context that is ready, or would be once everything is asserted. */
  lemma FinishUse(home: Home, d: Declaration, caller: Caller, now: int, states: seq<Context>, events: seq<Event>, who: Caller)
    returns (states': seq<Context>, events': seq<Event>)
    requires RunAt(home, d, caller, now, states, events)
    requires Alive(states[|events|], home, who, now) && InScope(states[|events|], who)
    requires states[|events|].status == Ready || states[|events|].status == AssertionRequired
    ensures RunAt(home, d, caller, now, states', events') && events <= events' && |events| < |events'| <= |events| + 2
    ensures Spends(states'[|events'| - 1], home, events'[|events'| - 1])
  {
    hide Step, Run, Spends, Everything;
    RunLength(home, d, caller, now, states, events);
    var c := states[|events|];
    states', events' := states, events;
    if c.status == AssertionRequired {
      var e := Assert(who, Everything(c), now);
      EverythingAsserted(c, home, who, now);
      OneMoreCall(home, d, caller, now, states', events', e);
      states', events' := states' + [Step(c, home, e)], events' + [e];
    }
    var ready, use := states'[|events'|], Consume(who, now);
    ReadySpends(ready, home, who, now);
    OneMoreCall(home, d, caller, now, states', events', use);
    states', events' := states' + [Step(ready, home, use)], events' + [use];
  }

  lemma RunLength(home: Home, d: Declaration, caller: Caller, now: int, states: seq<Context>, events: seq<Event>)
    requires Run(home, d, caller, now, states, events)
    ensures |states| == |events| + 1
  {
  }

  lemma Start(home: Home, d: Declaration, caller: Caller, now: int)
    requires d.maxUses > 0 && UniqueKinds(d.dims)
    ensures RunAt(home, d, caller, now, [Declared(d, home, caller, now)], [])
  {
    hide Declared;
  }

  lemma DeclaredAlive(home: Home, d: Declaration, caller: Caller, now: int, origin: string)
    requires d.maxUses > 0 && DeclarationError(d, home, caller).None? && now < Deadline(d, now)
    ensures Alive(Declared(d, home, caller, now), home, caller.(origin := origin), now)
  {
    hide Declared, Deadline;
    DeclaredFields(d, home, caller, now);
  }

  /** A granted declaration is used from a page inside its scope. */
  lemma GrantedUse(home: Home, d: Declaration, caller: Caller, now: int) returns (states: seq<Context>, events: seq<Event>)
    requires d.granted && d.maxUses > 0 && UniqueKinds(d.dims) && DeclarationError(d, home, caller).None? && now < Deadline(d, now)
    ensures RunAt(home, d, caller, now, states, events) && |events| > 0
    ensures Spends(states[|events| - 1], home, events[|events| - 1])
  {
    hide Declared, Deadline, Scope, Compiled, RunAt, Alive, DeclarationError, UniqueKinds, Spends;
    var c := Declared(d, home, caller, now);
    var inside := if c.scope == [] then caller.origin else c.scope[0];
    DeclaredFields(d, home, caller, now);
    DeclaredAlive(home, d, caller, now, inside);
    Start(home, d, caller, now);
    states, events := FinishUse(home, d, caller, now, [c], [], caller.(origin := inside));
  }

  /** A site longer than all sites of the scope together. */
  function Elsewhere(scope: seq<string>): (site: string)
    ensures site != ""
    ensures forall s :: s in scope ==> |s| < |site|
  {
    if scope == [] then "https://x"
    else
      assert scope == scope[..|scope| - 1] + [scope[|scope| - 1]];
      Elsewhere(scope[..|scope| - 1]) + seq(|scope[|scope| - 1]|, i => 'x')
  }

  lemma SteppedOut(c: Context, home: Home, who: Caller, now: int)
    requires Alive(c, home, who, now) && !InScope(c, who)
    ensures Step(c, home, Look(who, now)) == c.(status := StepUpRequired)
  {
    hide BoundTo, InScope, Guarded;
    AliveGuarded(c, home, who, now);
  }

  lemma Readmitted(c: Context, home: Home, who: Caller, site: string, now: int)
    requires Alive(c, home, who, now) && c.status == StepUpRequired && site != "" && site !in c.scope
    ensures var c' := Step(c, home, ExtendScope(who, site, now));
      && c' == c.(scope := c.scope + [site], status := c'.status)
      && (c'.status == Ready || c'.status == AssertionRequired)
  {
    hide BoundTo, InScope, Guarded;
    AliveGuarded(c, home, who, now);
  }

  /** A declaration that was not granted is used like this: look in from a page outside its scope,
      have that page admitted, assert what is required, use. */
  lemma UngrantedUseHappens(home: Home, d: Declaration, caller: Caller, now: int) returns (states: seq<Context>, events: seq<Event>)
    requires !d.granted && d.maxUses > 0 && UniqueKinds(d.dims) && DeclarationError(d, home, caller).None?
    requires Scope(d, caller) != [] && now < Deadline(d, now)
    ensures RunAt(home, d, caller, now, states, events) && 3 <= |events| <= 4
    ensures Spends(states[|events| - 1], home, events[|events| - 1])
  {
    hide Declared, Deadline, Scope, Compiled, Run, BoundTo, DeclarationError, UniqueKinds, Spends, Step, Elsewhere;
    var s0 := Declared(d, home, caller, now);
    DeclaredFields(d, home, caller, now);
    var site := Elsewhere(s0.scope);
    assert site !in s0.scope;
    var there := caller.(origin := site);
    DeclaredAlive(home, d, caller, now, site);
    Start(home, d, caller, now);
    var look, extend := Look(there, now), ExtendScope(there, site, now);
    SteppedOut(s0, home, there, now);
    OneMoreCall(home, d, caller, now, [s0], [], look);
    var s1 := Step(s0, home, look);
    SameBinding(s0, s1, home, there);
    Readmitted(s1, home, there, site, now);
    OneMoreCall(home, d, caller, now, [s0] + [s1], [] + [look], extend);
    var s2 := Step(s1, home, extend);
    SameBinding(s1, s2, home, there);
    states, events := FinishUse(home, d, caller, now, [s0] + [s1] + [s2], [] + [look] + [extend], there);
  }

  lemma SameBinding(c: Context, c': Context, home: Home, caller: Caller)
    requires BoundTo(c, home, caller) && c' == c.(scope := c'.scope, status := c'.status)
    ensures BoundTo(c', home, caller)
  {
  }

  // ---------------------------------------------------------------------------
  // The exact condition
  // ---------------------------------------------------------------------------

  lemma UsedIsUsable(home: Home, d: Declaration, caller: Caller, now: int, states: seq<Context>, events: seq<Event>)
    requires RunAt(home, d, caller, now, states, events) && |events| > 0
    requires Spends(states[|events| - 1], home, events[|events| - 1])
    ensures Usable(home, d, caller, now)
  {
    hide Run, Spends;
    assert GrantedAt(home, d, caller, now, states, events, |events| - 1);
  }

  /** An accepted declaration can ever be used exactly when its deadline has not passed and it was
      granted or has an origin scope. */
  lemma UsableExactly(home: Home, d: Declaration, caller: Caller, now: int)
    requires d.maxUses > 0 && UniqueKinds(d.dims) && DeclarationError(d, home, caller).None?
    ensures Usable(home, d, caller, now) <==> now < Deadline(d, now) && (d.granted || Scope(d, caller) != [])
  {
    hide Scope, Deadline, UniqueKinds, DeclarationError, GrantedAt, RunAt, Spends;
    if Usable(home, d, caller, now) {
      var states, events, m :| GrantedAt(home, d, caller, now, states, events, m);
      UseNeeds(home, d, caller, now, states, events, m);
    }
    if now < Deadline(d, now) && (d.granted || Scope(d, caller) != []) {
      var states, events;
      if d.granted {
        states, events := GrantedUse(home, d, caller, now);
      } else {
        states, events := UngrantedUseHappens(home, d, caller, now);
      }
      UsedIsUsable(home, d, caller, now, states, events);
    }
  }

  /** One that was not granted, with something to assert. */
  lemma UngrantedUseExists() returns (home: Home, d: Declaration, caller: Caller)
    ensures !d.granted && d.dims == [Dimension(DestructiveChange, UserOwned, false, false)]
    ensures DeclarationError(d, home, caller).None? && Usable(home, d, caller, 0)
  {
    hide Usable, Scope;
    home := Home(None, "s", "g");
    caller := Caller("a", "p", "c", "https://one.example", "https://one.example");
    d := Declaration(Principal("a", "p", AgentOwned, TrustedAgent), [Dimension(DestructiveChange, UserOwned, false, false)],
                     false, ["https://one.example"], None, 3600, 1);
    OneOrigin(d, caller);
    UsableExactly(home, d, caller, 0);
  }

  lemma OneOrigin(d: Declaration, caller: Caller)
    requires d.origins == ["https://one.example"]
    ensures Scope(d, caller) == ["https://one.example"]
  {
    assert ["https://one.example"][..0] == [];
    assert Present(d.origins) == ["https://one.example"];
    DedupeOfDistinct(["https://one.example"]);
  }
}
