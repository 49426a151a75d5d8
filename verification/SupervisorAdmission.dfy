/** Which calls the supervisor lets through, said of the state before the call: the gates turn away
    exactly the callers without the connection, the profile, the grant or the lease they need. */
module SupervisorAdmission {
  import opened Prelude
  import opened WebObjects
  import opened Routes
  import opened SessionManager
  import opened SessionRouting
  import opened SupervisorModel
  import opened SupervisorInvariant

  /** The connection is named, and not taken by another agent. */
  predicate MayConnect(w: World, connection: string, agent: string, now: int) {
    connection != "" && !TakenByOther(w.contexts, connection, agent, now)
  }

  /** The agent's connection, not yet expired, points at the active session. */
  predicate PointsAt(w: World, connection: string, agent: string, e: Entry, now: int) {
    && connection != "" && connection in w.contexts
    && var x := w.contexts[connection];
       now < x.expires && x.agent == agent && x.current == Some(e.session) && ActiveEntry(w, e)
  }

  /** The profile, as the repository has it now, admits the agent, who holds a grant for it. */
  predicate MayUse(w: World, connection: string, agent: string, p: Option<Profile>, now: int) {
    p.Some? && Admits(p.value, agent) && HoldsGrant(w.grants.held, connection, p.value.id, agent, now)
  }

  function ClaimTo(connection: string, agent: string, e: Entry): Claim {
    Claim(agent, connection, e.session, e.profile.id, e.generation)
  }

  predicate MayWrite(w: World, connection: string, agent: string, p: Option<Profile>, e: Entry, now: int) {
    && PointsAt(w, connection, agent, e, now) && MayUse(w, connection, agent, p, now)
    && LeasedFor(w.leases.held, ClaimTo(connection, agent, e), now)
  }

  /** The session is free, or leased to this very agent over this connection. */
  predicate MayLease(w: World, connection: string, agent: string, e: Entry, now: int) {
    Leased(w.leases.held, e.session, now) ==> LeasedFor(w.leases.held, ClaimTo(connection, agent, e), now)
  }

  // ---------------------------------------------------------------------------
  // The parts of the gates
  // ---------------------------------------------------------------------------

  /** Connecting changes the contexts only; what the connection pointed at before its expiry, it still does. */
  lemma Connected(w: World, cfg: Config, connection: string, agent: string, now: int)
    requires Inv(w)
    ensures var o := ConnectWorld(w, cfg, connection, agent, now);
      && (o.answer.Ok? <==> MayConnect(w, connection, agent, now))
      && o.world == w.(contexts := o.world.contexts) && Inv(o.world)
      && (o.answer.Ok? ==>
           && connection in o.world.contexts && o.world.contexts[connection].agent == agent
           && forall e: Entry :: CurrentSession(o.world, connection) == Some(e) <==> PointsAt(w, connection, agent, e, now))
  {
    hide Inv;
    ConnectKeepsInv(w, cfg, connection, agent, now);
    var o := ConnectWorld(w, cfg, connection, agent, now);
    if o.answer.Ok? && CurrentSession(o.world, connection).Some? {
      CurrentNamed(o.world, connection);
    }
  }

  lemma CurrentNamed(w: World, connection: string)
    requires Inv(w) && connection in w.contexts && CurrentSession(w, connection).Some?
    ensures CurrentSession(w, connection).value.session == w.contexts[connection].current.value
  {
    assert IndexedByProfile(w.sessions, w.contexts[connection].current.value);
  }

  /** A required grant is there exactly for an agent who may use the profile; nothing else changes. */
  lemma RequiredExactly(w: World, cfg: Config, connection: string, e: Entry, p: Option<Profile>, now: int)
    requires connection in w.contexts
    ensures var o := RequireProfile(w, cfg, connection, e, p, now);
      && (o.answer.Ok? <==> MayUse(w, connection, w.contexts[connection].agent, p, now))
      && (o.answer.Ok? ==> o.answer.value == e)
      && o.world == w.(grants := o.world.grants)
  {
  }

  /** A required lease is there exactly for its own claim; a lease that may be taken is not another's. */
  lemma LeasedExactly(w: World, cfg: Config, connection: string, e: Entry, now: int)
    requires connection in w.contexts
    ensures var agent := w.contexts[connection].agent;
      && (RequireWrite(w, cfg, connection, e, now).answer.Ok? <==> LeasedFor(w.leases.held, ClaimTo(connection, agent, e), now))
      && (RequireWrite(w, cfg, connection, e, now).answer.Ok? ==> RequireWrite(w, cfg, connection, e, now).answer.value == e)
      && RequireWrite(w, cfg, connection, e, now).world.objects == w.objects
      && (AcquireWrite(w, cfg, connection, e, now).answer.Ok? <==> MayLease(w, connection, agent, e, now))
  {
  }

  // ---------------------------------------------------------------------------
  // The gates
  // ---------------------------------------------------------------------------

  lemma CurrentForWriteExactly(w: World, cfg: Config, connection: string, p: Option<Profile>, now: int)
    requires connection in w.contexts
    ensures var o, e := CurrentForWrite(w, cfg, connection, p, now), CurrentSession(w, connection);
      var agent := w.contexts[connection].agent;
      && o.world.objects == w.objects
      && (o.answer.Ok? <==>
           e.Some? && MayUse(w, connection, agent, p, now) && LeasedFor(w.leases.held, ClaimTo(connection, agent, e.value), now))
      && (o.answer.Ok? ==> o.answer.value == e.value)
  {
    hide RequireProfile, RequireWrite, MayUse, LeasedFor, CurrentSession;
    var e := CurrentSession(w, connection);
    if e.Some? {
      RequiredExactly(w, cfg, connection, e.value, p, now);
      LeasedExactly(RequireProfile(w, cfg, connection, e.value, p, now).world, cfg, connection, e.value, now);
    }
  }

  lemma PointingConnects(w: World, connection: string, agent: string, now: int)
    ensures forall e: Entry :: PointsAt(w, connection, agent, e, now) ==> MayConnect(w, connection, agent, now)
  {
  }

  lemma LocalizeOne(t: Table, id: Id, e: Entry)
    ensures LocalizeAll(t, [id], e) <==> Localize(t, id, e.session, e.generation).Ok?
  {
    hide Localize;
    assert [id][0] == id;
  }

  /** act_web goes ahead exactly when the agent's connection points at an active session, the profile
      admits the agent, its grant and its lease are running, and the target is of that session. */
  lemma ActsExactly(w: World, cfg: Config, connection: string, agent: string, p: Option<Profile>, target: Id, now: int)
    requires Inv(w)
    ensures var o := ActGate(w, cfg, connection, agent, p, target, now);
      && (o.answer.Ok? <==> exists e ::
            MayWrite(w, connection, agent, p, e, now) && Localize(w.objects, target, e.session, e.generation).Ok?)
      && (o.answer.Ok? ==> MayWrite(w, connection, agent, p, o.answer.value, now))
  {
    hide Inv, ConnectWorld, CurrentForWrite, HoldsGrant, LeasedFor, PointsAt, CurrentSession, Localize, LocalizeAll, Admits;
    Connected(w, cfg, connection, agent, now);
    PointingConnects(w, connection, agent, now);
    var c := ConnectWorld(w, cfg, connection, agent, now);
    if c.answer.Ok? {
      CurrentForWriteExactly(c.world, cfg, connection, p, now);
      if CurrentSession(c.world, connection).Some? {
        LocalizeOne(w.objects, target, CurrentSession(c.world, connection).value);
      }
    }
  }

  /** Entering a profile needs its access, a supervisor that is not closed, and its active session or one
      that is launched now; and for writing that nobody else has that session. */
  predicate MayEnter(w: World, connection: string, agent: string, p: Option<Profile>, launch: Launch, write: bool, now: int) {
    && p.Some? && Admits(p.value, agent) && !w.closed
    && match ByProfile(w.sessions, p.value.id)
       case Some(e) => write ==> MayLease(w, connection, agent, e, now)
       case None => launch == Launched
  }

  /** The session that is entered. */
  function SessionOf(w: World, p: Profile): Entry {
    match ByProfile(w.sessions, p.id)
    case Some(e) => e
    case None => Entry(w.issued, w.issued, p)
  }

  lemma EnsuredExactly(w: World, p: Profile, launch: Launch)
    requires Inv(w)
    ensures var o := EnsureSession(w, p, launch);
      && (o.answer.Ok? <==> !w.closed && (ByProfile(w.sessions, p.id).Some? || launch == Launched))
      && (o.answer.Ok? ==> o.answer.value == SessionOf(w, p))
      && o.world.objects == w.objects && o.world.leases == w.leases && o.world.contexts == w.contexts && Inv(o.world)
      && (o.answer.Ok? ==> ActiveEntry(o.world, o.answer.value))
  {
    EnsureKeepsInv(w, p, launch);
    Indexed(w, p.id);
    hide Inv, Add, ByProfile;
  }

  lemma Indexed(w: World, profile: string)
    requires Inv(w)
    ensures profile in w.sessions.byProfile <==> ByProfile(w.sessions, profile).Some?
    ensures w.issued !in w.leases.held
  {
    assert profile in w.sessions.byProfile ==> IndexedByProfile(w.sessions, w.sessions.byProfile[profile]);
    assert w.issued in w.leases.held ==> w.issued in w.sessions.entries;
  }

  lemma EnteredExactly(w: World, cfg: Config, connection: string, p: Option<Profile>, launch: Launch, write: bool, now: int)
    requires Inv(w) && connection in w.contexts
    ensures var o := EnterProfile(w, cfg, connection, p, launch, write, now);
      && (o.answer.Ok? <==> MayEnter(w, connection, w.contexts[connection].agent, p, launch, write, now))
      && (o.answer.Ok? ==> o.answer.value == SessionOf(w, p.value))
      && o.world.objects == w.objects
  {
    hide Inv, EnsureSession, EnterSession, MayLease, ByProfile;
    if p.Some? && Admits(p.value, w.contexts[connection].agent) {
      GrantKeepsInv(w, cfg, connection, p.value, now);
      var granted := GrantProfile(w, cfg, connection, p.value, now).world;
      EnsuredExactly(granted, p.value, launch);
      var ensured := EnsureSession(granted, p.value, launch);
      if ensured.answer.Ok? {
        SessionEntered(ensured.world, cfg, connection, ensured.answer.value, write, now);
        LeaseAlike(w, ensured.world, connection, w.contexts[connection].agent, SessionOf(w, p.value), now);
      }
    }
  }

  lemma LeaseAlike(w: World, w': World, connection: string, agent: string, e: Entry, now: int)
    requires w'.leases == w.leases && Inv(w)
    ensures MayLease(w', connection, agent, e, now) == MayLease(w, connection, agent, e, now)
    ensures e.session == w.issued ==> MayLease(w, connection, agent, e, now)
  {
    Indexed(w, "");
  }

  lemma SessionEntered(w: World, cfg: Config, connection: string, e: Entry, write: bool, now: int)
    requires connection in w.contexts
    ensures var o := EnterSession(w, cfg, connection, e, write, now);
      && (o.answer.Ok? <==> (write ==> MayLease(w, connection, w.contexts[connection].agent, e, now)))
      && (o.answer.Ok? ==> o.answer.value == e)
      && o.world.objects == w.objects
  {
    hide Acquire, AcquireError, MayLease;
    LeasedExactly(w, cfg, connection, e, now);
  }

  /** open_web and the compatibility facade go ahead exactly for an agent that may connect and enter. */
  lemma EntersExactly(w: World, cfg: Config, connection: string, agent: string, p: Option<Profile>, launch: Launch, write: bool, now: int)
    requires Inv(w)
    ensures var o := EnterGate(w, cfg, connection, agent, p, launch, write, now);
      && (o.answer.Ok? <==> MayConnect(w, connection, agent, now) && MayEnter(w, connection, agent, p, launch, write, now))
      && (o.answer.Ok? ==> o.answer.value == SessionOf(w, p.value))
  {
    hide Inv, ConnectWorld, EnterProfile, PointsAt, CurrentSession, Leased, LeasedFor, Admits, ByProfile;
    Connected(w, cfg, connection, agent, now);
    var c := ConnectWorld(w, cfg, connection, agent, now);
    if c.answer.Ok? {
      EnteredExactly(c.world, cfg, connection, p, launch, write, now);
    }
  }

  /** Renewing a lease on the way never fails: a lease this agent has on an active session names it. */
  lemma RenewalNeverFails(w: World, cfg: Config, connection: string, e: Entry, now: int)
    requires Inv(w) && connection in w.contexts && ActiveEntry(w, e)
    ensures var o := RenewOwned(w, cfg, connection, e, now);
      o.answer == Ok(e) && o.world.objects == w.objects
  {
    assert e.session in w.leases.held ==> Names(w.sessions.entries[e.session], w.leases.held[e.session].claim);
  }

  /** An agent may observe its current session when it may use the profile, or otherwise the session of
      the default profile when it may enter that. */
  predicate MayObserve(w: World, connection: string, agent: string, current: Option<Profile>, fallback: Option<Profile>,
                       launch: Launch, session: Option<Entry>, now: int) {
    match session
    case Some(e) => MayUse(w, connection, agent, current, now)
    case None => MayEnter(w, connection, agent, fallback, launch, false, now)
  }

  /** The session the agent's connection points at, if any. */
  ghost predicate IsCurrent(w: World, connection: string, agent: string, session: Option<Entry>, now: int) {
    match session
    case Some(e) => PointsAt(w, connection, agent, e, now)
    case None => forall e: Entry :: !PointsAt(w, connection, agent, e, now)
  }

  /** observe_web goes ahead exactly for an agent that may connect and observe the session its connection
      points at, or without one that of the default profile, all named objects being of that session. */
  lemma ObservesExactly(w: World, cfg: Config, connection: string, agent: string, current: Option<Profile>,
                        fallback: Option<Profile>, launch: Launch, ids: seq<Id>, session: Option<Entry>, now: int)
    requires Inv(w) && IsCurrent(w, connection, agent, session, now)
    ensures var o := ObserveGate(w, cfg, connection, agent, current, fallback, launch, ids, now);
      && (o.answer.Ok? <==>
           && MayConnect(w, connection, agent, now)
           && MayObserve(w, connection, agent, current, fallback, launch, session, now)
           && LocalizeAll(w.objects, ids, if session.Some? then session.value else SessionOf(w, fallback.value)))
      && (o.answer.Ok? ==> o.answer.value == if session.Some? then session.value else SessionOf(w, fallback.value))
  {
    hide Inv, ConnectWorld, EnterProfile, RequireProfile, RenewOwned, PointsAt, CurrentSession, HoldsGrant, Admits, LocalizeAll, ByProfile,
         Leased, LeasedFor;
    Connected(w, cfg, connection, agent, now);
    var c := ConnectWorld(w, cfg, connection, agent, now);
    if c.answer.Ok? {
      assert CurrentSession(c.world, connection) == session;
      if session.Some? {
        CurrentSessionActive(c.world, connection);
        RequireProfileKeepsInv(c.world, cfg, connection, session.value, current, now);
        RequiredExactly(c.world, cfg, connection, session.value, current, now);
        RenewalNeverFails(RequireProfile(c.world, cfg, connection, session.value, current, now).world, cfg, connection, session.value, now);
      } else {
        EnteredExactly(c.world, cfg, connection, fallback, launch, false, now);
        EnterProfileKeepsInv(c.world, cfg, connection, fallback, launch, false, now);
        var entered := EnterProfile(c.world, cfg, connection, fallback, launch, false, now);
        if entered.answer.Ok? {
          RenewalNeverFails(entered.world, cfg, connection, entered.answer.value, now);
        }
      }
    }
  }

  lemma RoutedExactly(w: World, cfg: Config, connection: string, r: Route, p: Option<Profile>, now: int)
    requires connection in w.contexts
    ensures EnterRoute(w, cfg, connection, r, p, now).answer.Ok? <==>
      && r.session in w.sessions.entries && w.sessions.entries[r.session].generation == r.generation
      && MayUse(w, connection, w.contexts[connection].agent, p, now)
      && MayLease(w, connection, w.contexts[connection].agent, w.sessions.entries[r.session], now)
  {
    hide RequireProfile, EnterSession, MayUse, Leased, LeasedFor;
    if r.session in w.sessions.entries {
      var e := w.sessions.entries[r.session];
      RequiredExactly(w, cfg, connection, e, p, now);
      var required := RequireProfile(w, cfg, connection, e, p, now).world;
      SessionEntered(required, cfg, connection, e, true, now);
      assert MayLease(required, connection, w.contexts[connection].agent, e, now)
        == MayLease(w, connection, w.contexts[connection].agent, e, now);
    }
  }

  /** switch_tab goes ahead exactly for an agent that may use the profile and lease the session its tab
      leads to, or, for a tab without a route, may write to its current session. */
  lemma SwitchesExactly(w: World, cfg: Config, connection: string, agent: string, tab: Id, p: Option<Profile>, now: int)
    requires Inv(w)
    ensures var o := SwitchGate(w, cfg, connection, agent, tab, p, now);
      o.answer.Ok? <==>
        if tab in w.tabs.byPublic then
          var r := w.tabs.byPublic[tab];
          && MayConnect(w, connection, agent, now)
          && r.session in w.sessions.entries && w.sessions.entries[r.session].generation == r.generation
          && MayUse(w, connection, agent, p, now) && MayLease(w, connection, agent, w.sessions.entries[r.session], now)
        else exists e :: MayWrite(w, connection, agent, p, e, now)
  {
    hide Inv, ConnectWorld, CurrentForWrite, EnterRoute, HoldsGrant, LeasedFor, Leased, PointsAt, CurrentSession, Admits;
    Connected(w, cfg, connection, agent, now);
    PointingConnects(w, connection, agent, now);
    var c := ConnectWorld(w, cfg, connection, agent, now);
    if c.answer.Ok? {
      CurrentForWriteExactly(c.world, cfg, connection, p, now);
      if tab in w.tabs.byPublic {
        RoutedExactly(c.world, cfg, connection, w.tabs.byPublic[tab], p, now);
      } else if CurrentSession(c.world, connection).Some? {
        var e := CurrentSession(c.world, connection).value;
        assert PointsAt(w, connection, agent, e, now);
        assert CurrentForWrite(c.world, cfg, connection, p, now).answer.Ok? <==> MayWrite(w, connection, agent, p, e, now);
      }
    }
  }

  /** get_tabs shows a session exactly when it is active, the agent may use its profile and the tabs
      could be listed; it passes over a session that is gone. */
  lemma VisitsExactly(w: World, cfg: Config, connection: string, session: nat, p: Option<Profile>, listing: Listing, now: int)
    requires Inv(w) && connection in w.contexts
    ensures var o := VisitTabs(w, cfg, connection, session, p, listing, now);
      && (session !in w.sessions.entries ==> o == Outcome(w, Ok([])))
      && (session in w.sessions.entries ==>
           (o.answer.Ok? <==> MayUse(w, connection, w.contexts[connection].agent, p, now) && listing.Listed?))
  {
    hide Inv, RequireProfile, RenewOwned, BindTabs, PublicTabs, MayUse;
    if session in w.sessions.entries {
      var e := w.sessions.entries[session];
      EntryActive(w, session);
      RequireProfileKeepsInv(w, cfg, connection, e, p, now);
      RequiredExactly(w, cfg, connection, e, p, now);
      if MayUse(w, connection, w.contexts[connection].agent, p, now) {
        RenewalNeverFails(RequireProfile(w, cfg, connection, e, p, now).world, cfg, connection, e, now);
      }
    }
  }

  lemma EntryActive(w: World, session: nat)
    requires Inv(w) && session in w.sessions.entries
    ensures ActiveEntry(w, w.sessions.entries[session])
  {
    assert IndexedByProfile(w.sessions, session);
  }

  /** get_tabs goes ahead exactly for an agent that may connect and, unless its connection already has
      sessions, may enter the default profile for writing. */
  lemma TabsExactly(w: World, cfg: Config, connection: string, agent: string, p: Option<Profile>, launch: Launch, now: int)
    requires Inv(w)
    ensures TabsGate(w, cfg, connection, agent, p, launch, now).answer.Ok? <==>
      && MayConnect(w, connection, agent, now)
      && (HasSessions(w, connection, now) || MayEnter(w, connection, agent, p, launch, true, now))
  {
    hide Inv, EnterProfile, ByProfile, Leased, LeasedFor, Admits;
    ConnectedSessions(w, cfg, connection, agent, now);
    var c := ConnectWorld(w, cfg, connection, agent, now);
    if c.answer.Ok? {
      EnteredExactly(c.world, cfg, connection, p, launch, true, now);
    }
  }

  /** The connection, not yet expired, has sessions. */
  predicate HasSessions(w: World, connection: string, now: int) {
    connection in w.contexts && now < w.contexts[connection].expires && w.contexts[connection].leased != {}
  }

  lemma ConnectedSessions(w: World, cfg: Config, connection: string, agent: string, now: int)
    requires Inv(w)
    ensures var o := ConnectWorld(w, cfg, connection, agent, now);
      && (o.answer.Ok? <==> MayConnect(w, connection, agent, now))
      && o.world == w.(contexts := o.world.contexts) && Inv(o.world)
      && (o.answer.Ok? ==>
           && connection in o.world.contexts && o.world.contexts[connection].agent == agent
           && (o.world.contexts[connection].leased != {} <==> HasSessions(w, connection, now)))
  {
    hide Inv, PointsAt, CurrentSession;
    Connected(w, cfg, connection, agent, now);
  }

  // ---------------------------------------------------------------------------
  // Whoever was let in can go on
  // ---------------------------------------------------------------------------

  /** The connection is the agent's and points at the session until `until`. */
  predicate Attached(w: World, connection: string, agent: string, e: Entry, until: int) {
    && connection in w.contexts
    && var x := w.contexts[connection];
       x.agent == agent && x.current == Some(e.session) && x.currentProfile == Some(e.profile.id) && x.expires == until
       && e.session in x.leased && e.profile.id in x.authorized
  }

  /** Entering a session attaches the connection to it, for writing under a lease for its full time. */
  lemma SessionAttached(w: World, cfg: Config, connection: string, e: Entry, write: bool, now: int)
    requires connection in w.contexts && EnterSession(w, cfg, connection, e, write, now).answer.Ok?
    ensures var o, agent := EnterSession(w, cfg, connection, e, write, now), w.contexts[connection].agent;
      && Attached(o.world, connection, agent, e, now + cfg.connectionTtl)
      && (write ==> forall t :: t < now + cfg.leaseTtl ==> LeasedFor(o.world.leases.held, ClaimTo(connection, agent, e), t))
      && o.world.sessions == w.sessions && o.world.grants == w.grants
  {
  }

  lemma ProfileAttached(w: World, cfg: Config, connection: string, p: Option<Profile>, launch: Launch, write: bool, now: int)
    requires Inv(w) && connection in w.contexts && EnterProfile(w, cfg, connection, p, launch, write, now).answer.Ok?
    ensures var o, agent := EnterProfile(w, cfg, connection, p, launch, write, now), w.contexts[connection].agent;
      var e := o.answer.value;
      && Attached(o.world, connection, agent, e, now + cfg.connectionTtl) && ActiveEntry(o.world, e)
      && (write ==> forall t :: t < now + cfg.leaseTtl ==> LeasedFor(o.world.leases.held, ClaimTo(connection, agent, e), t))
  {
    hide Inv, EnsureSession, EnterSession, Attached, LeasedFor, Authorize;
    EnterProfileKeepsInv(w, cfg, connection, p, launch, write, now);
    GrantKeepsInv(w, cfg, connection, p.value, now);
    var granted := GrantProfile(w, cfg, connection, p.value, now).world;
    EnsuredExactly(granted, p.value, launch);
    var ensured := EnsureSession(granted, p.value, launch);
    SessionEntered(ensured.world, cfg, connection, ensured.answer.value, write, now);
    SessionAttached(ensured.world, cfg, connection, ensured.answer.value, write, now);
  }

  /** Whoever opened a session points at it, and holds its lease if it was opened for writing. */
  lemma OpenedPoints(w: World, cfg: Config, connection: string, agent: string, p: Option<Profile>, launch: Launch, write: bool,
                     now: int, later: int)
    requires Inv(w) && EnterGate(w, cfg, connection, agent, p, launch, write, now).answer.Ok?
    requires later < now + cfg.connectionTtl
    ensures var o := EnterGate(w, cfg, connection, agent, p, launch, write, now);
      var e := o.answer.value;
      && PointsAt(o.world, connection, agent, e, later)
      && (write && later < now + cfg.leaseTtl ==> LeasedFor(o.world.leases.held, ClaimTo(connection, agent, e), later))
  {
    hide Inv, ConnectWorld, EnterProfile, PointsAt, CurrentSession, LeasedFor;
    Connected(w, cfg, connection, agent, now);
    var c := ConnectWorld(w, cfg, connection, agent, now);
    ProfileAttached(c.world, cfg, connection, p, launch, write, now);
    var o := EnterGate(w, cfg, connection, agent, p, launch, write, now);
    AttachedPoints(o.world, connection, agent, o.answer.value, now + cfg.connectionTtl, later);
  }

  lemma AttachedPoints(w: World, connection: string, agent: string, e: Entry, until: int, later: int)
    requires connection != "" && Attached(w, connection, agent, e, until) && ActiveEntry(w, e) && later < until
    ensures PointsAt(w, connection, agent, e, later)
  {
  }
}
