/** Grants and leases over whole runs: a grant is running exactly if an enter gave it, its connection was
    not released since, and it was given or used less than its time to live ago. With that, who gets
    through the gates at any point of a run. */
module SupervisorGrants {
  import opened Prelude
  import opened WebObjects
  import opened Routes
  import opened SessionManager
  import opened SessionRouting
  import opened SupervisorModel
  import opened SupervisorInvariant
  import opened SupervisorRuns
  import opened SupervisorAccess
  import opened SupervisorAdmission

  /** What a call asks of a profile: to be let in, or to use it under a grant it was given before. */
  datatype Ask =
    | Enters(connection: string, agent: string, profile: Profile)
    | Uses(connection: string, agent: string, profile: Profile)
    | Nothing

  /** The agent's connection, not yet expired, points at an active session. */
  predicate Pointing(w: World, connection: string, agent: string, now: int) {
    && connection in w.contexts
    && var x := w.contexts[connection];
       now < x.expires && x.agent == agent && x.current.Some? && x.current.value in w.sessions.entries
  }

  function Entering(w: World, connection: string, agent: string, p: Option<Profile>, now: int): Ask {
    if MayConnect(w, connection, agent, now) && p.Some? then Enters(connection, agent, p.value) else Nothing
  }

  function Using(w: World, connection: string, agent: string, p: Option<Profile>, now: int): Ask {
    if MayConnect(w, connection, agent, now) && p.Some? then Uses(connection, agent, p.value) else Nothing
  }

  function Asked(w: World, m: Move, now: int): Ask {
    match m
    case Open(connection, agent, p, _) => Entering(w, connection, agent, p, now)
    case Facade(connection, agent, p, _) => Entering(w, connection, agent, p, now)
    case Tabs(connection, agent, p, _) =>
      if HasSessions(w, connection, now) then Nothing else Entering(w, connection, agent, p, now)
    case Observe(connection, agent, p, fallback, _, _) =>
      if Pointing(w, connection, agent, now) then Using(w, connection, agent, p, now)
      else Entering(w, connection, agent, fallback, now)
    case Act(connection, agent, p, _) =>
      if Pointing(w, connection, agent, now) then Using(w, connection, agent, p, now) else Nothing
    case Switch(connection, agent, tab, p) =>
      if tab in w.tabs.byPublic then
        var r := w.tabs.byPublic[tab];
        if r.session in w.sessions.entries && w.sessions.entries[r.session].generation == r.generation
        then Using(w, connection, agent, p, now) else Nothing
      else if Pointing(w, connection, agent, now) then Using(w, connection, agent, p, now) else Nothing
    case Visited(connection, session, p, _) =>
      if connection in w.contexts && session in w.sessions.entries && p.Some?
      then Uses(connection, w.contexts[connection].agent, p.value) else Nothing
    case _ => Nothing
  }

  // ---------------------------------------------------------------------------
  // One move
  // ---------------------------------------------------------------------------

  function GrantsAfter(gs: Grants, ask: Ask, ttl: nat, now: int): Grants {
    match ask
    case Nothing => gs
    case Enters(connection, agent, p) =>
      (match Authorize(gs, p, agent, connection, ttl, now) case Ok(after) => after case Err(_) => gs)
    case Uses(connection, agent, p) =>
      (match RequireGrant(gs, p, agent, connection, ttl, now) case Ok(after) => after case Err(_) => gs)
  }

  lemma ConnectedPointing(w: World, cfg: Config, connection: string, agent: string, now: int)
    ensures var o := ConnectWorld(w, cfg, connection, agent, now);
      && (o.answer.Ok? <==> MayConnect(w, connection, agent, now))
      && o.world == w.(contexts := o.world.contexts)
      && (o.answer.Ok? ==>
           && connection in o.world.contexts && o.world.contexts[connection].agent == agent
           && (CurrentSession(o.world, connection).Some? <==> Pointing(w, connection, agent, now))
           && (o.world.contexts[connection].leased != {} <==> HasSessions(w, connection, now)))
  {
  }

  lemma EnterGrants(w: World, cfg: Config, connection: string, p: Option<Profile>, launch: Launch, write: bool, now: int)
    requires connection in w.contexts
    ensures EnterProfile(w, cfg, connection, p, launch, write, now).world.grants ==
      if p.None? then w.grants else GrantsAfter(w.grants, Enters(connection, w.contexts[connection].agent, p.value), cfg.grantTtl, now)
  {
    hide Authorize, EnsureSession, EnterSession;
    if p.Some? {
      var granted := GrantProfile(w, cfg, connection, p.value, now).world;
      EnsureSameAccess(granted, p.value, launch, connection);
      var ensured := EnsureSession(granted, p.value, launch);
      if ensured.answer.Ok? {
        EnterSameAccess(ensured.world, cfg, connection, ensured.answer.value, write, now);
      }
    }
  }

  lemma UseGrants(w: World, cfg: Config, connection: string, e: Entry, p: Option<Profile>, now: int)
    requires connection in w.contexts
    ensures var o := RequireProfile(w, cfg, connection, e, p, now);
      && o.world == w.(grants := o.world.grants) && (o.answer.Ok? ==> o.answer.value == e)
      && o.world.grants == if p.None? then w.grants
                           else GrantsAfter(w.grants, Uses(connection, w.contexts[connection].agent, p.value), cfg.grantTtl, now)
  {
    hide RequireGrant;
  }

  lemma CurrentGrants(w: World, cfg: Config, connection: string, p: Option<Profile>, now: int)
    requires connection in w.contexts
    ensures CurrentForWrite(w, cfg, connection, p, now).world.grants ==
      if CurrentSession(w, connection).None? || p.None? then w.grants
      else GrantsAfter(w.grants, Uses(connection, w.contexts[connection].agent, p.value), cfg.grantTtl, now)
  {
    hide RequireProfile, RequireWrite, GrantsAfter;
    if CurrentSession(w, connection).Some? {
      var e := CurrentSession(w, connection).value;
      UseGrants(w, cfg, connection, e, p, now);
      EnterSameAccess(RequireProfile(w, cfg, connection, e, p, now).world, cfg, connection, e, true, now);
    }
  }

  lemma RouteGrants(w: World, cfg: Config, connection: string, r: Route, p: Option<Profile>, now: int)
    requires connection in w.contexts
    ensures EnterRoute(w, cfg, connection, r, p, now).world.grants ==
      if r.session !in w.sessions.entries || w.sessions.entries[r.session].generation != r.generation || p.None? then w.grants
      else GrantsAfter(w.grants, Uses(connection, w.contexts[connection].agent, p.value), cfg.grantTtl, now)
  {
    hide RequireProfile, EnterSession, GrantsAfter;
    if r.session in w.sessions.entries {
      var e := w.sessions.entries[r.session];
      UseGrants(w, cfg, connection, e, p, now);
      EnterSameAccess(RequireProfile(w, cfg, connection, e, p, now).world, cfg, connection, e, true, now);
    }
  }

  lemma ObserveGrants(w: World, cfg: Config, connection: string, p: Option<Profile>, fallback: Option<Profile>, launch: Launch, now: int)
    requires connection in w.contexts
    ensures var session := CurrentSession(w, connection);
      var agent := w.contexts[connection].agent;
      var entered := if session.Some? then RequireProfile(w, cfg, connection, session.value, p, now)
        else EnterProfile(w, cfg, connection, fallback, launch, false, now);
      && entered.world.grants
         == (if session.Some? then if p.None? then w.grants else GrantsAfter(w.grants, Uses(connection, agent, p.value), cfg.grantTtl, now)
             else if fallback.None? then w.grants
             else GrantsAfter(w.grants, Enters(connection, agent, fallback.value), cfg.grantTtl, now))
      && (entered.answer.Ok? ==>
           && connection in entered.world.contexts
           && RenewOwned(entered.world, cfg, connection, entered.answer.value, now).world.grants == entered.world.grants)
  {
    hide RequireProfile, EnterProfile, GrantsAfter, RenewOwned, CurrentSession;
    var session := CurrentSession(w, connection);
    if session.Some? {
      UseGrants(w, cfg, connection, session.value, p, now);
      EnterSameAccess(RequireProfile(w, cfg, connection, session.value, p, now).world, cfg, connection, session.value, false, now);
    } else {
      EnterGrants(w, cfg, connection, fallback, launch, false, now);
      var entered := EnterProfile(w, cfg, connection, fallback, launch, false, now);
      if entered.answer.Ok? {
        EnteredConnection(w, cfg, connection, fallback, launch, now);
        EnterSameAccess(entered.world, cfg, connection, entered.answer.value, false, now);
      }
    }
  }

  lemma EnteredConnection(w: World, cfg: Config, connection: string, p: Option<Profile>, launch: Launch, now: int)
    requires connection in w.contexts && EnterProfile(w, cfg, connection, p, launch, false, now).answer.Ok?
    ensures connection in EnterProfile(w, cfg, connection, p, launch, false, now).world.contexts
  {
    hide Granted;
    EnteredGranted(w, cfg, connection, p, launch, false, now);
    AccessParts(EnterProfile(w, cfg, connection, p, launch, false, now).world, connection, w.contexts[connection].agent, p,
                cfg.grantTtl, now);
  }

  lemma VisitGrants(w: World, cfg: Config, connection: string, session: nat, p: Option<Profile>, listing: Listing, now: int)
    requires connection in w.contexts
    ensures VisitTabs(w, cfg, connection, session, p, listing, now).world.grants ==
      if session !in w.sessions.entries || p.None? then w.grants
      else GrantsAfter(w.grants, Uses(connection, w.contexts[connection].agent, p.value), cfg.grantTtl, now)
  {
    hide RequireProfile, RenewOwned, BindTabs, GrantsAfter;
    if session in w.sessions.entries {
      var e := w.sessions.entries[session];
      UseGrants(w, cfg, connection, e, p, now);
      var required := RequireProfile(w, cfg, connection, e, p, now).world;
      EnterSameAccess(required, cfg, connection, e, false, now);
      BindTabsGrants(RenewOwned(required, cfg, connection, e, now).world, e, listing);
    }
  }

  lemma BindTabsGrants(w: World, e: Entry, listing: Listing)
    ensures BindTabs(w, e, listing).grants == w.grants
  {
    hide Published, Invalidate, UnbindAll;
  }

  lemma ServeGrants(w: World, e: Entry, reply: Reply, listing: Option<Listing>, now: int)
    ensures Serve(w, e, reply, listing, now).grants == w.grants
  {
    hide Published, BindTabs, Invalidate, UnbindAll;
    if listing.Some? {
      BindTabsGrants(w, e, listing.value);
    }
  }

  lemma {:induction false} FinalizeAllGrants(w: World, sessions: seq<nat>)
    ensures FinalizeAll(w, sessions).grants == w.grants
  {
    hide Invalidate, UnbindAll, Remove;
    if sessions != [] {
      FinalizeAllGrants(w, sessions[..|sessions| - 1]);
    }
  }

  /** A move changes the grants by what it asks, and by a release. */
  lemma StepGrants(w: World, cfg: Config, m: Move, now: int)
    ensures Step(w, cfg, m, now).grants
      == if m.Released? then RevokeConnection(w.grants, m.connection) else GrantsAfter(w.grants, Asked(w, m, now), cfg.grantTtl, now)
  {
    hide Authorize, RequireGrant, ConnectWorld, EnterProfile, RequireProfile, RenewOwned, CurrentForWrite, EnterRoute, VisitTabs, Serve,
      EnsureSession, FinalizeAll, Finalize, CurrentSession, Pointing, HasSessions, MayConnect, LocalizeAll;
    match m
    case Open(connection, agent, p, launch) => EnteringGrants(w, cfg, connection, agent, p, launch, true, now);
    case Facade(connection, agent, p, launch) => EnteringGrants(w, cfg, connection, agent, p, launch, false, now);
    case Tabs(connection, agent, p, launch) =>
      EnteringGrants(w, cfg, connection, agent, p, launch, true, now);
      ConnectedPointing(w, cfg, connection, agent, now);
    case Observe(connection, agent, p, fallback, launch, ids) =>
      ConnectedPointing(w, cfg, connection, agent, now);
      var c := ConnectWorld(w, cfg, connection, agent, now);
      if c.answer.Ok? {
        ObserveGrants(c.world, cfg, connection, p, fallback, launch, now);
      }
    case Act(connection, agent, p, _) => WritingGrants(w, cfg, connection, agent, p, now);
    case Switch(connection, agent, tab, p) =>
      WritingGrants(w, cfg, connection, agent, p, now);
      ConnectedPointing(w, cfg, connection, agent, now);
      var c := ConnectWorld(w, cfg, connection, agent, now);
      if c.answer.Ok? && tab in w.tabs.byPublic {
        RouteGrants(c.world, cfg, connection, w.tabs.byPublic[tab], p, now);
      }
    case Visited(connection, session, p, listing) =>
      if connection in w.contexts {
        VisitGrants(w, cfg, connection, session, p, listing, now);
      }
    case Served(e, reply, listing) => ServeGrants(w, e, reply, listing, now);
    case Closed => FinalizeAllGrants(w.(closed := true), w.sessions.order);
    case Ended(session) => FinalizeGrants(w, session);
    case Controlled(p, launch) => EnsureGrants(w, p, launch);
    case Released(_) =>
    case Peeked(_) =>
  }

  lemma FinalizeGrants(w: World, session: nat)
    ensures Finalize(w, session).grants == w.grants
  {
    hide Invalidate, UnbindAll, Remove;
  }

  lemma EnsureGrants(w: World, p: Profile, launch: Launch)
    ensures EnsureSession(w, p, launch).world.grants == w.grants
  {
    hide Add, Addable, ByProfile;
  }

  lemma EnteringGrants(w: World, cfg: Config, connection: string, agent: string, p: Option<Profile>, launch: Launch, write: bool, now: int)
    ensures EnterGate(w, cfg, connection, agent, p, launch, write, now).world.grants
      == GrantsAfter(w.grants, Entering(w, connection, agent, p, now), cfg.grantTtl, now)
  {
    hide Authorize, ConnectWorld, EnterProfile, CurrentSession, Pointing, HasSessions, MayConnect;
    ConnectedPointing(w, cfg, connection, agent, now);
    var c := ConnectWorld(w, cfg, connection, agent, now);
    if c.answer.Ok? {
      EnterGrants(c.world, cfg, connection, p, launch, write, now);
    }
  }

  lemma WritingGrants(w: World, cfg: Config, connection: string, agent: string, p: Option<Profile>, now: int)
    ensures var c := ConnectWorld(w, cfg, connection, agent, now);
      && (c.answer.Ok? <==> MayConnect(w, connection, agent, now)) && c.world.grants == w.grants
      && (c.answer.Ok? ==>
           && connection in c.world.contexts
           && CurrentForWrite(c.world, cfg, connection, p, now).world.grants
              == GrantsAfter(w.grants, if Pointing(w, connection, agent, now) then Using(w, connection, agent, p, now) else Nothing,
                             cfg.grantTtl, now))
  {
    hide RequireGrant, ConnectWorld, CurrentForWrite, CurrentSession, Pointing, HasSessions, MayConnect;
    ConnectedPointing(w, cfg, connection, agent, now);
    var c := ConnectWorld(w, cfg, connection, agent, now);
    if c.answer.Ok? {
      CurrentGrants(c.world, cfg, connection, p, now);
    }
  }

  // ---------------------------------------------------------------------------
  // Over runs
  // ---------------------------------------------------------------------------

  /** To whom a grant was given, and when it was given or last used. */
  datatype Holder = Holder(agent: string, at: int)

  /** The holder after one ask: entering makes an admitted agent the holder, using renews a grant that
      the agent holds and that was given or used less than its time to live ago. */
  function AfterAsk(before: Option<Holder>, ask: Ask, connection: string, profile: string, ttl: nat, now: int): Option<Holder> {
    match ask
    case Nothing => before
    case Enters(c, agent, p) =>
      if c == connection && p.id == profile && Admits(p, agent) then Some(Holder(agent, now)) else before
    case Uses(c, agent, p) =>
      if c == connection && p.id == profile && Admits(p, agent)
        && before.Some? && before.value.agent == agent && now < before.value.at + ttl
      then Some(Holder(agent, now)) else before
  }

  /** The holder of the grant for a profile over a connection after the first n moves of a run. */
  ghost function HolderAt(cfg: Config, worlds: seq<World>, moves: seq<Move>, times: seq<int>, n: nat,
                          connection: string, profile: string): Option<Holder>
    requires Run(cfg, worlds, moves, times) && n <= |moves|
  {
    if n == 0 || moves[n - 1] == Released(connection) then None
    else AfterAsk(HolderAt(cfg, worlds, moves, times, n - 1, connection, profile),
                  Asked(worlds[n - 1], moves[n - 1], times[n - 1]), connection, profile, cfg.grantTtl, times[n - 1])
  }

  predicate Tells(g: Option<Grant>, h: Option<Holder>, ttl: nat) {
    && (g.Some? <==> h.Some?)
    && (g.Some? ==> g.value.agent == h.value.agent && g.value.expires == h.value.at + ttl)
  }

  lemma AskTells(gs: Grants, before: Option<Holder>, ask: Ask, connection: string, profile: string, ttl: nat, now: int)
    requires Tells(Get(gs.held, (connection, profile)), before, ttl)
    ensures Tells(Get(GrantsAfter(gs, ask, ttl, now).held, (connection, profile)),
                  AfterAsk(before, ask, connection, profile, ttl, now), ttl)
  {
  }

  lemma ReleaseTells(gs: Grants, before: Option<Holder>, released: string, connection: string, profile: string, ttl: nat)
    requires Tells(Get(gs.held, (connection, profile)), before, ttl)
    ensures Tells(Get(RevokeConnection(gs, released).held, (connection, profile)),
                  if released == connection then None else before, ttl)
  {
  }

  lemma NothingAfter(before: Option<Holder>, connection: string, profile: string, ttl: nat, now: int)
    ensures AfterAsk(before, Nothing, connection, profile, ttl, now) == before
  {
  }

  lemma ReleasesAskNothing(w: World, m: Move, now: int)
    ensures m.Released? ==> Asked(w, m, now) == Nothing
  {
  }

  lemma {:induction false} GrantsTold(cfg: Config, worlds: seq<World>, moves: seq<Move>, times: seq<int>, n: nat,
                                      connection: string, profile: string)
    requires Run(cfg, worlds, moves, times) && n <= |moves|
    ensures Tells(Get(worlds[n].grants.held, (connection, profile)), HolderAt(cfg, worlds, moves, times, n, connection, profile),
                  cfg.grantTtl)
  {
    hide Step, Asked, AfterAsk, GrantsAfter, Allowed;
    if n > 0 {
      GrantsTold(cfg, worlds, moves, times, n - 1, connection, profile);
      StepGrants(worlds[n - 1], cfg, moves[n - 1], times[n - 1]);
      var before := HolderAt(cfg, worlds, moves, times, n - 1, connection, profile);
      if moves[n - 1].Released? {
        ReleasesAskNothing(worlds[n - 1], moves[n - 1], times[n - 1]);
        ReleaseTells(worlds[n - 1].grants, before, moves[n - 1].connection, connection, profile, cfg.grantTtl);
        NothingAfter(before, connection, profile, cfg.grantTtl, times[n - 1]);
      } else {
        AskTells(worlds[n - 1].grants, before, Asked(worlds[n - 1], moves[n - 1], times[n - 1]), connection, profile,
                 cfg.grantTtl, times[n - 1]);
      }
    }
  }

  /** The profile admits the agent, who was let in over this connection, which was not released since,
      and gave or used the grant last less than its time to live ago. */
  ghost predicate Entitled(cfg: Config, worlds: seq<World>, moves: seq<Move>, times: seq<int>, n: nat,
                           connection: string, agent: string, p: Option<Profile>, now: int)
    requires Run(cfg, worlds, moves, times) && n <= |moves|
  {
    && p.Some? && p.value.ready && (p.value.boundAgents == {} || agent in p.value.boundAgents)
    && var h := HolderAt(cfg, worlds, moves, times, n, connection, p.value.id);
       h.Some? && h.value.agent == agent && now < h.value.at + cfg.grantTtl
  }

  /** At every point of every run, those and only those who are entitled may use a profile. */
  lemma EntitledExactly(cfg: Config, worlds: seq<World>, moves: seq<Move>, times: seq<int>, n: nat,
                        connection: string, agent: string, p: Option<Profile>, now: int)
    requires Run(cfg, worlds, moves, times) && n <= |moves|
    ensures MayUse(worlds[n], connection, agent, p, now) <==> Entitled(cfg, worlds, moves, times, n, connection, agent, p, now)
  {
    hide Run;
    if p.Some? {
      GrantsTold(cfg, worlds, moves, times, n, connection, p.value.id);
    }
  }

  // ---------------------------------------------------------------------------
  // Leases
  // ---------------------------------------------------------------------------

  /** Move k granted or renewed the lease that session `s` has after n moves; no later one touched it. */
  ghost predicate LeasedSince(cfg: Config, worlds: seq<World>, times: seq<int>, s: nat, k: nat, n: nat) {
    && k < n < |worlds| && k < |times| && s in worlds[n].leases.held
    && (forall j :: k < j <= n ==> s in worlds[j].leases.held && worlds[j].leases.held[s] == worlds[n].leases.held[s])
    && worlds[n].leases.held[s].expires == times[k] + cfg.leaseTtl
  }

  lemma LeaseStep(cfg: Config, worlds: seq<World>, moves: seq<Move>, times: seq<int>, k: nat, s: nat)
    requires Run(cfg, worlds, moves, times) && k < |moves| && s in worlds[k + 1].leases.held
    ensures worlds[k + 1].leases.held[s].expires == times[k] + cfg.leaseTtl
      || (s in worlds[k].leases.held && worlds[k].leases.held[s] == worlds[k + 1].leases.held[s])
  {
    SupervisorConsistent(cfg, worlds, moves, times, k);
    StepEvolves(worlds[k], cfg, moves[k], times[k]);
    hide Inv, Step, SessionsEvolve;
    assert Known(worlds[k], worlds[k + 1], s, cfg.leaseTtl, times[k]);
  }

  /** Every lease runs its full time from the move that last granted or renewed it. */
  lemma {:induction false} LeaseTimes(cfg: Config, worlds: seq<World>, moves: seq<Move>, times: seq<int>, n: nat, s: nat)
    requires Run(cfg, worlds, moves, times) && n < |worlds| && s in worlds[n].leases.held
    ensures exists k: nat :: LeasedSince(cfg, worlds, times, s, k, n)
  {
    hide Step, Allowed;
    if n > 0 {
      LeaseStep(cfg, worlds, moves, times, n - 1, s);
      if worlds[n].leases.held[s].expires == times[n - 1] + cfg.leaseTtl {
        assert LeasedSince(cfg, worlds, times, s, n - 1, n);
      } else {
        LeaseTimes(cfg, worlds, moves, times, n - 1, s);
        var k: nat :| LeasedSince(cfg, worlds, times, s, k, n - 1);
        assert LeasedSince(cfg, worlds, times, s, k, n);
      }
    }
  }

  /** The session's lease is the agent's over this connection, granted or renewed by move k less than its
      time to live ago. */
  ghost predicate Leaseholder(cfg: Config, worlds: seq<World>, times: seq<int>, n: nat, connection: string, agent: string,
                              e: Entry, k: nat, now: int) {
    && LeasedSince(cfg, worlds, times, e.session, k, n) && now < times[k] + cfg.leaseTtl
    && worlds[n].leases.held[e.session].claim == Claim(agent, connection, e.session, e.profile.id, e.generation)
  }

  lemma LeaseholderExactly(cfg: Config, worlds: seq<World>, moves: seq<Move>, times: seq<int>, n: nat,
                           connection: string, agent: string, e: Entry, now: int)
    requires Run(cfg, worlds, moves, times) && n < |worlds|
    ensures LeasedFor(worlds[n].leases.held, ClaimTo(connection, agent, e), now)
      <==> exists k: nat :: Leaseholder(cfg, worlds, times, n, connection, agent, e, k, now)
  {
    SupervisorConsistent(cfg, worlds, moves, times, n);
    ClaimsNamed(worlds[n], e.session);
    hide Run, Inv;
    if e.session in worlds[n].leases.held {
      LeaseTimes(cfg, worlds, moves, times, n, e.session);
      var k: nat :| LeasedSince(cfg, worlds, times, e.session, k, n);
      assert LeasedFor(worlds[n].leases.held, ClaimTo(connection, agent, e), now)
        ==> Leaseholder(cfg, worlds, times, n, connection, agent, e, k, now);
    }
  }

  lemma ClaimsNamed(w: World, s: nat)
    requires Inv(w)
    ensures s in w.leases.held ==> w.leases.held[s].claim.session == s
  {
    if s in w.leases.held {
      assert Names(w.sessions.entries[s], w.leases.held[s].claim);
      assert IndexedByProfile(w.sessions, s);
    }
  }

  // ---------------------------------------------------------------------------
  // Who gets through, at any point of a run
  // ---------------------------------------------------------------------------

  /** The agent's connection points at the session, it is entitled to the profile, and the session's lease
      is its own and was granted or renewed, by move k, less than its time to live ago. */
  ghost predicate MayActOn(cfg: Config, worlds: seq<World>, moves: seq<Move>, times: seq<int>, n: nat,
                           connection: string, agent: string, p: Option<Profile>, e: Entry, k: nat, now: int)
    requires Run(cfg, worlds, moves, times) && n <= |moves|
  {
    && PointsAt(worlds[n], connection, agent, e, now)
    && Entitled(cfg, worlds, moves, times, n, connection, agent, p, now)
    && Leaseholder(cfg, worlds, times, n, connection, agent, e, k, now)
  }

  /** At any point of any run act_web goes ahead exactly for an agent whose connection points at an active
      session, that is entitled to the profile, and that holds the session's lease, on a target of that
      session. */
  lemma RightfulActsPassExactly(cfg: Config, worlds: seq<World>, moves: seq<Move>, times: seq<int>, n: nat,
                                connection: string, agent: string, p: Option<Profile>, target: Id, now: int)
    requires Run(cfg, worlds, moves, times) && n <= |moves|
    ensures ActGate(worlds[n], cfg, connection, agent, p, target, now).answer.Ok? <==>
      exists e: Entry, k: nat ::
        (MayActOn(cfg, worlds, moves, times, n, connection, agent, p, e, k, now)
         && Localize(worlds[n].objects, target, e.session, e.generation).Ok?)
  {
    SupervisorConsistent(cfg, worlds, moves, times, n);
    hide Run, Inv, Localize, PointsAt, Entitled, Leaseholder, LeasedFor, MayUse, ActGate;
    var w := worlds[n];
    ActsExactly(w, cfg, connection, agent, p, target, now);
    EntitledExactly(cfg, worlds, moves, times, n, connection, agent, p, now);
    if e: Entry :| MayWrite(w, connection, agent, p, e, now) && Localize(w.objects, target, e.session, e.generation).Ok? {
      LeaseholderExactly(cfg, worlds, moves, times, n, connection, agent, e, now);
      var k: nat :| Leaseholder(cfg, worlds, times, n, connection, agent, e, k, now);
      assert MayActOn(cfg, worlds, moves, times, n, connection, agent, p, e, k, now);
    }
    if e: Entry, k: nat :|
        (MayActOn(cfg, worlds, moves, times, n, connection, agent, p, e, k, now)
         && Localize(w.objects, target, e.session, e.generation).Ok?) {
      LeaseholderExactly(cfg, worlds, moves, times, n, connection, agent, e, now);
      assert MayWrite(w, connection, agent, p, e, now);
    }
  }

  /** At any point of any run observe_web goes ahead exactly for an agent that may connect and is entitled
      to the profile of the session its connection points at, or that without such a session may enter the
      default profile, all named objects being of that session. */
  lemma RightfulObservationsPassExactly(cfg: Config, worlds: seq<World>, moves: seq<Move>, times: seq<int>, n: nat,
                                        connection: string, agent: string, current: Option<Profile>, fallback: Option<Profile>,
                                        launch: Launch, ids: seq<Id>, session: Option<Entry>, now: int)
    requires Run(cfg, worlds, moves, times) && n <= |moves| && IsCurrent(worlds[n], connection, agent, session, now)
    ensures ObserveGate(worlds[n], cfg, connection, agent, current, fallback, launch, ids, now).answer.Ok? <==>
      && MayConnect(worlds[n], connection, agent, now)
      && (if session.Some? then Entitled(cfg, worlds, moves, times, n, connection, agent, current, now)
          else MayEnter(worlds[n], connection, agent, fallback, launch, false, now))
      && LocalizeAll(worlds[n].objects, ids, if session.Some? then session.value else SessionOf(worlds[n], fallback.value))
  {
    SupervisorConsistent(cfg, worlds, moves, times, n);
    hide Run, Inv, LocalizeAll, IsCurrent, Entitled, MayUse, MayEnter, MayConnect, ObserveGate;
    ObservesExactly(worlds[n], cfg, connection, agent, current, fallback, launch, ids, session, now);
    EntitledExactly(cfg, worlds, moves, times, n, connection, agent, current, now);
  }

  /** Whoever opened a session may act on it, with nothing in between, for as long as the connection, the
      grant and the lease last. */
  lemma OpenedMayAct(w: World, cfg: Config, connection: string, agent: string, p: Option<Profile>, launch: Launch, target: Id,
                     now: int, later: int)
    requires Inv(w) && EnterGate(w, cfg, connection, agent, p, launch, true, now).answer.Ok?
    requires later < now + cfg.connectionTtl && later < now + cfg.grantTtl && later < now + cfg.leaseTtl
    requires var o := EnterGate(w, cfg, connection, agent, p, launch, true, now);
      Localize(o.world.objects, target, o.answer.value.session, o.answer.value.generation).Ok?
    ensures ActGate(EnterGate(w, cfg, connection, agent, p, launch, true, now).world, cfg, connection, agent, p, target, later).answer
      == EnterGate(w, cfg, connection, agent, p, launch, true, now).answer
  {
    hide Inv, ActGate, EnterGate, Localize, PointsAt, LeasedFor, Granted;
    var o := EnterGate(w, cfg, connection, agent, p, launch, true, now);
    EnterGateKeepsInv(w, cfg, connection, agent, p, launch, true, now);
    OpenedPoints(w, cfg, connection, agent, p, launch, true, now, later);
    WritersAreGranted(w, cfg, Open(connection, agent, p, launch), now);
    GrantedMayUse(o.world, connection, agent, p, cfg.grantTtl, now, later);
    var e := o.answer.value;
    assert MayWrite(o.world, connection, agent, p, e, later);
    ActsExactly(o.world, cfg, connection, agent, p, target, later);
    OnePointedAt(o.world, connection, agent, e, ActGate(o.world, cfg, connection, agent, p, target, later).answer.value, later);
  }

  lemma GrantedMayUse(w: World, connection: string, agent: string, p: Option<Profile>, ttl: nat, now: int, later: int)
    requires Granted(w, connection, agent, p, ttl, now) && later < now + ttl
    ensures MayUse(w, connection, agent, p, later)
  {
  }

  lemma OnePointedAt(w: World, connection: string, agent: string, a: Entry, b: Entry, now: int)
    requires PointsAt(w, connection, agent, a, now) && PointsAt(w, connection, agent, b, now)
    ensures a == b
  {
  }
}
