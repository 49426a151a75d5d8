/** Who gets through the gates of the supervisor: only an agent its profile admits, over its own
    connection, with a grant for the profile as the repository has it now. */
module SupervisorAccess {
  import opened Prelude
  import opened WebObjects
  import opened Routes
  import opened SessionManager
  import opened SessionRouting
  import opened SupervisorModel
  import opened SupervisorRuns

  /** The connection is the agent's, the profile is ready and admits the agent, and the grant for
      it runs its full time from now. */
  predicate Granted(w: World, connection: string, agent: string, p: Option<Profile>, ttl: nat, now: int) {
    && connection in w.contexts && w.contexts[connection].agent == agent
    && p.Some? && p.value.ready && (p.value.boundAgents == {} || agent in p.value.boundAgents)
    && (connection, p.value.id) in w.grants.held
    && var g := w.grants.held[(connection, p.value.id)];
       g.agent == agent && g.profileVersion == p.value.version && g.expires == now + ttl
  }

  /** Nothing a grant rests on changed. */
  predicate SameAccess(w: World, w': World, connection: string) {
    && w'.grants == w.grants
    && connection in w.contexts && connection in w'.contexts
    && w'.contexts[connection].agent == w.contexts[connection].agent
  }

  lemma ConnectedAgent(w: World, cfg: Config, connection: string, agent: string, now: int)
    requires ConnectWorld(w, cfg, connection, agent, now).answer.Ok?
    ensures var c := ConnectWorld(w, cfg, connection, agent, now).world.contexts;
      connection in c && c[connection].agent == agent
  {
  }

  lemma EnsureSameAccess(w: World, p: Profile, launch: Launch, connection: string)
    requires connection in w.contexts
    ensures SameAccess(w, EnsureSession(w, p, launch).world, connection)
  {
    hide Add, Addable, ByProfile;
  }

  lemma EnterSameAccess(w: World, cfg: Config, connection: string, e: Entry, write: bool, now: int)
    requires connection in w.contexts
    ensures SameAccess(w, EnterSession(w, cfg, connection, e, write, now).world, connection)
    ensures SameAccess(w, RequireWrite(w, cfg, connection, e, now).world, connection)
    ensures SameAccess(w, RenewOwned(w, cfg, connection, e, now).world, connection)
  {
    hide Acquire, AcquireError, Require, RequireError, RenewIfOwned, RenewError;
  }

  lemma ProfileGranted(w: World, cfg: Config, connection: string, p: Option<Profile>, e: Entry, now: int)
    requires connection in w.contexts && p.Some?
    ensures GrantProfile(w, cfg, connection, p.value, now).answer.Ok? ==>
      Granted(GrantProfile(w, cfg, connection, p.value, now).world, connection, w.contexts[connection].agent, p, cfg.grantTtl, now)
    ensures RequireProfile(w, cfg, connection, e, p, now).answer.Ok? ==>
      Granted(RequireProfile(w, cfg, connection, e, p, now).world, connection, w.contexts[connection].agent, p, cfg.grantTtl, now)
  {
  }

  lemma GrantedStays(w: World, w': World, connection: string, agent: string, p: Option<Profile>, ttl: nat, now: int)
    requires Granted(w, connection, agent, p, ttl, now) && SameAccess(w, w', connection)
    ensures Granted(w', connection, agent, p, ttl, now)
  {
  }

  lemma EnteredGranted(w: World, cfg: Config, connection: string, p: Option<Profile>, launch: Launch, write: bool, now: int)
    requires connection in w.contexts && EnterProfile(w, cfg, connection, p, launch, write, now).answer.Ok?
    ensures Granted(EnterProfile(w, cfg, connection, p, launch, write, now).world, connection, w.contexts[connection].agent, p,
                    cfg.grantTtl, now)
  {
    hide GrantProfile, EnsureSession, EnterSession, Granted, SameAccess;
    var agent := w.contexts[connection].agent;
    var granted := GrantProfile(w, cfg, connection, p.value, now);
    ProfileGranted(w, cfg, connection, p, Entry(0, 0, p.value), now);
    AccessParts(granted.world, connection, agent, p, cfg.grantTtl, now);
    EnsureSameAccess(granted.world, p.value, launch, connection);
    var ensured := EnsureSession(granted.world, p.value, launch);
    GrantedStays(granted.world, ensured.world, connection, agent, p, cfg.grantTtl, now);
    AccessParts(ensured.world, connection, agent, p, cfg.grantTtl, now);
    EnterSameAccess(ensured.world, cfg, connection, ensured.answer.value, write, now);
    var entered := EnterSession(ensured.world, cfg, connection, ensured.answer.value, write, now);
    GrantedStays(ensured.world, entered.world, connection, agent, p, cfg.grantTtl, now);
  }

  lemma AccessParts(w: World, connection: string, agent: string, p: Option<Profile>, ttl: nat, now: int)
    requires Granted(w, connection, agent, p, ttl, now)
    ensures connection in w.contexts
  {
  }

  lemma CurrentGranted(w: World, cfg: Config, connection: string, p: Option<Profile>, now: int)
    requires connection in w.contexts && CurrentForWrite(w, cfg, connection, p, now).answer.Ok?
    ensures Granted(CurrentForWrite(w, cfg, connection, p, now).world, connection, w.contexts[connection].agent, p, cfg.grantTtl, now)
  {
    hide RequireProfile, RequireWrite, Granted, SameAccess, CurrentSession;
    var agent, e := w.contexts[connection].agent, CurrentSession(w, connection).value;
    RequiredProfile(w, cfg, connection, p, e, now);
    ProfileGranted(w, cfg, connection, p, e, now);
    var entered := RequireProfile(w, cfg, connection, e, p, now);
    EnterSameAccess(entered.world, cfg, connection, e, true, now);
    GrantedStays(entered.world, RequireWrite(entered.world, cfg, connection, e, now).world, connection, agent, p, cfg.grantTtl, now);
  }

  lemma RequiredProfile(w: World, cfg: Config, connection: string, p: Option<Profile>, e: Entry, now: int)
    requires connection in w.contexts
    ensures p.None? ==> RequireProfile(w, cfg, connection, e, p, now).answer.Err?
    ensures RequireProfile(w, cfg, connection, e, p, now).world.contexts == w.contexts
    ensures RequireProfile(w, cfg, connection, e, p, now).answer.Ok? ==> RequireProfile(w, cfg, connection, e, p, now).answer.value == e
  {
    hide RequireGrant;
  }

  lemma RouteGranted(w: World, cfg: Config, connection: string, r: Route, p: Option<Profile>, now: int)
    requires connection in w.contexts && EnterRoute(w, cfg, connection, r, p, now).answer.Ok?
    ensures Granted(EnterRoute(w, cfg, connection, r, p, now).world, connection, w.contexts[connection].agent, p, cfg.grantTtl, now)
  {
    hide RequireProfile, EnterSession, Granted, SameAccess;
    var agent, e := w.contexts[connection].agent, Get(w.sessions.entries, r.session).value;
    RequiredProfile(w, cfg, connection, p, e, now);
    ProfileGranted(w, cfg, connection, p, e, now);
    var entered := RequireProfile(w, cfg, connection, e, p, now);
    EnterSameAccess(entered.world, cfg, connection, e, true, now);
    GrantedStays(entered.world, EnterSession(entered.world, cfg, connection, e, true, now).world, connection, agent, p, cfg.grantTtl, now);
  }

  /** Whoever may write to a session was admitted by the profile just looked up. */
  lemma WritersAreGranted(w: World, cfg: Config, m: Move, now: int)
    requires (m.Open? || m.Act? || m.Switch?) && WriteGate(w, cfg, m, now).answer.Ok?
    ensures Granted(WriteGate(w, cfg, m, now).world, m.connection, m.agent, m.profile, cfg.grantTtl, now)
  {
    hide Granted, EnterProfile, CurrentForWrite, EnterRoute, ConnectWorld;
    ConnectedAgent(w, cfg, m.connection, m.agent, now);
    var c := ConnectWorld(w, cfg, m.connection, m.agent, now).world;
    match m
    case Open(connection, _, p, launch) => EnteredGranted(c, cfg, connection, p, launch, true, now);
    case Act(connection, _, p, _) => CurrentGranted(c, cfg, connection, p, now);
    case Switch(connection, _, tab, p) =>
      if tab in c.tabs.byPublic {
        RouteGranted(c, cfg, connection, c.tabs.byPublic[tab], p, now);
      } else {
        CurrentGranted(c, cfg, connection, p, now);
      }
  }

  /** Whoever may observe was admitted too: by the profile of its current session, or by the
      default one it was given a session of. */
  lemma ObserversAreGranted(w: World, cfg: Config, connection: string, agent: string, current: Option<Profile>,
                            fallback: Option<Profile>, launch: Launch, ids: seq<Id>, now: int)
    requires ObserveGate(w, cfg, connection, agent, current, fallback, launch, ids, now).answer.Ok?
    ensures var w' := ObserveGate(w, cfg, connection, agent, current, fallback, launch, ids, now).world;
      Granted(w', connection, agent, current, cfg.grantTtl, now) || Granted(w', connection, agent, fallback, cfg.grantTtl, now)
  {
    hide Granted, SameAccess, EnterProfile, RequireProfile, RenewOwned, ConnectWorld, LocalizeAll, CurrentSession;
    ConnectedAgent(w, cfg, connection, agent, now);
    var c := ConnectWorld(w, cfg, connection, agent, now).world;
    var session := CurrentSession(c, connection);
    if session.Some? {
      RequiredProfile(c, cfg, connection, current, session.value, now);
      ProfileGranted(c, cfg, connection, current, session.value, now);
      RenewedGranted(RequireProfile(c, cfg, connection, session.value, current, now), cfg, connection, agent, current, now);
    } else {
      EnteredGranted(c, cfg, connection, fallback, launch, false, now);
      RenewedGranted(EnterProfile(c, cfg, connection, fallback, launch, false, now), cfg, connection, agent, fallback, now);
    }
  }

  lemma RenewedGranted(o: Outcome<Entry>, cfg: Config, connection: string, agent: string, p: Option<Profile>, now: int)
    requires o.answer.Ok? && Granted(o.world, connection, agent, p, cfg.grantTtl, now)
    ensures connection in o.world.contexts
    ensures Granted(RenewOwned(o.world, cfg, connection, o.answer.value, now).world, connection, agent, p, cfg.grantTtl, now)
  {
    hide RenewOwned, SameAccess;
    EnterSameAccess(o.world, cfg, connection, o.answer.value, false, now);
    GrantedStays(o.world, RenewOwned(o.world, cfg, connection, o.answer.value, now).world, connection, agent, p, cfg.grantTtl, now);
  }

  /** Whoever is shown the tabs of a session holds a grant for its profile, checked just now. */
  lemma ViewersAreGranted(w: World, cfg: Config, connection: string, session: nat, p: Option<Profile>, listing: Listing, now: int)
    requires connection in w.contexts
    requires var o := VisitTabs(w, cfg, connection, session, p, listing, now); o.answer.Ok? && o.answer.value != []
    ensures Granted(VisitTabs(w, cfg, connection, session, p, listing, now).world, connection, w.contexts[connection].agent, p,
                    cfg.grantTtl, now)
  {
    hide Granted, SameAccess, RequireProfile, RenewOwned, Published;
    var agent, e := w.contexts[connection].agent, w.sessions.entries[session];
    RequiredProfile(w, cfg, connection, p, e, now);
    ProfileGranted(w, cfg, connection, p, e, now);
    var entered := RequireProfile(w, cfg, connection, e, p, now);
    EnterSameAccess(entered.world, cfg, connection, e, false, now);
    var renewed := RenewOwned(entered.world, cfg, connection, e, now);
    GrantedStays(entered.world, renewed.world, connection, agent, p, cfg.grantTtl, now);
    SameAccessParts(renewed.world, BindTabs(renewed.world, e, listing), connection);
    GrantedStays(renewed.world, BindTabs(renewed.world, e, listing), connection, agent, p, cfg.grantTtl, now);
  }

  lemma SameAccessParts(w: World, w': World, connection: string)
    requires connection in w.contexts && w'.contexts == w.contexts && w'.grants == w.grants
    ensures SameAccess(w, w', connection)
  {
  }
}
