/** The supervisor object: it owns the session manager, the three access managers and the route
    registry, and every call of it is one or two steps of the model. */
module RuntimeSupervisor {
  import opened Prelude
  import opened WebObjects
  import opened Routes
  import opened Sessions = SessionManager
  import opened SessionRouting
  import opened SupervisorModel
  import opened SupervisorInvariant
  import opened SupervisorTabs
  import R = GlobalRouteRegistry

  class BrowserRuntimeSupervisor {
    const sessions: Sessions.SessionManager
    const connections: AgentConnectionRegistry
    const grants: AgentProfileGrantManager
    const leases: AgentSessionLeaseManager
    const routes: R.GlobalRouteRegistry
    var locks: map<nat, nat>
    var issued: nat
    var closed: bool

    function State(): World
      reads this, sessions, connections, grants, leases, routes
    {
      World(sessions.State(), connections.contexts, grants.State(), leases.State(), routes.tabs, routes.objects, locks, issued, closed)
    }

    function Limits(): Config {
      Config(connections.ttl, grants.ttl, leases.ttl)
    }

    ghost predicate Valid()
      reads this, sessions, connections, grants, leases, routes
    {
      Inv(State())
    }

    constructor (connections: AgentConnectionRegistry, grants: AgentProfileGrantManager, leases: AgentSessionLeaseManager)
      requires connections.contexts == map[] && grants.State() == Grants(map[], 0) && leases.State() == Leases(map[], 0)
      ensures State() == START && Valid()
      ensures Limits() == Config(connections.ttl, grants.ttl, leases.ttl)
      ensures fresh(sessions) && fresh(routes) && this.connections == connections && this.grants == grants && this.leases == leases
    {
      this.connections, this.grants, this.leases := connections, grants, leases;
      sessions := new Sessions.SessionManager();
      routes := new R.GlobalRouteRegistry();
      locks, issued, closed := map[], 0, false;
      new;
      StartInv();
    }

    // ------------------------------------------------------------------
    // Sessions
    // ------------------------------------------------------------------

    method Ensure(p: Profile, launch: Launch) returns (answer: Result<Entry, RoutingError>)
      requires Valid()
      modifies this`locks, this`issued, sessions
      ensures Valid() && State() == EnsureSession(old(State()), p, launch).world
      ensures answer == EnsureSession(old(State()), p, launch).answer
    {
      hide Inv, SessionsValid, LocksExact, Add, Addable, ByProfile;
      EnsureKeepsInv(State(), p, launch);
      InvParts(State());
      LaunchedLocks(sessions.sessions, locks, issued, Entry(issued, issued, p));
      if closed {
        return Err(SupervisorClosed);
      }
      var existing := ByProfile(sessions.State(), p.id);
      if existing.Some? {
        return Ok(existing.value);
      }
      if launch.LockBusy? {
        return Err(ProfileLockBusy);
      }
      var e := Entry(issued, issued, p);
      locks := locks[e.session := 0];
      issued := issued + 1;
      var added := false;
      if !launch.Fails? {
        added := sessions.AddEntry(e);
      }
      if !added {
        locks := locks[e.session := locks[e.session] + 1];
        assert locks == old(locks)[e.session := 1];
        return Err(LaunchFailed);
      }
      answer := if launch.Launched? then Ok(e) else Err(LaunchFailed);
    }

    method FinalizeSession(session: nat)
      requires Valid()
      modifies this`locks, sessions, connections, leases, routes
      ensures Valid() && State() == Finalize(old(State()), session)
      ensures Finalize(State(), session) == State()
    {
      hide Inv, SessionsValid, LocksExact, Inverse, Remove, UnbindAll, Invalidate;
      FinalizeKeepsInv(State(), session);
      InvParts(State());
      if session in sessions.sessions {
        FinalizeIsComplete(State(), session);
      } else {
        RemoveAbsent(sessions.State(), session);
      }
      var removed := sessions.RemoveEntry(session);
      if removed.None? {
        return;
      }
      var lease := leases.ReleaseSession(session);
      connections.UnbindSession(session);
      routes.InvalidateSession(session);
      locks := locks[session := GetOr(locks, session, 0) + 1];
    }

    /** The terminal callback; closing a crashed runtime may call it again from inside. */
    method OnSessionTerminal(session: nat, again: bool)
      requires Valid()
      modifies this`locks, sessions, connections, leases, routes
      ensures Valid() && State() == Finalize(old(State()), session)
    {
      if session !in sessions.sessions {
        return;
      }
      if again {
        FinalizeSession(session);
      }
      FinalizeSession(session);
    }

    /** Closing the runtime normally runs the terminal callback before the session is finalized. */
    method CloseSession(session: nat, notifies: bool)
      requires Valid()
      modifies this`locks, sessions, connections, leases, routes
      ensures Valid() && State() == Finalize(old(State()), session)
    {
      if session !in sessions.sessions {
        return;
      }
      if notifies {
        OnSessionTerminal(session, false);
      }
      FinalizeSession(session);
    }

    method Close()
      requires Valid()
      modifies this, sessions, connections, leases, routes
      ensures Valid() && State() == CloseAll(old(State()))
    {
      if closed {
        return;
      }
      closed := true;
      ghost var start := State();
      var entries := sessions.order;
      assert entries[..0] == [];
      for i := 0 to |entries|
        invariant Valid() && State() == FinalizeAll(start, entries[..i])
      {
        assert entries[..i + 1][..i] == entries[..i];
        FinalizeSession(entries[i]);
      }
      assert entries[..|entries|] == entries;
    }

    // ------------------------------------------------------------------
    // Gates
    // ------------------------------------------------------------------

    method ConnectAgent(connection: string, agent: string, now: int) returns (answer: Result<(), RoutingError>)
      requires Valid()
      modifies connections
      ensures Valid() && State() == ConnectWorld(old(State()), Limits(), connection, agent, now).world
      ensures answer == ConnectWorld(old(State()), Limits(), connection, agent, now).answer
    {
      ConnectKeepsInv(State(), Limits(), connection, agent, now);
      answer := connections.GetOrCreate(connection, agent, now);
    }

    method EnterEntry(connection: string, e: Entry, write: bool, now: int) returns (answer: Result<Entry, RoutingError>)
      requires Valid() && connection in connections.contexts && ActiveEntry(State(), e)
      modifies connections, leases
      ensures Valid() && State() == EnterSession(old(State()), Limits(), connection, e, write, now).world
      ensures answer == EnterSession(old(State()), Limits(), connection, e, write, now).answer
    {
      hide Inv, Acquire, AcquireError;
      EnterSessionKeepsInv(State(), Limits(), connection, e, write, now);
      if write {
        var claim := Claim(connections.contexts[connection].agent, connection, e.session, e.profile.id, e.generation);
        var lease := leases.AcquireLease(claim, now);
        if lease.Err? {
          return Err(lease.error);
        }
      }
      connections.Bind(connection, e.session, e.profile.id, now);
      answer := Ok(e);
    }

    method Enter(connection: string, p: Option<Profile>, launch: Launch, write: bool, now: int)
      returns (answer: Result<Entry, RoutingError>)
      requires Valid() && connection in connections.contexts
      modifies this`locks, this`issued, sessions, connections, grants, leases
      ensures Valid() && State() == EnterProfile(old(State()), Limits(), connection, p, launch, write, now).world
      ensures answer == EnterProfile(old(State()), Limits(), connection, p, launch, write, now).answer
    {
      hide Inv, EnterSession, EnsureSession, Authorize;
      EnterProfileKeepsInv(State(), Limits(), connection, p, launch, write, now);
      if p.None? {
        return Err(ProfileNotFound);
      }
      ghost var start := State();
      GrantKeepsInv(start, Limits(), connection, p.value, now);
      var granted := grants.AuthorizeProfile(p.value, connections.contexts[connection].agent, connection, now);
      if granted.Err? {
        return Err(granted.error);
      }
      connections.Authorize(connection, p.value.id);
      assert State() == GrantProfile(start, Limits(), connection, p.value, now).world;
      EnsureKeepsInv(State(), p.value, launch);
      var ensured := Ensure(p.value, launch);
      if ensured.Err? {
        return Err(ensured.error);
      }
      answer := EnterEntry(connection, ensured.value, write, now);
    }

    method RequireProfileGrant(connection: string, e: Entry, p: Option<Profile>, now: int) returns (answer: Result<Entry, RoutingError>)
      requires Valid() && connection in connections.contexts && ActiveEntry(State(), e)
      modifies grants
      ensures Valid() && State() == RequireProfile(old(State()), Limits(), connection, e, p, now).world
      ensures answer == RequireProfile(old(State()), Limits(), connection, e, p, now).answer
      ensures ActiveEntry(State(), e)
    {
      RequireProfileKeepsInv(State(), Limits(), connection, e, p, now);
      if p.None? {
        return Err(ProfileNotFound);
      }
      var granted := grants.Require(p.value, connections.contexts[connection].agent, connection, now);
      answer := if granted.Err? then Err(granted.error) else Ok(e);
    }

    method RequireSessionWrite(connection: string, e: Entry, now: int) returns (answer: Result<Entry, RoutingError>)
      requires Valid() && connection in connections.contexts && ActiveEntry(State(), e)
      modifies leases
      ensures Valid() && State() == RequireWrite(old(State()), Limits(), connection, e, now).world
      ensures answer == RequireWrite(old(State()), Limits(), connection, e, now).answer
    {
      hide Inv, Acquire, Require, RenewIfOwned, AcquireError, RequireError, RenewError;
      LeaseStepsKeepInv(State(), Limits(), connection, e, now);
      var claim := Claim(connections.contexts[connection].agent, connection, e.session, e.profile.id, e.generation);
      var lease := leases.RequireLease(claim, now);
      answer := if lease.Err? then Err(lease.error) else Ok(e);
    }

    method RenewIfHeld(connection: string, e: Entry, now: int) returns (answer: Result<Entry, RoutingError>)
      requires Valid() && connection in connections.contexts && ActiveEntry(State(), e)
      modifies leases
      ensures Valid() && State() == RenewOwned(old(State()), Limits(), connection, e, now).world
      ensures answer == RenewOwned(old(State()), Limits(), connection, e, now).answer
    {
      hide Inv, Acquire, Require, RenewIfOwned, AcquireError, RequireError, RenewError;
      LeaseStepsKeepInv(State(), Limits(), connection, e, now);
      var claim := Claim(connections.contexts[connection].agent, connection, e.session, e.profile.id, e.generation);
      var lease := leases.RenewOwned(claim, now);
      answer := if lease.Err? then Err(lease.error) else Ok(e);
    }

    method CurrentEntryForWrite(connection: string, p: Option<Profile>, now: int) returns (answer: Result<Entry, RoutingError>)
      requires Valid() && connection in connections.contexts
      modifies grants, leases
      ensures Valid() && State() == CurrentForWrite(old(State()), Limits(), connection, p, now).world
      ensures answer == CurrentForWrite(old(State()), Limits(), connection, p, now).answer
      ensures answer.Ok? ==> ActiveEntry(State(), answer.value)
    {
      hide Inv, RequireProfile, Require, RequireError;
      CurrentForWriteKeepsInv(State(), Limits(), connection, p, now);
      var session := CurrentSession(State(), connection);
      if session.None? {
        return Err(SessionContextRequired);
      }
      CurrentSessionActive(State(), connection);
      RequireProfileKeepsInv(State(), Limits(), connection, session.value, p, now);
      answer := RequireProfileGrant(connection, session.value, p, now);
      if answer.Err? {
        return;
      }
      answer := RequireSessionWrite(connection, session.value, now);
    }

    // ------------------------------------------------------------------
    // Serving
    // ------------------------------------------------------------------

    method BindSessionTabs(e: Entry, listing: Listing)
      requires Valid() && ActiveEntry(State(), e)
      modifies this`locks, sessions, connections, leases, routes
      ensures Valid() && State() == BindTabs(old(State()), e, listing)
    {
      hide Inv, Inverse, LocksExact, SessionsValid, Finalize, Published;
      BindTabsKeepsInv(State(), e, listing);
      InvParts(State());
      match listing
      case ListRaised =>
      case ListCrashed => OnSessionTerminal(e.session, false);
      case Listed(tabs) =>
        BindListedTabs(e, tabs);
    }

    method BindListedTabs(e: Entry, tabs: set<Id>)
      requires routes.Valid()
      modifies routes`tabs
      ensures routes.Valid() && routes.tabs == Published(old(routes.tabs), TabId, e.session, e.profile.id, e.generation, tabs)
    {
      hide Inverse, BoundAll, Bind;
      ghost var start := routes.tabs;
      var rest := tabs;
      BoundNone(start, TabId, e.session, e.profile.id, e.generation, {});
      assert tabs - rest == {};
      while rest != {}
        invariant rest <= tabs && routes.Valid()
        invariant BoundAll(start, routes.tabs, TabId, e.session, e.profile.id, e.generation, tabs - rest)
        decreases |rest|
      {
        var tab :| tab in rest;
        ghost var before, done := routes.tabs, tabs - rest;
        rest := rest - {tab};
        if tab == BLANK {
          BoundNone(before, TabId, e.session, e.profile.id, e.generation, {tab});
        } else {
          BoundOne(before, TabId, e.session, e.profile.id, e.generation, tab);
          var route := routes.BindTab(e.session, e.profile.id, e.generation, tab);
        }
        BoundMore(start, before, routes.tabs, TabId, e.session, e.profile.id, e.generation, done, {tab});
        assert tabs - rest == done + {tab};
      }
      assert tabs - rest == tabs;
      BoundAllIsPublished(start, routes.tabs, TabId, e.session, e.profile.id, e.generation, tabs);
    }

    /** Publishes a reply and reads the session's lease for its status. */
    method ProjectReply(e: Entry, state: WebState, target: Option<Id>, record: Option<OperationRecord>, now: int)
      returns (published: Page)
      requires Valid()
      modifies routes, leases
      ensures Valid() && State() == Project(old(State()), e, state, target, now)
      ensures published == PublicPage(e, state, target, record)
    {
      hide Inv, LocksExact, SessionsValid, BoundAll, Published;
      ProjectKeepsInv(State(), e, state, target, now);
      InvParts(State());
      ghost var start := routes.objects;
      var p := R.Place(state.session, e.profile.id, e.generation);
      BoundNone(start, ObjectId, p.session, p.profile, p.generation, {});
      var projected := routes.ProjectOption(target, p, OptionSet(target), start, {});
      ghost var mid := routes.objects;
      var renamed := routes.ProjectWebState(state, e.profile.id, e.generation);
      published := Page(renamed, projected, record);
      BoundMore(start, mid, routes.objects, ObjectId, p.session, p.profile, p.generation, {} + OptionSet(target), StateIds(state));
      assert {} + OptionSet(target) + StateIds(state) == ReplyIds(state, target);
      BoundAllIsPublished(start, routes.objects, ObjectId, p.session, p.profile, p.generation, ReplyIds(state, target));
      var lease := leases.Active(e.session, now);
    }

    /** The session's page and the target of the operation with every id public; the record of the
        operation is handed on as it is. */
    static function PublicPage(e: Entry, state: WebState, target: Option<Id>, record: Option<OperationRecord>): Page {
      Page(RenameState(state, Publishing(state.session, e.generation, StateIds(state))),
           MapOption(target, Publishing(state.session, e.generation, OptionSet(target))),
           record)
    }

    /** The reply an Agent gets, if there is one. */
    static function Answered(e: Entry, reply: Reply): Option<Page> {
      if reply.Returned? then Some(PublicPage(e, reply.state, reply.target, reply.record)) else None
    }

    /** The runtime's part of a call; without an answer the call raised. */
    method ServeCall(e: Entry, reply: Reply, listing: Option<Listing>, now: int) returns (published: Option<Page>)
      requires Valid() && ActiveEntry(State(), e)
      modifies this`locks, sessions, connections, leases, routes
      ensures Valid() && State() == Serve(old(State()), e, reply, listing, now)
      ensures published == Answered(e, reply)
    {
      hide Inv, BindTabs, Project, Finalize, PublicPage;
      published := None;
      match reply
      case Raised =>
      case Crashed => OnSessionTerminal(e.session, false);
      case Returned(state, target, record) =>
        if listing.Some? {
          BindSessionTabs(e, listing.value);
        }
        var answer := ProjectReply(e, state, target, record, now);
        published := Some(answer);
    }

    // ------------------------------------------------------------------
    // Agent-facing calls
    // ------------------------------------------------------------------

    method OpenWeb(connection: string, agent: string, p: Option<Profile>, launch: Launch, reply: Reply, listing: Listing, now: int)
      returns (answer: Result<Option<Page>, RoutingError>)
      requires Valid()
      modifies this`locks, this`issued, sessions, connections, grants, leases, routes
      ensures Valid()
      ensures var gate := EnterGate(old(State()), Limits(), connection, agent, p, launch, true, now);
        if gate.answer.Err? then answer == Err(gate.answer.error) && State() == gate.world
        else answer == Ok(Answered(gate.answer.value, reply)) && State() == Serve(gate.world, gate.answer.value, reply, Some(listing), now)
    {
      hide Inv, EnterProfile, Connect, Serve;
      EnterGateKeepsInv(State(), Limits(), connection, agent, p, launch, true, now);
      ConnectKeepsInv(State(), Limits(), connection, agent, now);
      var connected := ConnectAgent(connection, agent, now);
      if connected.Err? {
        return Err(connected.error);
      }
      var entered := Enter(connection, p, launch, true, now);
      if entered.Err? {
        return Err(entered.error);
      }
      var published := ServeCall(entered.value, reply, Some(listing), now);
      answer := Ok(published);
    }

    method ObserveWeb(connection: string, agent: string, current: Option<Profile>, fallback: Option<Profile>, launch: Launch,
                      ids: seq<Id>, reply: Reply, now: int)
      returns (answer: Result<Option<Page>, RoutingError>)
      requires Valid()
      modifies this`locks, this`issued, sessions, connections, grants, leases, routes
      ensures Valid()
      ensures var gate := ObserveGate(old(State()), Limits(), connection, agent, current, fallback, launch, ids, now);
        if gate.answer.Err? then answer == Err(gate.answer.error) && State() == gate.world
        else answer == Ok(Answered(gate.answer.value, reply)) && State() == Serve(gate.world, gate.answer.value, reply, None, now)
    {
      hide Inv, EnterProfile, RequireProfile, RenewOwned, Connect, Serve, LocalizeAll;
      ObserveGateKeepsInv(State(), Limits(), connection, agent, current, fallback, launch, ids, now);
      ConnectKeepsInv(State(), Limits(), connection, agent, now);
      var connected := ConnectAgent(connection, agent, now);
      if connected.Err? {
        return Err(connected.error);
      }
      var session := CurrentSession(State(), connection);
      var entered: Result<Entry, RoutingError>;
      EnterProfileKeepsInv(State(), Limits(), connection, fallback, launch, false, now);
      if session.Some? {
        CurrentSessionActive(State(), connection);
        RequireProfileKeepsInv(State(), Limits(), connection, session.value, current, now);
        entered := RequireProfileGrant(connection, session.value, current, now);
      } else {
        entered := Enter(connection, fallback, launch, false, now);
      }
      if entered.Err? {
        return Err(entered.error);
      }
      entered := RenewIfHeld(connection, entered.value, now);
      if entered.Err? {
        return Err(entered.error);
      }
      var localized := LocalizeIds(ids, entered.value);
      if !localized {
        return Err(ObjectSessionMismatch);
      }
      var published := ServeCall(entered.value, reply, None, now);
      answer := Ok(published);
    }

    method LocalizeIds(ids: seq<Id>, e: Entry) returns (ok: bool)
      requires Valid()
      ensures ok == LocalizeAll(routes.objects, ids, e)
    {
      for i := 0 to |ids|
        invariant forall j :: 0 <= j < i ==> Localize(routes.objects, ids[j], e.session, e.generation).Ok?
      {
        var local := routes.RequireLocalObject(ids[i], e.session, e.generation);
        if local.Err? {
          return false;
        }
      }
      ok := true;
    }

    method ActWeb(connection: string, agent: string, p: Option<Profile>, target: Id, reply: Reply, listing: Listing, now: int)
      returns (answer: Result<Option<Page>, RoutingError>)
      requires Valid()
      modifies this`locks, sessions, connections, grants, leases, routes
      ensures Valid()
      ensures var gate := ActGate(old(State()), Limits(), connection, agent, p, target, now);
        if gate.answer.Err? then answer == Err(gate.answer.error) && State() == gate.world
        else answer == Ok(Answered(gate.answer.value, reply)) && State() == Serve(gate.world, gate.answer.value, reply, Some(listing), now)
    {
      hide Inv, CurrentForWrite, Connect, Serve, LocalizeAll;
      ActGateKeepsInv(State(), Limits(), connection, agent, p, target, now);
      ConnectKeepsInv(State(), Limits(), connection, agent, now);
      var connected := ConnectAgent(connection, agent, now);
      if connected.Err? {
        return Err(connected.error);
      }
      var entered := CurrentEntryForWrite(connection, p, now);
      if entered.Err? {
        return Err(entered.error);
      }
      var localized := LocalizeIds([target], entered.value);
      if !localized {
        return Err(ObjectSessionMismatch);
      }
      var published := ServeCall(entered.value, reply, Some(listing), now);
      answer := Ok(published);
    }

    /** The compatibility facade: the default profile is entered without a write lease. */
    method EnsureCompatRuntime(connection: string, agent: string, fallback: Option<Profile>, launch: Launch, now: int)
      returns (answer: Result<Entry, RoutingError>)
      requires Valid()
      modifies this`locks, this`issued, sessions, connections, grants, leases
      ensures Valid() && State() == EnterGate(old(State()), Limits(), connection, agent, fallback, launch, false, now).world
      ensures answer == EnterGate(old(State()), Limits(), connection, agent, fallback, launch, false, now).answer
    {
      hide Inv, EnterProfile, Connect;
      EnterGateKeepsInv(State(), Limits(), connection, agent, fallback, launch, false, now);
      ConnectKeepsInv(State(), Limits(), connection, agent, now);
      var connected := ConnectAgent(connection, agent, now);
      if connected.Err? {
        return Err(connected.error);
      }
      answer := Enter(connection, fallback, launch, false, now);
    }

    method GetTabs(connection: string, agent: string, fallback: Option<Profile>, launch: Launch, profiles: map<string, Profile>,
                   listings: map<nat, Listing>, now: int)
      returns (answer: Result<seq<TabList>, RoutingError>)
      requires Valid()
      modifies this`locks, this`issued, sessions, connections, grants, leases, routes
      ensures Valid()
      ensures var gate := TabsGate(old(State()), Limits(), connection, agent, fallback, launch, now);
        && (gate.answer.Ok? ==> connection in gate.world.contexts)
        && var call := TabsCall(old(State()), Limits(), connection, agent, fallback, launch, profiles, listings, now);
           State() == call.world && answer == call.answer
    {
      hide Inv, TabsGate, VisitAll, Ordered;
      TabsGateKeepsInv(State(), Limits(), connection, agent, fallback, launch, now);
      var entered := EnterForTabs(connection, agent, fallback, launch, now);
      if entered.Err? {
        return Err(entered.error);
      }
      answer := VisitSessions(connection, Ordered(connections.contexts[connection].leased), profiles, listings, now);
    }

    method EnterForTabs(connection: string, agent: string, fallback: Option<Profile>, launch: Launch, now: int)
      returns (answer: Result<(), RoutingError>)
      requires Valid()
      modifies this`locks, this`issued, sessions, connections, grants, leases
      ensures Valid() && State() == TabsGate(old(State()), Limits(), connection, agent, fallback, launch, now).world
      ensures answer == TabsGate(old(State()), Limits(), connection, agent, fallback, launch, now).answer
    {
      hide Inv, Connect, EnterProfile;
      TabsGateKeepsInv(State(), Limits(), connection, agent, fallback, launch, now);
      ConnectKeepsInv(State(), Limits(), connection, agent, now);
      answer := ConnectAgent(connection, agent, now);
      if answer.Ok? && connections.contexts[connection].leased == {} {
        EnterProfileKeepsInv(State(), Limits(), connection, fallback, launch, true, now);
        var entered := Enter(connection, fallback, launch, true, now);
        answer := if entered.Err? then Err(entered.error) else Ok(());
      }
    }

    /** The loop over the sessions a connection has entered. */
    method VisitSessions(connection: string, order: seq<nat>, profiles: map<string, Profile>, listings: map<nat, Listing>, now: int)
      returns (answer: Result<seq<TabList>, RoutingError>)
      requires Valid() && connection in connections.contexts
      modifies this`locks, sessions, connections, grants, leases, routes
      ensures Valid()
      ensures State() == VisitAll(old(State()), Limits(), connection, order, profiles, listings, now).world
      ensures answer == VisitAll(old(State()), Limits(), connection, order, profiles, listings, now).answer
    {
      hide Inv, VisitTabs;
      ghost var start := State();
      var shown: seq<TabList> := [];
      for i := 0 to |order|
        invariant Valid()
        invariant VisitAll(start, Limits(), connection, order[..i], profiles, listings, now) == Outcome(State(), Ok(shown))
      {
        assert order[..i + 1][..i] == order[..i];
        var p := ProfileNow(State(), order[i], profiles);
        var visit := VisitSession(connection, order[i], p, GetOr(listings, order[i], ListRaised), now);
        if visit.Err? {
          VisitsStop(start, Limits(), connection, order, i + 1, profiles, listings, now);
          return Err(visit.error);
        }
        shown := shown + visit.value;
      }
      assert order[..|order|] == order;
      answer := Ok(shown);
    }

    method VisitSession(connection: string, session: nat, p: Option<Profile>, listing: Listing, now: int)
      returns (answer: Result<seq<TabList>, RoutingError>)
      requires Valid() && connection in connections.contexts
      modifies this`locks, sessions, connections, grants, leases, routes
      ensures Valid() && State() == VisitTabs(old(State()), Limits(), connection, session, p, listing, now).world
      ensures answer == VisitTabs(old(State()), Limits(), connection, session, p, listing, now).answer
    {
      hide Inv, RequireProfile, RenewOwned, BindTabs;
      VisitKeepsInv(State(), Limits(), connection, session, p, listing, now);
      var entry := Get(sessions.sessions, session);
      if entry.None? {
        return Ok([]);
      }
      var e := entry.value;
      ActiveEntryNamed(State(), Entry(session, 0, e.profile));
      var entered := RequireProfileGrant(connection, e, p, now);
      if entered.Err? {
        return Err(entered.error);
      }
      RenewKeepsInv(State(), Limits(), connection, e, now);
      var renewed := RenewIfHeld(connection, e, now);
      if renewed.Err? {
        return Err(renewed.error);
      }
      BindSessionTabs(e, listing);
      answer := if listing.Listed? then Ok([PublicTabs(e, listing.tabs)]) else Err(RuntimeFailed);
    }

    method SwitchTab(connection: string, agent: string, tab: Id, p: Option<Profile>, reply: Reply, now: int)
      returns (answer: Result<Option<Page>, RoutingError>)
      requires Valid()
      modifies this`locks, sessions, connections, grants, leases, routes
      ensures Valid()
      ensures var gate := SwitchGate(old(State()), Limits(), connection, agent, tab, p, now);
        if gate.answer.Err? then answer == Err(gate.answer.error) && State() == gate.world
        else answer == Ok(Answered(gate.answer.value, reply)) && State() == Serve(gate.world, gate.answer.value, reply, None, now)
    {
      hide Inv, CurrentForWrite, EnterRoute, Connect, Serve;
      SwitchGateKeepsInv(State(), Limits(), connection, agent, tab, p, now);
      ConnectKeepsInv(State(), Limits(), connection, agent, now);
      var connected := ConnectAgent(connection, agent, now);
      if connected.Err? {
        return Err(connected.error);
      }
      var entered: Result<Entry, RoutingError>;
      if tab !in routes.tabs.byPublic {
        entered := CurrentEntryForWrite(connection, p, now);
      } else {
        entered := EnterTabRoute(connection, routes.tabs.byPublic[tab], p, now);
      }
      if entered.Err? {
        return Err(entered.error);
      }
      var published := ServeCall(entered.value, reply, None, now);
      answer := Ok(published);
    }

    method EnterTabRoute(connection: string, r: Route, p: Option<Profile>, now: int) returns (answer: Result<Entry, RoutingError>)
      requires Valid() && connection in connections.contexts
      modifies connections, grants, leases
      ensures Valid() && State() == EnterRoute(old(State()), Limits(), connection, r, p, now).world
      ensures answer == EnterRoute(old(State()), Limits(), connection, r, p, now).answer
    {
      hide Inv, RequireProfile, EnterSession;
      EnterRouteKeepsInv(State(), Limits(), connection, r, p, now);
      var session := Get(sessions.sessions, r.session);
      if session.None? || session.value.generation != r.generation {
        return Err(TabSessionExpired);
      }
      ActiveEntryNamed(State(), Entry(r.session, 0, session.value.profile));
      RequireProfileKeepsInv(State(), Limits(), connection, session.value, p, now);
      answer := RequireProfileGrant(connection, session.value, p, now);
      if answer.Err? {
        return;
      }
      answer := EnterEntry(connection, session.value, true, now);
    }

    method Release(connection: string)
      requires Valid()
      modifies connections, grants, leases
      ensures Valid() && State() == ReleaseConnection(old(State()), connection)
    {
      ReleaseKeepsInv(State(), connection);
      var released := connections.Release(connection);
      grants.Revoke(connection);
      leases.ReleaseConnection(connection);
    }
  }
}
