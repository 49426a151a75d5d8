/** What every supervisor step keeps: sessions, locks, leases, connection bindings and routes
    agree with one another. */
module SupervisorInvariant {
  import opened Prelude
  import opened WebObjects
  import opened Routes
  import opened SessionManager
  import opened SessionRouting
  import opened SupervisorModel

  type Entries = map<nat, Entry>

  // ---------------------------------------------------------------------------
  // The invariant, component by component
  // ---------------------------------------------------------------------------

  /** The lock of every active session is held, and every other lock was released exactly once. */
  ghost predicate LocksExact(entries: Entries, locks: map<nat, nat>, issued: nat) {
    && (forall s :: s in entries ==> s in locks)
    && (forall s :: s in locks ==> s < issued && locks[s] == if s in entries then 0 else 1)
  }

  predicate Names(e: Entry, claim: Claim) {
    claim.session == e.session && claim.profile == e.profile.id && claim.generation == e.generation
  }

  /** Every lease names an active session, its profile and its generation. */
  ghost predicate LeasesBound(entries: Entries, ls: Leases) {
    && (forall s :: s in ls.held ==> s in entries && Names(entries[s], ls.held[s].claim) && ls.held[s].leaseId < ls.issued)
    && (forall a, b :: a in ls.held && b in ls.held && ls.held[a].leaseId == ls.held[b].leaseId ==> a == b)
  }

  predicate ContextBound(entries: Entries, x: Context) {
    && x.leased <= entries.Keys
    && (x.current.None? ==> x.currentProfile.None?)
    && (x.current.Some? ==>
         x.current.value in x.leased && x.currentProfile == Some(entries[x.current.value].profile.id))
  }

  /** Every connection points at active sessions only. */
  ghost predicate ContextsBound(entries: Entries, cs: Contexts) {
    forall c :: c in cs ==> ContextBound(entries, cs[c])
  }

  predicate LeadsTo(entries: Entries, k: Key) {
    k.0 in entries && entries[k.0].generation == k.1
  }

  /** Every route of a table names an active session and its generation. */
  ghost predicate RoutesActive(entries: Entries, t: Table) {
    forall k :: k in t.byLocal ==> LeadsTo(entries, k)
  }

  ghost predicate Inv(w: World) {
    && SessionsValid(w.sessions)
    && LocksExact(w.sessions.entries, w.locks, w.issued)
    && LeasesBound(w.sessions.entries, w.leases)
    && ContextsBound(w.sessions.entries, w.contexts)
    && Inverse(w.tabs, TabId) && Inverse(w.objects, ObjectId)
    && RoutesActive(w.sessions.entries, w.tabs)
  }

  lemma InvParts(w: World)
    requires Inv(w)
    ensures SessionsValid(w.sessions) && LocksExact(w.sessions.entries, w.locks, w.issued)
    ensures Inverse(w.tabs, TabId) && Inverse(w.objects, ObjectId)
  {
  }

  lemma StartInv()
    ensures Inv(START) && RoutesActive(START.sessions.entries, START.objects)
  {
  }

  // ---------------------------------------------------------------------------
  // Launching and finalizing
  // ---------------------------------------------------------------------------

  /** More active sessions, none replaced. */
  ghost predicate Extends(entries: Entries, entries': Entries) {
    forall s :: s in entries ==> s in entries' && entries'[s] == entries[s]
  }

  lemma ExtendedBindings(entries: Entries, entries': Entries, ls: Leases, cs: Contexts, t: Table)
    requires Extends(entries, entries')
    ensures LeasesBound(entries, ls) ==> LeasesBound(entries', ls)
    ensures ContextsBound(entries, cs) ==> ContextsBound(entries', cs)
    ensures RoutesActive(entries, t) ==> RoutesActive(entries', t)
  {
    if ContextsBound(entries, cs) {
      forall c | c in cs ensures ContextBound(entries', cs[c]) {
        assert ContextBound(entries, cs[c]);
      }
    }
    if RoutesActive(entries, t) {
      forall k | k in t.byLocal ensures LeadsTo(entries', k) {
        assert LeadsTo(entries, k);
      }
    }
  }

  lemma EnsureKeepsInv(w: World, p: Profile, launch: Launch)
    requires Inv(w)
    ensures var o := EnsureSession(w, p, launch);
      && Inv(o.world) && Extends(w.sessions.entries, o.world.sessions.entries)
      && o.world.contexts == w.contexts && o.world.leases == w.leases && o.world.objects == w.objects
      && (o.answer.Ok? ==> ActiveEntry(o.world, o.answer.value))
  {
    hide SessionsValid, LocksExact, LeasesBound, ContextsBound, Inverse, RoutesActive, Add;
    var e := Entry(w.issued, w.issued, p);
    LaunchedLocks(w.sessions.entries, w.locks, w.issued, e);
    SessionsKept(w.sessions, e, e.session);
    ExtendedBindings(w.sessions.entries, w.sessions.entries[e.session := e], w.leases, w.contexts, w.tabs);
    AddedEntries(w.sessions, e);
    ByProfileActive(w, p.id);
  }

  lemma AddedEntries(s: Sessions, e: Entry)
    ensures Addable(s, e) ==> Add(s, e).entries == s.entries[e.session := e]
  {
  }

  lemma ByProfileActive(w: World, profile: string)
    requires SessionsValid(w.sessions)
    ensures var existing := ByProfile(w.sessions, profile); existing.Some? ==> ActiveEntry(w, existing.value)
  {
    if ByProfile(w.sessions, profile).Some? {
      assert IndexedByProfile(w.sessions, w.sessions.byProfile[profile]);
    }
  }

  lemma LaunchedLocks(entries: Entries, locks: map<nat, nat>, issued: nat, e: Entry)
    requires LocksExact(entries, locks, issued) && e.session == issued
    ensures e.session !in entries
    ensures LocksExact(entries[e.session := e], locks[e.session := 0], issued + 1)
    ensures LocksExact(entries, locks[e.session := 1], issued + 1)
  {
  }

  /** The entry is the active one of its session. */
  predicate ActiveEntry(w: World, e: Entry) {
    e.session in w.sessions.entries && w.sessions.entries[e.session] == e
  }

  lemma FinalizedContexts(entries: Entries, cs: Contexts, session: nat)
    requires ContextsBound(entries, cs)
    ensures ContextsBound(entries - {session}, UnbindAll(cs, session))
  {
    forall c | c in cs ensures ContextBound(entries - {session}, Unbind(cs[c], session)) {
      assert ContextBound(entries, cs[c]);
    }
  }

  lemma FinalizedRoutes(entries: Entries, t: Table, session: nat)
    requires RoutesActive(entries, t)
    ensures RoutesActive(entries - {session}, Invalidate(t, session))
  {
    forall k | k in Invalidate(t, session).byLocal ensures LeadsTo(entries - {session}, k) {
      assert LeadsTo(entries, k);
    }
  }

  lemma FinalizedLocksAndLeases(entries: Entries, locks: map<nat, nat>, issued: nat, ls: Leases, session: nat)
    requires session in entries
    ensures LocksExact(entries, locks, issued) ==>
      LocksExact(entries - {session}, locks[session := GetOr(locks, session, 0) + 1], issued)
    ensures LeasesBound(entries, ls) ==> LeasesBound(entries - {session}, ls.(held := ls.held - {session}))
  {
  }

  lemma FinalizeKeepsInv(w: World, session: nat)
    requires Inv(w)
    ensures Inv(Finalize(w, session))
    ensures RoutesActive(w.sessions.entries, w.objects) ==>
      RoutesActive(Finalize(w, session).sessions.entries, Finalize(w, session).objects)
  {
    hide SessionsValid, LocksExact, LeasesBound, ContextsBound, Inverse, RoutesActive, UnbindAll, Invalidate;
    if session in w.sessions.entries {
      SessionsKept(w.sessions, w.sessions.entries[session], session);
      FinalizedContexts(w.sessions.entries, w.contexts, session);
      FinalizedLocksAndLeases(w.sessions.entries, w.locks, w.issued, w.leases, session);
      FinalizedRoutes(w.sessions.entries, w.tabs, session);
      if RoutesActive(w.sessions.entries, w.objects) {
        FinalizedRoutes(w.sessions.entries, w.objects, session);
      }
      InvalidateKeepsInverse(w.tabs, TabId, session);
      InvalidateKeepsInverse(w.objects, ObjectId, session);
    }
  }

  /** Finalizing removes the session and everything bound to it, releases its lock once, and
      doing it again changes nothing, however close and crash callbacks repeat. */
  lemma FinalizeIsComplete(w: World, session: nat)
    requires Inv(w) && session in w.sessions.entries
    ensures var w' := Finalize(w, session);
      && session !in w'.sessions.entries && w.sessions.entries[session].profile.id !in w'.sessions.byProfile
      && session !in w'.leases.held
      && (forall c :: c in w'.contexts ==> Unbound(w'.contexts[c], session))
      && (forall k :: k in w'.tabs.byLocal || k in w'.objects.byLocal ==> k.0 != session)
      && w.locks[session] == 0 && w'.locks == w.locks[session := 1]
      && Finalize(w', session) == w'
  {
    hide LeasesBound, Inverse, RoutesActive, DefaultActive, Unbind, Dropped;
    assert IndexedByProfile(w.sessions, session);
    var w' := Finalize(w, session);
    forall c | c in w'.contexts ensures Unbound(w'.contexts[c], session) {
      assert ContextBound(w.sessions.entries, w.contexts[c]);
      UnbindUnbinds(w.sessions.entries, w.contexts[c], session);
    }
  }

  lemma UnbindUnbinds(entries: Entries, x: Context, session: nat)
    requires ContextBound(entries, x)
    ensures Unbound(Unbind(x, session), session)
  {
  }

  predicate Unbound(x: Context, session: nat) {
    session !in x.leased && x.current != Some(session)
  }

  lemma FinalizedKeys(w: World, session: nat)
    ensures Finalize(w, session).sessions.entries.Keys == w.sessions.entries.Keys - {session}
    ensures Finalize(w, session).closed == w.closed
  {
  }

  lemma {:induction false} FinalizeAllKeepsInv(w: World, sessions: seq<nat>)
    requires Inv(w)
    ensures var w' := FinalizeAll(w, sessions);
      && Inv(w') && w'.closed == w.closed
      && w'.sessions.entries.Keys == w.sessions.entries.Keys - Elements(sessions)
      && (RoutesActive(w.sessions.entries, w.objects) ==> RoutesActive(w'.sessions.entries, w'.objects))
  {
    hide Inv, RoutesActive, Finalize;
    if sessions != [] {
      var n := |sessions| - 1;
      FinalizeAllKeepsInv(w, sessions[..n]);
      FinalizeKeepsInv(FinalizeAll(w, sessions[..n]), sessions[n]);
      FinalizedKeys(FinalizeAll(w, sessions[..n]), sessions[n]);
      assert sessions == sessions[..n] + [sessions[n]];
      assert Elements(sessions) == Elements(sessions[..n]) + {sessions[n]};
    }
  }

  /** Closing the supervisor leaves no session, no lease, no tab route, and every lock released once. */
  lemma CloseAllReleasesEverything(w: World)
    requires Inv(w)
    ensures var w' := CloseAll(w);
      && Inv(w') && w'.closed && CloseAll(w') == w'
      && (!w.closed ==> w'.sessions.entries == map[] && w'.leases.held == map[] && w'.tabs.byLocal == map[]
                        && forall s :: s in w'.locks ==> w'.locks[s] == 1)
  {
    if !w.closed {
      var closing := w.(closed := true);
      FinalizeAllKeepsInv(closing, w.sessions.order);
      var w' := CloseAll(w);
      assert w'.sessions.entries.Keys == {};
      assert w'.sessions.entries == map[];
      NothingActive(w');
    }
  }

  lemma NothingActive(w: World)
    requires Inv(w) && w.sessions.entries == map[]
    ensures w.leases.held == map[] && w.tabs.byLocal == map[] && forall s :: s in w.locks ==> w.locks[s] == 1
  {
    if k :| k in w.tabs.byLocal {
      assert false;
    }
  }

  // ---------------------------------------------------------------------------
  // Connections, grants and leases
  // ---------------------------------------------------------------------------

  lemma ConnectKeepsInv(w: World, cfg: Config, connection: string, agent: string, now: int)
    requires Inv(w)
    ensures var o := ConnectWorld(w, cfg, connection, agent, now);
      Inv(o.world) && (o.answer.Ok? ==> connection in o.world.contexts && o.world.contexts[connection].agent == agent)
  {
    var o := ConnectWorld(w, cfg, connection, agent, now);
    forall c | c in o.world.contexts ensures ContextBound(w.sessions.entries, o.world.contexts[c]) {
      assert c in w.contexts ==> ContextBound(w.sessions.entries, w.contexts[c]);
    }
  }

  lemma DropKeepsBound(entries: Entries, ls: Leases, session: nat, now: int)
    requires LeasesBound(entries, ls)
    ensures LeasesBound(entries, DropExpired(ls, session, now))
  {
  }

  lemma RenewKeepsBound(entries: Entries, ls: Leases, session: nat, ttl: nat, now: int)
    requires LeasesBound(entries, ls) && session in ls.held
    ensures LeasesBound(entries, Renew(ls, session, ttl, now))
  {
  }

  lemma IssueKeepsBound(entries: Entries, ls: Leases, lease: Lease)
    requires LeasesBound(entries, ls) && lease.leaseId == ls.issued
    requires lease.claim.session in entries && Names(entries[lease.claim.session], lease.claim)
    ensures LeasesBound(entries, Leases(ls.held[lease.claim.session := lease], ls.issued + 1))
  {
  }

  lemma AcquireKeepsBound(entries: Entries, ls: Leases, claim: Claim, ttl: nat, now: int)
    requires LeasesBound(entries, ls) && claim.session in entries && Names(entries[claim.session], claim)
    ensures LeasesBound(entries, Acquire(ls, claim, ttl, now))
    ensures LeasesBound(entries, Require(ls, claim, ttl, now))
    ensures LeasesBound(entries, RenewIfOwned(ls, claim, ttl, now))
  {
    hide LeasesBound;
    DropKeepsBound(entries, ls, claim.session, now);
    var live := DropExpired(ls, claim.session, now);
    if claim.session in live.held {
      RenewKeepsBound(entries, live, claim.session, ttl, now);
    } else {
      IssueKeepsBound(entries, live, Lease(live.issued, claim, now, now + ttl));
    }
  }

  lemma ActiveEntryNamed(w: World, e: Entry)
    requires Inv(w) && e.session in w.sessions.entries
    ensures w.sessions.entries[e.session].session == e.session
  {
    assert IndexedByProfile(w.sessions, e.session);
  }

  lemma LeaseStepsKeepInv(w: World, cfg: Config, connection: string, e: Entry, now: int)
    requires Inv(w) && connection in w.contexts && ActiveEntry(w, e)
    ensures Inv(AcquireWrite(w, cfg, connection, e, now).world)
    ensures Inv(RequireWrite(w, cfg, connection, e, now).world)
    ensures Inv(RenewOwned(w, cfg, connection, e, now).world)
  {
    hide SessionsValid, LocksExact, LeasesBound, ContextsBound, Inverse, RoutesActive, Acquire, Require, RenewIfOwned;
    ActiveEntryNamed(w, e);
    AcquireKeepsBound(w.sessions.entries, w.leases, ClaimOf(w, connection, e), cfg.leaseTtl, now);
  }

  lemma BindKeepsInv(w: World, cfg: Config, connection: string, e: Entry, now: int)
    requires Inv(w) && connection in w.contexts && ActiveEntry(w, e)
    ensures Inv(BindConnection(w, cfg, connection, e, now))
  {
    var x := w.contexts[connection];
    assert ContextBound(w.sessions.entries, x);
    assert IndexedByProfile(w.sessions, e.session);
    assert ContextBound(w.sessions.entries, BindSession(x, e.session, e.profile.id, cfg.connectionTtl, now));
  }

  lemma GrantKeepsInv(w: World, cfg: Config, connection: string, p: Profile, now: int)
    requires Inv(w) && connection in w.contexts
    ensures Inv(GrantProfile(w, cfg, connection, p, now).world)
    ensures connection in GrantProfile(w, cfg, connection, p, now).world.contexts
  {
    assert ContextBound(w.sessions.entries, w.contexts[connection]);
    assert ContextBound(w.sessions.entries, AuthorizeProfile(w.contexts[connection], p.id));
  }

  lemma EnterSessionKeepsInv(w: World, cfg: Config, connection: string, e: Entry, write: bool, now: int)
    requires Inv(w) && connection in w.contexts && ActiveEntry(w, e)
    ensures var o := EnterSession(w, cfg, connection, e, write, now);
      Inv(o.world) && connection in o.world.contexts && (o.answer.Ok? ==> o.answer == Ok(e) && ActiveEntry(o.world, e))
  {
    hide Inv, Acquire;
    if write {
      LeaseStepsKeepInv(w, cfg, connection, e, now);
      var acquired := AcquireWrite(w, cfg, connection, e, now);
      if acquired.answer.Ok? {
        BindKeepsInv(acquired.world, cfg, connection, e, now);
      }
    } else {
      BindKeepsInv(w, cfg, connection, e, now);
    }
  }

  lemma EnterProfileKeepsInv(w: World, cfg: Config, connection: string, p: Option<Profile>, launch: Launch, write: bool, now: int)
    requires Inv(w) && connection in w.contexts
    ensures var o := EnterProfile(w, cfg, connection, p, launch, write, now);
      Inv(o.world) && connection in o.world.contexts && (o.answer.Ok? ==> ActiveEntry(o.world, o.answer.value))
  {
    hide Inv, GrantProfile, EnsureSession, EnterSession;
    if p.Some? {
      GrantKeepsInv(w, cfg, connection, p.value, now);
      var granted := GrantProfile(w, cfg, connection, p.value, now);
      if granted.answer.Ok? {
        EnsureKeepsInv(granted.world, p.value, launch);
        var ensured := EnsureSession(granted.world, p.value, launch);
        if ensured.answer.Ok? {
          EnterSessionKeepsInv(ensured.world, cfg, connection, ensured.answer.value, write, now);
        }
      }
    }
  }

  // ---------------------------------------------------------------------------
  // Gates
  // ---------------------------------------------------------------------------

  ghost predicate GateSound(o: Outcome<Entry>) {
    Inv(o.world) && (o.answer.Ok? ==> ActiveEntry(o.world, o.answer.value))
  }

  lemma EnterGateKeepsInv(w: World, cfg: Config, connection: string, agent: string, p: Option<Profile>, launch: Launch, write: bool,
                          now: int)
    requires Inv(w)
    ensures GateSound(EnterGate(w, cfg, connection, agent, p, launch, write, now))
  {
    ConnectKeepsInv(w, cfg, connection, agent, now);
    var connected := ConnectWorld(w, cfg, connection, agent, now);
    if connected.answer.Ok? {
      EnterProfileKeepsInv(connected.world, cfg, connection, p, launch, write, now);
    }
  }

  lemma CurrentSessionActive(w: World, connection: string)
    requires Inv(w) && connection in w.contexts && CurrentSession(w, connection).Some?
    ensures ActiveEntry(w, CurrentSession(w, connection).value)
  {
    assert IndexedByProfile(w.sessions, w.contexts[connection].current.value);
  }

  lemma RequireProfileKeepsInv(w: World, cfg: Config, connection: string, e: Entry, p: Option<Profile>, now: int)
    requires Inv(w) && connection in w.contexts && ActiveEntry(w, e)
    ensures var o := RequireProfile(w, cfg, connection, e, p, now);
      && Inv(o.world) && ActiveEntry(o.world, e) && o.world.contexts == w.contexts
      && (o.answer.Ok? ==> o.answer.value == e)
  {
  }

  lemma ObserveGateKeepsInv(w: World, cfg: Config, connection: string, agent: string, current: Option<Profile>,
                            fallback: Option<Profile>, launch: Launch, ids: seq<Id>, now: int)
    requires Inv(w)
    ensures GateSound(ObserveGate(w, cfg, connection, agent, current, fallback, launch, ids, now))
  {
    hide Inv, RequireProfile, EnterProfile, ConnectWorld, RenewOwned;
    ConnectKeepsInv(w, cfg, connection, agent, now);
    var connected := ConnectWorld(w, cfg, connection, agent, now);
    if connected.answer.Ok? {
      var session := CurrentSession(connected.world, connection);
      if session.Some? {
        CurrentSessionActive(connected.world, connection);
        RequireProfileKeepsInv(connected.world, cfg, connection, session.value, current, now);
        var entered := RequireProfile(connected.world, cfg, connection, session.value, current, now);
        RenewKeepsInv(entered.world, cfg, connection, session.value, now);
      } else {
        EnterProfileKeepsInv(connected.world, cfg, connection, fallback, launch, false, now);
        var entered := EnterProfile(connected.world, cfg, connection, fallback, launch, false, now);
        if entered.answer.Ok? {
          RenewKeepsInv(entered.world, cfg, connection, entered.answer.value, now);
        }
      }
    }
  }

  lemma RenewKeepsInv(w: World, cfg: Config, connection: string, e: Entry, now: int)
    requires Inv(w) && connection in w.contexts && ActiveEntry(w, e)
    ensures GateSound(RenewOwned(w, cfg, connection, e, now))
  {
    LeaseStepsKeepInv(w, cfg, connection, e, now);
  }

  lemma CurrentForWriteKeepsInv(w: World, cfg: Config, connection: string, current: Option<Profile>, now: int)
    requires Inv(w) && connection in w.contexts
    ensures GateSound(CurrentForWrite(w, cfg, connection, current, now))
  {
    hide Inv, RequireProfile, Require;
    var session := CurrentSession(w, connection);
    if session.Some? {
      CurrentSessionActive(w, connection);
      RequireProfileKeepsInv(w, cfg, connection, session.value, current, now);
      var entered := RequireProfile(w, cfg, connection, session.value, current, now);
      LeaseStepsKeepInv(entered.world, cfg, connection, session.value, now);
    }
  }

  lemma ActGateKeepsInv(w: World, cfg: Config, connection: string, agent: string, current: Option<Profile>, target: Id, now: int)
    requires Inv(w)
    ensures GateSound(ActGate(w, cfg, connection, agent, current, target, now))
  {
    ConnectKeepsInv(w, cfg, connection, agent, now);
    var connected := ConnectWorld(w, cfg, connection, agent, now);
    if connected.answer.Ok? {
      CurrentForWriteKeepsInv(connected.world, cfg, connection, current, now);
    }
  }

  lemma SwitchGateKeepsInv(w: World, cfg: Config, connection: string, agent: string, tab: Id, profile: Option<Profile>, now: int)
    requires Inv(w)
    ensures GateSound(SwitchGate(w, cfg, connection, agent, tab, profile, now))
  {
    ConnectKeepsInv(w, cfg, connection, agent, now);
    var connected := ConnectWorld(w, cfg, connection, agent, now);
    if connected.answer.Ok? {
      CurrentForWriteKeepsInv(connected.world, cfg, connection, profile, now);
      var route := Get(connected.world.tabs.byPublic, tab);
      if route.Some? {
        EnterRouteKeepsInv(connected.world, cfg, connection, route.value, profile, now);
      }
    }
  }

  lemma EnterRouteKeepsInv(w: World, cfg: Config, connection: string, r: Route, routed: Option<Profile>, now: int)
    requires Inv(w) && connection in w.contexts
    ensures GateSound(EnterRoute(w, cfg, connection, r, routed, now))
  {
    hide Inv, RequireProfile, EnterSession;
    var session := Get(w.sessions.entries, r.session);
    if session.Some? {
      ActiveEntryNamed(w, Entry(r.session, 0, session.value.profile));
      RequireProfileKeepsInv(w, cfg, connection, session.value, routed, now);
      var entered := RequireProfile(w, cfg, connection, session.value, routed, now);
      EnterSessionKeepsInv(entered.world, cfg, connection, session.value, true, now);
    }
  }

  // ---------------------------------------------------------------------------
  // Serving
  // ---------------------------------------------------------------------------

  lemma PublishedActive(entries: Entries, t: Table, kind: RouteKind, session: nat, profile: string, generation: nat, ids: set<Id>)
    requires Inverse(t, kind) && RoutesActive(entries, t)
    ensures Inverse(Published(t, kind, session, profile, generation, ids), kind)
    ensures LeadsTo(entries, (session, generation, BLANK)) ==> RoutesActive(entries, Published(t, kind, session, profile, generation, ids))
  {
    var u := Published(t, kind, session, profile, generation, ids);
    PublishedBoundAll(t, kind, session, profile, generation, ids);
    if LeadsTo(entries, (session, generation, BLANK)) {
      forall k | k in u.byLocal ensures LeadsTo(entries, k) {
        assert BoundEntry(t, u, kind, session, profile, generation, ids, k);
      }
    }
  }

  lemma PublishedStale(entries: Entries, t: Table, kind: RouteKind, session: nat, profile: string, generation: nat, ids: set<Id>)
    requires Inverse(t, kind) && RoutesActive(entries, t) && session !in entries
    ensures RoutesActive(entries, Published(t, kind, session, profile, generation, ids)) <==> ids - {BLANK} == {}
  {
    var u := Published(t, kind, session, profile, generation, ids);
    PublishedBoundAll(t, kind, session, profile, generation, ids);
    if ids - {BLANK} == {} {
      forall k | k in u.byLocal ensures LeadsTo(entries, k) {
        assert BoundEntry(t, u, kind, session, profile, generation, ids, k);
        assert k.2 !in ids - {BLANK};
      }
    } else {
      var id :| id in ids - {BLANK};
      assert BoundEntry(t, u, kind, session, profile, generation, ids, (session, generation, id));
      assert !LeadsTo(entries, (session, generation, id));
    }
  }

  lemma BindTabsKeepsInv(w: World, e: Entry, listing: Listing)
    requires Inv(w) && ActiveEntry(w, e)
    ensures Inv(BindTabs(w, e, listing))
    ensures RoutesActive(w.sessions.entries, w.objects) ==>
      RoutesActive(BindTabs(w, e, listing).sessions.entries, BindTabs(w, e, listing).objects)
  {
    FinalizeKeepsInv(w, e.session);
    if listing.Listed? {
      PublishedActive(w.sessions.entries, w.tabs, TabId, e.session, e.profile.id, e.generation, listing.tabs);
    }
  }

  lemma ProjectKeepsInv(w: World, e: Entry, state: WebState, target: Option<Id>, now: int)
    requires Inv(w)
    ensures Inv(Project(w, e, state, target, now))
  {
    PublishedBoundAll(w.objects, ObjectId, state.session, e.profile.id, e.generation, ReplyIds(state, target));
    DropKeepsBound(w.sessions.entries, w.leases, e.session, now);
  }

  lemma ServeKeepsInv(w: World, e: Entry, reply: Reply, listing: Option<Listing>, now: int)
    requires Inv(w) && ActiveEntry(w, e)
    ensures Inv(Serve(w, e, reply, listing, now))
  {
    FinalizeKeepsInv(w, e.session);
    if reply.Returned? {
      if listing.Some? {
        BindTabsKeepsInv(w, e, listing.value);
        ProjectKeepsInv(BindTabs(w, e, listing.value), e, reply.state, reply.target, now);
      } else {
        ProjectKeepsInv(w, e, reply.state, reply.target, now);
      }
    }
  }

  /** The session's host died while its tabs were listed, after the operation had returned a
      state with something to publish. */
  predicate DiesWhileListing(reply: Reply, listing: Option<Listing>) {
    reply.Returned? && listing == Some(ListCrashed) && ReplyIds(reply.state, reply.target) - {BLANK} != {}
  }

  /** Object routes keep naming active sessions exactly when no call is answered for a session
      that died while its tabs were listed: there the state is still published, for a session
      already finalized. */
  lemma ObjectRoutesActiveExactly(w: World, e: Entry, reply: Reply, listing: Option<Listing>, now: int)
    requires Inv(w) && ActiveEntry(w, e) && RoutesActive(w.sessions.entries, w.objects)
    requires reply.Returned? ==> reply.state.session == e.session
    ensures var w' := Serve(w, e, reply, listing, now);
      RoutesActive(w'.sessions.entries, w'.objects) <==> !DiesWhileListing(reply, listing)
  {
    hide Inverse, RoutesActive, Published, Finalize, SessionsValid, LocksExact, LeasesBound, ContextsBound;
    FinalizeKeepsInv(w, e.session);
    FinalizedKeys(w, e.session);
    if reply.Returned? {
      var mid := if listing.Some? then BindTabs(w, e, listing.value) else w;
      if listing.Some? {
        BindTabsKeepsInv(w, e, listing.value);
      }
      var ids := ReplyIds(reply.state, reply.target);
      PublishedActive(mid.sessions.entries, mid.objects, ObjectId, e.session, e.profile.id, e.generation, ids);
      if listing == Some(ListCrashed) {
        PublishedStale(mid.sessions.entries, mid.objects, ObjectId, e.session, e.profile.id, e.generation, ids);
      }
    }
  }

  // ---------------------------------------------------------------------------
  // Listing the tabs of a connection
  // ---------------------------------------------------------------------------

  lemma TabsGateKeepsInv(w: World, cfg: Config, connection: string, agent: string, fallback: Option<Profile>, launch: Launch, now: int)
    requires Inv(w)
    ensures var o := TabsGate(w, cfg, connection, agent, fallback, launch, now);
      Inv(o.world) && (o.answer.Ok? ==> connection in o.world.contexts)
  {
    hide Inv, ConnectWorld, EnterProfile;
    ConnectKeepsInv(w, cfg, connection, agent, now);
    var connected := ConnectWorld(w, cfg, connection, agent, now);
    if connected.answer.Ok? {
      EnterProfileKeepsInv(connected.world, cfg, connection, fallback, launch, true, now);
    }
  }

  lemma VisitKeepsInv(w: World, cfg: Config, connection: string, session: nat, p: Option<Profile>, listing: Listing, now: int)
    requires Inv(w) && connection in w.contexts
    ensures var o := VisitTabs(w, cfg, connection, session, p, listing, now);
      && Inv(o.world)
      && (RoutesActive(w.sessions.entries, w.objects) ==> RoutesActive(o.world.sessions.entries, o.world.objects))
  {
    hide Inv, RoutesActive, RequireGrant, RenewIfOwned, RenewError, BindTabs;
    var entry := Get(w.sessions.entries, session);
    if entry.Some? {
      ActiveEntryNamed(w, Entry(session, 0, entry.value.profile));
      RequireProfileKeepsInv(w, cfg, connection, entry.value, p, now);
      var entered := RequireProfile(w, cfg, connection, entry.value, p, now);
      if entered.answer.Ok? {
        RenewKeepsInv(entered.world, cfg, connection, entry.value, now);
        var renewed := RenewOwned(entered.world, cfg, connection, entry.value, now);
        if renewed.answer.Ok? {
          BindTabsKeepsInv(renewed.world, entry.value, listing);
        }
      }
    }
  }

  lemma ReleaseKeepsInv(w: World, connection: string)
    requires Inv(w)
    ensures Inv(ReleaseConnection(w, connection))
  {
    var w' := ReleaseConnection(w, connection);
    forall c | c in w'.contexts ensures ContextBound(w.sessions.entries, w'.contexts[c]) {
      assert ContextBound(w.sessions.entries, w.contexts[c]);
    }
  }
}
