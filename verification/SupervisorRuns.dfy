/** Whole runs of the supervisor: consistency in every reachable state, and write exclusion. */
module SupervisorRuns {
  import opened Prelude
  import opened WebObjects
  import opened Routes
  import opened SessionManager
  import opened SessionRouting
  import opened SupervisorModel
  import opened SupervisorInvariant

  /** A call's gate and its service are separate moves, so calls may overlap in any way as long
      as the session served is still active; get_tabs is its gate and a move for each session it
      visits. */
  datatype Move =
    | Open(connection: string, agent: string, profile: Option<Profile>, launch: Launch)
    | Observe(connection: string, agent: string, profile: Option<Profile>, fallback: Option<Profile>, launch: Launch, ids: seq<Id>)
    | Act(connection: string, agent: string, profile: Option<Profile>, target: Id)
    | Switch(connection: string, agent: string, tab: Id, profile: Option<Profile>)
    | Served(entry: Entry, reply: Reply, listing: Option<Listing>)
    | Released(connection: string)
    | Ended(session: nat)
    | Closed
    | Controlled(owner: Profile, launch: Launch)
    | Peeked(session: nat)
    | Facade(connection: string, agent: string, profile: Option<Profile>, launch: Launch)
    | Tabs(connection: string, agent: string, profile: Option<Profile>, launch: Launch)
    | Visited(connection: string, session: nat, profile: Option<Profile>, tabs: Listing)

  /** The gate of a writing call. */
  function WriteGate(w: World, cfg: Config, m: Move, now: int): Outcome<Entry>
    requires m.Open? || m.Act? || m.Switch?
  {
    match m
    case Open(connection, agent, p, launch) => EnterGate(w, cfg, connection, agent, p, launch, true, now)
    case Act(connection, agent, p, target) => ActGate(w, cfg, connection, agent, p, target, now)
    case Switch(connection, agent, tab, p) => SwitchGate(w, cfg, connection, agent, tab, p, now)
  }

  function Step(w: World, cfg: Config, m: Move, now: int): World {
    match m
    case Observe(connection, agent, p, fallback, launch, ids) =>
      ObserveGate(w, cfg, connection, agent, p, fallback, launch, ids, now).world
    case Served(e, reply, listing) => Serve(w, e, reply, listing, now)
    case Released(connection) => ReleaseConnection(w, connection)
    case Ended(session) => Finalize(w, session)
    case Closed => CloseAll(w)
    case Controlled(p, launch) => EnsureSession(w, p, launch).world
    case Peeked(session) => w.(leases := DropExpired(w.leases, session, now))
    case Facade(connection, agent, p, launch) => EnterGate(w, cfg, connection, agent, p, launch, false, now).world
    case Tabs(connection, agent, p, launch) => TabsGate(w, cfg, connection, agent, p, launch, now).world
    case Visited(connection, session, p, tabs) =>
      if connection in w.contexts then VisitTabs(w, cfg, connection, session, p, tabs, now).world else w
    case _ => WriteGate(w, cfg, m, now).world
  }

  predicate Allowed(w: World, m: Move) {
    m.Served? ==> ActiveEntry(w, m.entry) && (m.reply.Returned? ==> m.reply.state.session == m.entry.session)
  }

  ghost predicate Run(cfg: Config, worlds: seq<World>, moves: seq<Move>, times: seq<int>) {
    && |worlds| == |moves| + 1 && |times| == |moves| && worlds[0] == START && cfg.leaseTtl > 0
    && (forall i :: 0 <= i < |moves| ==> Allowed(worlds[i], moves[i]) && worlds[i + 1] == Step(worlds[i], cfg, moves[i], times[i]))
    && (forall i, j :: 0 <= i <= j < |times| ==> times[i] <= times[j])
  }

  // ---------------------------------------------------------------------------
  // Consistency in every reachable state
  // ---------------------------------------------------------------------------

  lemma WriteGateKeepsInv(w: World, cfg: Config, m: Move, now: int)
    requires Inv(w) && (m.Open? || m.Act? || m.Switch?)
    ensures GateSound(WriteGate(w, cfg, m, now))
  {
    hide Inv, EnterGate, ActGate, SwitchGate;
    match m
    case Open(connection, agent, p, launch) => EnterGateKeepsInv(w, cfg, connection, agent, p, launch, true, now);
    case Act(connection, agent, p, target) => ActGateKeepsInv(w, cfg, connection, agent, p, target, now);
    case Switch(connection, agent, tab, p) => SwitchGateKeepsInv(w, cfg, connection, agent, tab, p, now);
  }

  lemma PeekKeepsInv(w: World, session: nat, now: int)
    requires Inv(w)
    ensures Inv(w.(leases := DropExpired(w.leases, session, now)))
  {
    DropKeepsBound(w.sessions.entries, w.leases, session, now);
  }

  lemma StepKeepsInv(w: World, cfg: Config, m: Move, now: int)
    requires Inv(w) && Allowed(w, m)
    ensures Inv(Step(w, cfg, m, now))
  {
    hide Inv, WriteGate, ObserveGate, EnterGate, TabsGate, VisitTabs, Serve, ReleaseConnection, Finalize, CloseAll,
      EnsureSession, DropExpired;
    match m
    case Observe(connection, agent, p, fallback, launch, ids) =>
      ObserveGateKeepsInv(w, cfg, connection, agent, p, fallback, launch, ids, now);
    case Served(e, reply, listing) => ServeKeepsInv(w, e, reply, listing, now);
    case Released(connection) => ReleaseKeepsInv(w, connection);
    case Ended(session) => FinalizeKeepsInv(w, session);
    case Closed => CloseAllReleasesEverything(w);
    case Controlled(p, launch) => EnsureKeepsInv(w, p, launch);
    case Peeked(session) => PeekKeepsInv(w, session, now);
    case Facade(connection, agent, p, launch) => EnterGateKeepsInv(w, cfg, connection, agent, p, launch, false, now);
    case Tabs(connection, agent, p, launch) => TabsGateKeepsInv(w, cfg, connection, agent, p, launch, now);
    case Visited(connection, session, p, tabs) =>
      if connection in w.contexts {
        VisitKeepsInv(w, cfg, connection, session, p, tabs, now);
      }
    case Open(_, _, _, _) => WriteGateKeepsInv(w, cfg, m, now);
    case Act(_, _, _, _) => WriteGateKeepsInv(w, cfg, m, now);
    case Switch(_, _, _, _) => WriteGateKeepsInv(w, cfg, m, now);
  }

  /** In every reachable state sessions and profiles are in bijection, the default session is
      set exactly while one is active and is one of them, the lock of every active session is held
      and every other was released once, and every lease, connection binding and tab route names
      an active session. */
  lemma {:induction false} SupervisorConsistent(cfg: Config, worlds: seq<World>, moves: seq<Move>, times: seq<int>, n: nat)
    requires Run(cfg, worlds, moves, times) && n < |worlds|
    ensures Inv(worlds[n])
  {
    hide Inv, Step;
    if n == 0 {
      StartInv();
    } else {
      SupervisorConsistent(cfg, worlds, moves, times, n - 1);
      StepKeepsInv(worlds[n - 1], cfg, moves[n - 1], times[n - 1]);
    }
  }

  // ---------------------------------------------------------------------------
  // How leases and sessions may change
  // ---------------------------------------------------------------------------

  predicate SameLease(a: Lease, b: Lease) {
    a.leaseId == b.leaseId && a.claim == b.claim && a.granted == b.granted
  }

  /** The lease of session `s` is still there; it may have been renewed at `now`. */
  predicate Continues(w: World, w': World, s: nat, ttl: nat, now: int)
    requires s in w.leases.held
  {
    && s in w'.leases.held && SameLease(w.leases.held[s], w'.leases.held[s])
    && (w'.leases.held[s].expires == w.leases.held[s].expires || w'.leases.held[s].expires == now + ttl)
  }

  /** The lease of session `s` is gone, for one of the three reasons there are. */
  predicate Ends(w: World, w': World, s: nat, now: int, released: Option<string>)
    requires s in w.leases.held
  {
    var lease := w.leases.held[s];
    && (s in w'.leases.held ==> w'.leases.held[s].leaseId != lease.leaseId)
    && (lease.expires <= now || s !in w'.sessions.entries || released == Some(lease.claim.connection))
  }

  /** A lease that was there before, or one never issued before that runs its full time from now. */
  predicate Known(w: World, w': World, s: nat, ttl: nat, now: int)
    requires s in w'.leases.held
  {
    || (s in w.leases.held && SameLease(w.leases.held[s], w'.leases.held[s]))
    || (w.leases.issued <= w'.leases.held[s].leaseId < w'.leases.issued && w'.leases.held[s].expires == now + ttl)
  }

  ghost predicate LeasesEvolve(w: World, w': World, ttl: nat, now: int, released: Option<string>) {
    && w.leases.issued <= w'.leases.issued
    && (forall s :: s in w.leases.held ==> Continues(w, w', s, ttl, now) || Ends(w, w', s, now, released))
    && (forall s :: s in w'.leases.held ==> Known(w, w', s, ttl, now))
  }

  ghost predicate SessionsEvolve(w: World, w': World) {
    && w.issued <= w'.issued
    && forall s :: s in w'.sessions.entries ==> s in w.sessions.entries || w.issued <= s
  }

  ghost predicate Evolves(w: World, w': World, ttl: nat, now: int, released: Option<string>) {
    LeasesEvolve(w, w', ttl, now, released) && SessionsEvolve(w, w')
  }

  /** Every lease id was issued, every active session too. */
  ghost predicate Issued(w: World) {
    && (forall s :: s in w.leases.held ==> s in w.sessions.entries && w.leases.held[s].leaseId < w.leases.issued)
    && (forall s :: s in w.sessions.entries ==> s < w.issued)
  }

  lemma InvIssued(w: World)
    requires Inv(w)
    ensures Issued(w)
  {
  }

  lemma LeaseFollows(a: World, b: World, c: World, ttl: nat, now: int, released: Option<string>, s: nat)
    requires ttl > 0 && Issued(a) && Evolves(a, b, ttl, now, released) && Evolves(b, c, ttl, now, released)
    requires s in a.leases.held
    ensures Continues(a, c, s, ttl, now) || Ends(a, c, s, now, released)
  {
    if Continues(a, b, s, ttl, now) {
      assert Continues(b, c, s, ttl, now) || Ends(b, c, s, now, released);
    } else {
      assert Ends(a, b, s, now, released);
      assert s in c.leases.held ==> Known(b, c, s, ttl, now);
    }
  }

  lemma EvolvesTwice(a: World, b: World, c: World, ttl: nat, now: int, released: Option<string>)
    requires ttl > 0 && Issued(a) && Evolves(a, b, ttl, now, released) && Evolves(b, c, ttl, now, released)
    ensures Evolves(a, c, ttl, now, released)
  {
    forall s | s in a.leases.held ensures Continues(a, c, s, ttl, now) || Ends(a, c, s, now, released) {
      LeaseFollows(a, b, c, ttl, now, released, s);
    }
    forall s | s in c.leases.held ensures Known(a, c, s, ttl, now) {
      assert Known(b, c, s, ttl, now);
      assert s in b.leases.held ==> Known(a, b, s, ttl, now) && (Continues(b, c, s, ttl, now) || Ends(b, c, s, now, released));
    }
  }

  /** Neither leases nor sessions changed. */
  predicate Untouched(w: World, w': World) {
    w'.leases == w.leases && w'.sessions == w.sessions && w'.issued == w.issued
  }

  lemma UntouchedEvolves(w: World, w': World, ttl: nat, now: int, released: Option<string>)
    requires Untouched(w, w')
    ensures Evolves(w, w', ttl, now, released)
  {
  }

  lemma DropEvolves(w: World, session: nat, ttl: nat, now: int)
    ensures Evolves(w, w.(leases := DropExpired(w.leases, session, now)), ttl, now, None)
  {
  }

  lemma RenewEvolves(w: World, session: nat, ttl: nat, now: int)
    requires session in w.leases.held
    ensures Evolves(w, w.(leases := Renew(w.leases, session, ttl, now)), ttl, now, None)
  {
  }

  lemma IssueEvolves(w: World, lease: Lease, ttl: nat, now: int)
    requires lease.claim.session !in w.leases.held && lease.leaseId == w.leases.issued && lease.expires == now + ttl
    ensures Evolves(w, w.(leases := Leases(w.leases.held[lease.claim.session := lease], w.leases.issued + 1)), ttl, now, None)
  {
  }

  lemma DropIssued(w: World, session: nat, now: int)
    requires Issued(w)
    ensures Issued(w.(leases := DropExpired(w.leases, session, now)))
  {
  }

  /** The three ways a call touches the lease of its session. */
  lemma LeaseCallEvolves(w: World, claim: Claim, ttl: nat, now: int)
    requires Issued(w) && ttl > 0
    ensures Evolves(w, w.(leases := Acquire(w.leases, claim, ttl, now)), ttl, now, None)
    ensures Evolves(w, w.(leases := Require(w.leases, claim, ttl, now)), ttl, now, None)
    ensures Evolves(w, w.(leases := RenewIfOwned(w.leases, claim, ttl, now)), ttl, now, None)
  {
    hide Evolves, Issued, DropExpired, Renew;
    var live := w.(leases := DropExpired(w.leases, claim.session, now));
    DropEvolves(w, claim.session, ttl, now);
    DropIssued(w, claim.session, now);
    if claim.session in live.leases.held {
      RenewEvolves(live, claim.session, ttl, now);
      EvolvesTwice(w, live, live.(leases := Renew(live.leases, claim.session, ttl, now)), ttl, now, None);
    } else {
      var lease := Lease(live.leases.issued, claim, now, now + ttl);
      IssueEvolves(live, lease, ttl, now);
      EvolvesTwice(w, live, live.(leases := Leases(live.leases.held[claim.session := lease], live.leases.issued + 1)), ttl, now, None);
    }
  }

  lemma EnsureEvolves(w: World, p: Profile, launch: Launch, ttl: nat, now: int)
    requires Issued(w)
    ensures Evolves(w, EnsureSession(w, p, launch).world, ttl, now, None)
  {
    hide ByProfile, Addable;
  }

  lemma FinalizeEvolves(w: World, session: nat, ttl: nat, now: int)
    ensures Evolves(w, Finalize(w, session), ttl, now, None)
  {
    hide UnbindAll, Invalidate, Dropped;
  }

  lemma {:induction false} FinalizeAllEvolves(w: World, sessions: seq<nat>, ttl: nat, now: int)
    requires Inv(w) && ttl > 0
    ensures Evolves(w, FinalizeAll(w, sessions), ttl, now, None)
  {
    hide Evolves, Inv, Finalize, Issued, Untouched;
    if sessions == [] {
      assert Untouched(w, w) by { SelfUntouched(w); }
      UntouchedEvolves(w, w, ttl, now, None);
    } else {
      var n := |sessions| - 1;
      FinalizeAllEvolves(w, sessions[..n], ttl, now);
      FinalizeEvolves(FinalizeAll(w, sessions[..n]), sessions[n], ttl, now);
      InvIssued(w);
      EvolvesTwice(w, FinalizeAll(w, sessions[..n]), FinalizeAll(w, sessions), ttl, now, None);
    }
  }

  lemma SelfUntouched(w: World)
    ensures Untouched(w, w)
  {
  }

  lemma ReleaseEvolves(w: World, connection: string, ttl: nat, now: int)
    ensures Evolves(w, ReleaseConnection(w, connection), ttl, now, Some(connection))
  {
  }

  // ---------------------------------------------------------------------------
  // Gates
  // ---------------------------------------------------------------------------

  /** A gate evolves the world, and when it lets a writer through the writer's lease is running. */
  ghost predicate Gated(w: World, o: Outcome<Entry>, cfg: Config, connection: string, write: bool, now: int) {
    && Evolves(w, o.world, cfg.leaseTtl, now, None)
    && (write && o.answer.Ok? ==> Holds(o.world, connection, o.answer.value, cfg.leaseTtl, now))
  }

  /** The connection holds the session's lease, granted or renewed just now. */
  predicate Holds(w: World, connection: string, e: Entry, ttl: nat, now: int) {
    && e.session in w.leases.held
    && var lease := w.leases.held[e.session];
       lease.claim.connection == connection && Names(e, lease.claim) && lease.expires == now + ttl
  }

  lemma AcquireGated(w: World, cfg: Config, connection: string, e: Entry, now: int)
    requires Inv(w) && connection in w.contexts && ActiveEntry(w, e) && cfg.leaseTtl > 0
    ensures Gated(w, AcquireWrite(w, cfg, connection, e, now), cfg, connection, true, now)
    ensures Gated(w, RequireWrite(w, cfg, connection, e, now), cfg, connection, true, now)
    ensures Gated(w, RenewOwned(w, cfg, connection, e, now), cfg, connection, false, now)
  {
    InvIssued(w);
    ActiveEntryNamed(w, e);
    hide Evolves, Inv, Issued;
    LeaseCallEvolves(w, ClaimOf(w, connection, e), cfg.leaseTtl, now);
  }

  lemma GatedAfter(a: World, b: World, o: Outcome<Entry>, cfg: Config, connection: string, write: bool, now: int)
    requires Inv(a) && cfg.leaseTtl > 0
    requires Evolves(a, b, cfg.leaseTtl, now, None) && Gated(b, o, cfg, connection, write, now)
    ensures Gated(a, o, cfg, connection, write, now)
  {
    InvIssued(a);
    hide Evolves, Inv, Issued;
    EvolvesTwice(a, b, o.world, cfg.leaseTtl, now, None);
  }

  lemma GatedAfterUntouched(a: World, b: World, o: Outcome<Entry>, cfg: Config, connection: string, write: bool, now: int)
    requires Inv(a) && cfg.leaseTtl > 0
    requires Untouched(a, b) && Gated(b, o, cfg, connection, write, now)
    ensures Gated(a, o, cfg, connection, write, now)
  {
    hide Evolves, Inv, Issued, Gated;
    UntouchedEvolves(a, b, cfg.leaseTtl, now, None);
    GatedAfter(a, b, o, cfg, connection, write, now);
  }

  lemma RefusedGated(w: World, o: Outcome<Entry>, cfg: Config, connection: string, write: bool, now: int)
    requires Untouched(w, o.world) && (write ==> o.answer.Err?)
    ensures Gated(w, o, cfg, connection, write, now)
  {
    UntouchedEvolves(w, o.world, cfg.leaseTtl, now, None);
  }

  lemma EnterSessionGated(w: World, cfg: Config, connection: string, e: Entry, write: bool, now: int)
    requires Inv(w) && connection in w.contexts && ActiveEntry(w, e) && cfg.leaseTtl > 0
    ensures Gated(w, EnterSession(w, cfg, connection, e, write, now), cfg, connection, write, now)
  {
    hide Inv, Evolves, Issued, Acquire, AcquireError, Holds;
    var o := EnterSession(w, cfg, connection, e, write, now);
    if !write {
      RefusedGated(w, o, cfg, connection, false, now);
    } else {
      AcquireGated(w, cfg, connection, e, now);
      var acquired := AcquireWrite(w, cfg, connection, e, now);
      LeaseStepsKeepInv(w, cfg, connection, e, now);
      if acquired.answer.Ok? {
        BoundStillGated(w, acquired, o, cfg, connection, now);
      }
    }
  }

  lemma BoundStillGated(w: World, a: Outcome<Entry>, o: Outcome<Entry>, cfg: Config, connection: string, now: int)
    requires Inv(w) && cfg.leaseTtl > 0 && Gated(w, a, cfg, connection, true, now)
    requires Untouched(a.world, o.world) && a.answer == o.answer
    ensures Gated(w, o, cfg, connection, true, now)
  {
    InvIssued(w);
    UntouchedEvolves(a.world, o.world, cfg.leaseTtl, now, None);
    hide Evolves, Inv, Issued;
    EvolvesTwice(w, a.world, o.world, cfg.leaseTtl, now, None);
  }

  lemma EnterProfileGated(w: World, cfg: Config, connection: string, p: Option<Profile>, launch: Launch, write: bool, now: int)
    requires Inv(w) && connection in w.contexts && cfg.leaseTtl > 0
    ensures Gated(w, EnterProfile(w, cfg, connection, p, launch, write, now), cfg, connection, write, now)
  {
    hide Inv, Evolves, Issued, EnsureSession, EnterSession, Gated;
    var o := EnterProfile(w, cfg, connection, p, launch, write, now);
    if p.None? {
      RefusedGated(w, o, cfg, connection, write, now);
    } else {
      GrantKeepsInv(w, cfg, connection, p.value, now);
      var granted := GrantProfile(w, cfg, connection, p.value, now);
      if granted.answer.Err? {
        RefusedGated(w, o, cfg, connection, write, now);
      } else {
        GrantedGated(granted.world, cfg, connection, p.value, launch, write, now);
        GatedAfterUntouched(w, granted.world, o, cfg, connection, write, now);
      }
    }
  }

  lemma GrantedGated(w: World, cfg: Config, connection: string, p: Profile, launch: Launch, write: bool, now: int)
    requires Inv(w) && connection in w.contexts && cfg.leaseTtl > 0
    ensures var ensured := EnsureSession(w, p, launch);
      && (ensured.answer.Err? ==> Gated(w, ensured, cfg, connection, write, now))
      && (ensured.answer.Ok? ==>
           && connection in ensured.world.contexts
           && Gated(w, EnterSession(ensured.world, cfg, connection, ensured.answer.value, write, now), cfg, connection, write, now))
  {
    InvIssued(w);
    EnsureKeepsInv(w, p, launch);
    EnsureEvolves(w, p, launch, cfg.leaseTtl, now);
    hide Inv, Evolves, Issued, EnsureSession, EnterSession;
    var ensured := EnsureSession(w, p, launch);
    if ensured.answer.Ok? {
      EnterSessionGated(ensured.world, cfg, connection, ensured.answer.value, write, now);
      GatedAfter(w, ensured.world, EnterSession(ensured.world, cfg, connection, ensured.answer.value, write, now),
                 cfg, connection, write, now);
    }
  }

  lemma CurrentForWriteGated(w: World, cfg: Config, connection: string, p: Option<Profile>, now: int)
    requires Inv(w) && connection in w.contexts && cfg.leaseTtl > 0
    ensures Gated(w, CurrentForWrite(w, cfg, connection, p, now), cfg, connection, true, now)
  {
    hide Inv, Evolves, Issued, Require, RequireError, RequireGrant, Gated;
    var o := CurrentForWrite(w, cfg, connection, p, now);
    var session := CurrentSession(w, connection);
    if session.None? {
      RefusedGated(w, o, cfg, connection, true, now);
    } else {
      CurrentSessionActive(w, connection);
      RequireProfileKeepsInv(w, cfg, connection, session.value, p, now);
      var entered := RequireProfile(w, cfg, connection, session.value, p, now);
      if entered.answer.Err? {
        RefusedGated(w, o, cfg, connection, true, now);
      } else {
        AcquireGated(entered.world, cfg, connection, session.value, now);
        GatedAfterUntouched(w, entered.world, o, cfg, connection, true, now);
      }
    }
  }

  lemma EnterRouteGated(w: World, cfg: Config, connection: string, r: Route, p: Option<Profile>, now: int)
    requires Inv(w) && connection in w.contexts && cfg.leaseTtl > 0
    ensures Gated(w, EnterRoute(w, cfg, connection, r, p, now), cfg, connection, true, now)
  {
    hide Inv, Evolves, Issued, EnterSession, RequireGrant, Gated;
    var o := EnterRoute(w, cfg, connection, r, p, now);
    var session := Get(w.sessions.entries, r.session);
    if session.None? || session.value.generation != r.generation {
      RefusedGated(w, o, cfg, connection, true, now);
    } else {
      ActiveEntryNamed(w, Entry(r.session, 0, session.value.profile));
      RequireProfileKeepsInv(w, cfg, connection, session.value, p, now);
      var entered := RequireProfile(w, cfg, connection, session.value, p, now);
      if entered.answer.Err? {
        RefusedGated(w, o, cfg, connection, true, now);
      } else {
        EnterSessionGated(entered.world, cfg, connection, session.value, true, now);
        GatedAfterUntouched(w, entered.world, o, cfg, connection, true, now);
      }
    }
  }

  lemma LocalizedGated(w: World, o: Outcome<Entry>, ids: seq<Id>, cfg: Config, connection: string, write: bool, now: int)
    requires Gated(w, o, cfg, connection, write, now)
    ensures Gated(w, Localized(o, ids), cfg, connection, write, now)
  {
    hide Evolves;
  }

  /** A gate that starts by connecting: refused there, or gated from the connected world on. */
  lemma ConnectedGated(w: World, cfg: Config, connection: string, agent: string, o: Outcome<Entry>, write: bool, now: int)
    requires Inv(w) && cfg.leaseTtl > 0
    requires var connected := ConnectWorld(w, cfg, connection, agent, now);
      if connected.answer.Err? then o == Outcome(connected.world, Err(connected.answer.error))
      else Gated(connected.world, o, cfg, connection, write, now)
    ensures Gated(w, o, cfg, connection, write, now)
  {
    hide Inv, Evolves, Gated, Connect;
    var connected := ConnectWorld(w, cfg, connection, agent, now);
    if connected.answer.Err? {
      RefusedGated(w, o, cfg, connection, write, now);
    } else {
      GatedAfterUntouched(w, connected.world, o, cfg, connection, write, now);
    }
  }

  lemma EnterGated(w: World, cfg: Config, connection: string, agent: string, p: Option<Profile>, launch: Launch, write: bool, now: int)
    requires Inv(w) && cfg.leaseTtl > 0
    ensures Gated(w, EnterGate(w, cfg, connection, agent, p, launch, write, now), cfg, connection, write, now)
  {
    hide Inv, Gated, EnterProfile, ConnectWorld;
    ConnectKeepsInv(w, cfg, connection, agent, now);
    var connected := ConnectWorld(w, cfg, connection, agent, now);
    if connected.answer.Ok? {
      EnterProfileGated(connected.world, cfg, connection, p, launch, write, now);
    }
    ConnectedGated(w, cfg, connection, agent, EnterGate(w, cfg, connection, agent, p, launch, write, now), write, now);
  }

  lemma ActGated(w: World, cfg: Config, connection: string, agent: string, p: Option<Profile>, target: Id, now: int)
    requires Inv(w) && cfg.leaseTtl > 0
    ensures Gated(w, ActGate(w, cfg, connection, agent, p, target, now), cfg, connection, true, now)
  {
    hide Inv, Gated, CurrentForWrite, Localized, ConnectWorld;
    ConnectKeepsInv(w, cfg, connection, agent, now);
    var connected := ConnectWorld(w, cfg, connection, agent, now);
    if connected.answer.Ok? {
      CurrentForWriteGated(connected.world, cfg, connection, p, now);
      LocalizedGated(connected.world, CurrentForWrite(connected.world, cfg, connection, p, now), [target], cfg, connection, true, now);
    }
    ConnectedGated(w, cfg, connection, agent, ActGate(w, cfg, connection, agent, p, target, now), true, now);
  }

  lemma SwitchGated(w: World, cfg: Config, connection: string, agent: string, tab: Id, p: Option<Profile>, now: int)
    requires Inv(w) && cfg.leaseTtl > 0
    ensures Gated(w, SwitchGate(w, cfg, connection, agent, tab, p, now), cfg, connection, true, now)
  {
    hide Inv, Gated, CurrentForWrite, EnterRoute, ConnectWorld;
    ConnectKeepsInv(w, cfg, connection, agent, now);
    var connected := ConnectWorld(w, cfg, connection, agent, now);
    if connected.answer.Ok? {
      CurrentForWriteGated(connected.world, cfg, connection, p, now);
      var route := Get(connected.world.tabs.byPublic, tab);
      if route.Some? {
        EnterRouteGated(connected.world, cfg, connection, route.value, p, now);
      }
    }
    ConnectedGated(w, cfg, connection, agent, SwitchGate(w, cfg, connection, agent, tab, p, now), true, now);
  }

  lemma WriteGateGated(w: World, cfg: Config, m: Move, now: int)
    requires Inv(w) && (m.Open? || m.Act? || m.Switch?) && cfg.leaseTtl > 0
    ensures Gated(w, WriteGate(w, cfg, m, now), cfg, m.connection, true, now)
  {
    hide Inv, Gated, EnterGate, ActGate, SwitchGate;
    match m
    case Open(connection, agent, p, launch) => EnterGated(w, cfg, connection, agent, p, launch, true, now);
    case Act(connection, agent, p, target) => ActGated(w, cfg, connection, agent, p, target, now);
    case Switch(connection, agent, tab, p) => SwitchGated(w, cfg, connection, agent, tab, p, now);
  }

  lemma ObserveGateGated(w: World, cfg: Config, connection: string, agent: string, p: Option<Profile>, fallback: Option<Profile>,
                         launch: Launch, ids: seq<Id>, now: int)
    requires Inv(w) && cfg.leaseTtl > 0
    ensures Gated(w, ObserveGate(w, cfg, connection, agent, p, fallback, launch, ids, now), cfg, connection, false, now)
  {
    hide Inv, Evolves, Issued, Gated, EnterProfile, RequireProfile, RenewOwned, Localized, Connect;
    ConnectKeepsInv(w, cfg, connection, agent, now);
    var connected := ConnectWorld(w, cfg, connection, agent, now);
    var o := ObserveGate(w, cfg, connection, agent, p, fallback, launch, ids, now);
    if connected.answer.Err? {
      RefusedGated(w, o, cfg, connection, false, now);
    } else {
      var c := connected.world;
      ObserveEntered(c, cfg, connection, p, fallback, launch, now);
      var session := CurrentSession(c, connection);
      var entered := if session.Some? then RequireProfile(c, cfg, connection, session.value, p, now)
        else EnterProfile(c, cfg, connection, fallback, launch, false, now);
      if entered.answer.Ok? {
        AcquireGated(entered.world, cfg, connection, entered.answer.value, now);
        LocalizedGated(entered.world, RenewOwned(entered.world, cfg, connection, entered.answer.value, now), ids,
                       cfg, connection, false, now);
        GatedEvolves(c, entered, cfg, connection, false, now);
        GatedAfter(c, entered.world, o, cfg, connection, false, now);
      }
      GatedAfterUntouched(w, c, o, cfg, connection, false, now);
    }
  }

  lemma GatedEvolves(w: World, o: Outcome<Entry>, cfg: Config, connection: string, write: bool, now: int)
    requires Gated(w, o, cfg, connection, write, now)
    ensures Evolves(w, o.world, cfg.leaseTtl, now, None)
  {
    hide Evolves;
  }

  lemma ObserveEntered(w: World, cfg: Config, connection: string, p: Option<Profile>, fallback: Option<Profile>, launch: Launch, now: int)
    requires Inv(w) && connection in w.contexts && cfg.leaseTtl > 0
    ensures var session := CurrentSession(w, connection);
      var entered := if session.Some? then RequireProfile(w, cfg, connection, session.value, p, now)
        else EnterProfile(w, cfg, connection, fallback, launch, false, now);
      && Gated(w, entered, cfg, connection, false, now) && Inv(entered.world) && connection in entered.world.contexts
      && (entered.answer.Ok? ==> ActiveEntry(entered.world, entered.answer.value))
  {
    hide Inv, Evolves, Issued, Gated, EnterProfile, RequireGrant;
    var session := CurrentSession(w, connection);
    if session.Some? {
      CurrentSessionActive(w, connection);
      RequireProfileKeepsInv(w, cfg, connection, session.value, p, now);
      RefusedGated(w, RequireProfile(w, cfg, connection, session.value, p, now), cfg, connection, false, now);
    } else {
      EnterProfileKeepsInv(w, cfg, connection, fallback, launch, false, now);
      EnterProfileGated(w, cfg, connection, fallback, launch, false, now);
    }
  }

  lemma BindTabsEvolves(w: World, e: Entry, listing: Listing, ttl: nat, now: int)
    ensures Evolves(w, BindTabs(w, e, listing), ttl, now, None)
  {
    hide Evolves, Finalize, Published;
    if listing.ListCrashed? {
      FinalizeEvolves(w, e.session, ttl, now);
    } else {
      UntouchedEvolves(w, BindTabs(w, e, listing), ttl, now, None);
    }
  }

  lemma ProjectEvolves(w: World, e: Entry, state: WebState, target: Option<Id>, ttl: nat, now: int)
    ensures Evolves(w, Project(w, e, state, target, now), ttl, now, None)
  {
    hide Published;
  }

  lemma ServeEvolves(w: World, e: Entry, reply: Reply, listing: Option<Listing>, ttl: nat, now: int)
    requires Inv(w) && ActiveEntry(w, e) && ttl > 0
    ensures Evolves(w, Serve(w, e, reply, listing, now), ttl, now, None)
  {
    InvIssued(w);
    hide Inv, Evolves, Issued, Finalize, Project, BindTabs;
    FinalizeEvolves(w, e.session, ttl, now);
    UntouchedEvolves(w, w, ttl, now, None);
    if reply.Returned? {
      var mid := w;
      if listing.Some? {
        mid := BindTabs(w, e, listing.value);
        BindTabsEvolves(w, e, listing.value, ttl, now);
      }
      ProjectEvolves(mid, e, reply.state, reply.target, ttl, now);
      EvolvesTwice(w, mid, Project(mid, e, reply.state, reply.target, now), ttl, now, None);
    }
  }

  /** get_tabs refused, without a session to enter, or after entering the default profile. */
  lemma TabsEvolves(w: World, cfg: Config, connection: string, agent: string, p: Option<Profile>, launch: Launch, now: int)
    requires Inv(w) && cfg.leaseTtl > 0
    ensures Evolves(w, TabsGate(w, cfg, connection, agent, p, launch, now).world, cfg.leaseTtl, now, None)
  {
    hide Inv, Evolves, Gated, EnterProfile, Connect;
    var connected := ConnectWorld(w, cfg, connection, agent, now);
    var entered := EnterGate(w, cfg, connection, agent, p, launch, true, now);
    UntouchedEvolves(w, connected.world, cfg.leaseTtl, now, None);
    EnterGated(w, cfg, connection, agent, p, launch, true, now);
    GatedEvolves(w, entered, cfg, connection, true, now);
  }

  /** Whoever enters a profile by way of get_tabs holds its session's lease. */
  lemma TabsEntererHolds(w: World, cfg: Config, connection: string, agent: string, p: Option<Profile>, launch: Launch, now: int)
    requires Inv(w) && cfg.leaseTtl > 0
    requires var connected := ConnectWorld(w, cfg, connection, agent, now);
      connected.answer.Ok? && connected.world.contexts[connection].leased == {}
    ensures var o := TabsGate(w, cfg, connection, agent, p, launch, now);
      o.answer.Ok? ==> exists e :: ActiveEntry(o.world, e) && Holds(o.world, connection, e, cfg.leaseTtl, now)
  {
    hide Inv, Evolves, Holds, EnterProfile, Connect;
    EnterGated(w, cfg, connection, agent, p, launch, true, now);
    EnterGateKeepsInv(w, cfg, connection, agent, p, launch, true, now);
    var entered := EnterGate(w, cfg, connection, agent, p, launch, true, now);
    if TabsGate(w, cfg, connection, agent, p, launch, now).answer.Ok? {
      assert Holds(entered.world, connection, entered.answer.value, cfg.leaseTtl, now);
    }
  }

  lemma RequiredEvolves(w: World, cfg: Config, connection: string, e: Entry, p: Option<Profile>, now: int)
    requires Inv(w) && cfg.leaseTtl > 0 && connection in w.contexts && ActiveEntry(w, e)
    ensures var entered := RequireProfile(w, cfg, connection, e, p, now);
      && Evolves(w, entered.world, cfg.leaseTtl, now, None)
      && Evolves(w, RenewOwned(entered.world, cfg, connection, e, now).world, cfg.leaseTtl, now, None)
  {
    hide Inv, Evolves, Issued, Gated, RequireGrant, RenewOwned;
    InvIssued(w);
    RequireProfileKeepsInv(w, cfg, connection, e, p, now);
    var entered := RequireProfile(w, cfg, connection, e, p, now);
    UntouchedEvolves(w, entered.world, cfg.leaseTtl, now, None);
    AcquireGated(entered.world, cfg, connection, e, now);
    var renewed := RenewOwned(entered.world, cfg, connection, e, now);
    GatedEvolves(entered.world, renewed, cfg, connection, false, now);
    EvolvesTwice(w, entered.world, renewed.world, cfg.leaseTtl, now, None);
  }

  lemma VisitEvolves(w: World, cfg: Config, connection: string, session: nat, p: Option<Profile>, listing: Listing, now: int)
    requires Inv(w) && cfg.leaseTtl > 0 && connection in w.contexts
    ensures Evolves(w, VisitTabs(w, cfg, connection, session, p, listing, now).world, cfg.leaseTtl, now, None)
  {
    hide Inv, Evolves, Issued, RequireProfile, RenewOwned, BindTabs;
    InvIssued(w);
    UntouchedEvolves(w, w, cfg.leaseTtl, now, None);
    var entry := Get(w.sessions.entries, session);
    if entry.Some? {
      var e := entry.value;
      ActiveEntryNamed(w, Entry(session, 0, e.profile));
      RequireProfileKeepsInv(w, cfg, connection, e, p, now);
      RequiredEvolves(w, cfg, connection, e, p, now);
      var renewed := RenewOwned(RequireProfile(w, cfg, connection, e, p, now).world, cfg, connection, e, now);
      BindTabsEvolves(renewed.world, e, listing, cfg.leaseTtl, now);
      EvolvesTwice(w, renewed.world, BindTabs(renewed.world, e, listing), cfg.leaseTtl, now, None);
    }
  }

  function ReleasedBy(m: Move): Option<string> {
    if m.Released? then Some(m.connection) else None
  }

  lemma StepEvolves(w: World, cfg: Config, m: Move, now: int)
    requires Inv(w) && Allowed(w, m) && cfg.leaseTtl > 0
    ensures Evolves(w, Step(w, cfg, m, now), cfg.leaseTtl, now, ReleasedBy(m))
  {
    hide Inv, Evolves, Issued, Finalize, FinalizeAll, EnsureSession, ReleaseConnection, ObserveGate, WriteGate, EnterGate,
      TabsGate, VisitTabs, Serve, Gated, DropExpired;
    InvIssued(w);
    match m
    case Observe(connection, agent, p, fallback, launch, ids) =>
      ObserveGateGated(w, cfg, connection, agent, p, fallback, launch, ids, now);
      GatedEvolves(w, ObserveGate(w, cfg, connection, agent, p, fallback, launch, ids, now), cfg, connection, false, now);
    case Served(e, reply, listing) => ServeEvolves(w, e, reply, listing, cfg.leaseTtl, now);
    case Released(connection) => ReleaseEvolves(w, connection, cfg.leaseTtl, now);
    case Ended(session) => FinalizeEvolves(w, session, cfg.leaseTtl, now);
    case Closed => CloseEvolves(w, cfg.leaseTtl, now);
    case Controlled(p, launch) => EnsureEvolves(w, p, launch, cfg.leaseTtl, now);
    case Peeked(session) => DropEvolves(w, session, cfg.leaseTtl, now);
    case Facade(connection, agent, p, launch) =>
      EnterGated(w, cfg, connection, agent, p, launch, false, now);
      GatedEvolves(w, EnterGate(w, cfg, connection, agent, p, launch, false, now), cfg, connection, false, now);
    case Tabs(connection, agent, p, launch) => TabsEvolves(w, cfg, connection, agent, p, launch, now);
    case Visited(connection, session, p, tabs) => VisitedEvolves(w, cfg, m, now);
    case Open(_, _, _, _) => WriteEvolves(w, cfg, m, now);
    case Act(_, _, _, _) => WriteEvolves(w, cfg, m, now);
    case Switch(_, _, _, _) => WriteEvolves(w, cfg, m, now);
  }

  lemma VisitedEvolves(w: World, cfg: Config, m: Move, now: int)
    requires Inv(w) && cfg.leaseTtl > 0 && m.Visited?
    ensures Evolves(w, Step(w, cfg, m, now), cfg.leaseTtl, now, None)
  {
    hide Inv, Evolves, VisitTabs;
    if m.connection in w.contexts {
      VisitEvolves(w, cfg, m.connection, m.session, m.profile, m.tabs, now);
    } else {
      UntouchedEvolves(w, w, cfg.leaseTtl, now, None);
    }
  }

  lemma WriteEvolves(w: World, cfg: Config, m: Move, now: int)
    requires Inv(w) && (m.Open? || m.Act? || m.Switch?) && cfg.leaseTtl > 0
    ensures Evolves(w, WriteGate(w, cfg, m, now).world, cfg.leaseTtl, now, None)
  {
    hide Inv, Evolves, WriteGate, Gated;
    WriteGateGated(w, cfg, m, now);
    GatedEvolves(w, WriteGate(w, cfg, m, now), cfg, m.connection, true, now);
  }

  lemma CloseEvolves(w: World, ttl: nat, now: int)
    requires Inv(w) && ttl > 0
    ensures Evolves(w, CloseAll(w), ttl, now, None)
  {
    if w.closed {
      UntouchedEvolves(w, w, ttl, now, None);
    } else {
      var closing := w.(closed := true);
      assert Inv(closing);
      InvIssued(w);
      UntouchedEvolves(w, closing, ttl, now, None);
      hide Inv, Evolves, Issued, FinalizeAll;
      FinalizeAllEvolves(closing, w.sessions.order, ttl, now);
      EvolvesTwice(w, closing, FinalizeAll(closing, w.sessions.order), ttl, now, None);
    }
  }

  // ---------------------------------------------------------------------------
  // Write exclusion
  // ---------------------------------------------------------------------------

  /** Move i lets its connection write to the session of entry `e`. */
  predicate Writes(cfg: Config, worlds: seq<World>, moves: seq<Move>, times: seq<int>, i: nat, e: Entry)
    requires |worlds| == |moves| + 1 && |times| == |moves| && i < |moves|
  {
    && (moves[i].Open? || moves[i].Act? || moves[i].Switch?)
    && WriteGate(worlds[i], cfg, moves[i], times[i]).answer == Ok(e)
  }

  /** The lease is held, by the same holder, in world k. */
  predicate Held(worlds: seq<World>, k: nat, lease: Lease)
    requires k < |worlds|
  {
    lease.claim.session in worlds[k].leases.held && SameLease(worlds[k].leases.held[lease.claim.session], lease)
  }

  lemma WriterHolds(cfg: Config, worlds: seq<World>, moves: seq<Move>, times: seq<int>, i: nat, e: Entry)
    requires Run(cfg, worlds, moves, times) && i < |moves| && Writes(cfg, worlds, moves, times, i, e)
    ensures Holds(worlds[i + 1], moves[i].connection, e, cfg.leaseTtl, times[i]) && ActiveEntry(worlds[i + 1], e)
  {
    SupervisorConsistent(cfg, worlds, moves, times, i);
    hide Inv, Evolves, WriteGate;
    WriteGateGated(worlds[i], cfg, moves[i], times[i]);
    WriteGateKeepsInv(worlds[i], cfg, moves[i], times[i]);
    assert worlds[i + 1] == Step(worlds[i], cfg, moves[i], times[i]);
  }

  /** A lease held in world a and no longer in world b ended at some move between, because it had
      expired, its session was gone, or its own connection was released. */
  lemma {:induction false} LeaseEndsForAReason(cfg: Config, worlds: seq<World>, moves: seq<Move>, times: seq<int>,
                                               a: nat, b: nat, lease: Lease) returns (m: nat)
    requires Run(cfg, worlds, moves, times) && a <= b < |worlds| && Held(worlds, a, lease) && !Held(worlds, b, lease)
    ensures a <= m < b && Held(worlds, m, lease)
    ensures Ends(worlds[m], worlds[m + 1], lease.claim.session, times[m], ReleasedBy(moves[m]))
  {
    if Held(worlds, b - 1, lease) {
      m := b - 1;
      SupervisorConsistent(cfg, worlds, moves, times, m);
      StepEvolves(worlds[m], cfg, moves[m], times[m]);
      hide Inv, Step;
      assert Continues(worlds[m], worlds[b], lease.claim.session, cfg.leaseTtl, times[m])
        || Ends(worlds[m], worlds[b], lease.claim.session, times[m], ReleasedBy(moves[m]));
    } else {
      m := LeaseEndsForAReason(cfg, worlds, moves, times, a, b - 1, lease);
    }
  }

  /** If two different connections are let through to write on one profile, the first one's lease
      ended in between, because it had expired, its session was gone, or it was released. */
  lemma WriteExclusion(cfg: Config, worlds: seq<World>, moves: seq<Move>, times: seq<int>, i: nat, j: nat, e: Entry, f: Entry)
    returns (m: nat)
    requires Run(cfg, worlds, moves, times) && i < j < |moves|
    requires Writes(cfg, worlds, moves, times, i, e) && Writes(cfg, worlds, moves, times, j, f)
    requires e.profile.id == f.profile.id && moves[i].connection != moves[j].connection
    ensures e.session in worlds[i + 1].leases.held
    ensures var lease := worlds[i + 1].leases.held[e.session];
      && lease.claim.connection == moves[i].connection && lease.claim.session == e.session
      && i < m <= j && Held(worlds, m, lease)
      && Ends(worlds[m], worlds[m + 1], e.session, times[m], ReleasedBy(moves[m]))
  {
    hide Run, Inv, Writes, Ends;
    RunShape(cfg, worlds, moves, times);
    WriterHolds(cfg, worlds, moves, times, i, e);
    WriterHolds(cfg, worlds, moves, times, j, f);
    SupervisorConsistent(cfg, worlds, moves, times, j + 1);
    var lease := worlds[i + 1].leases.held[e.session];
    if Held(worlds, j + 1, lease) {
      HolderOfProfile(worlds[j + 1], e.session, f);
      assert false;
    }
    m := LeaseEndsForAReason(cfg, worlds, moves, times, i + 1, j + 1, lease);
  }

  lemma RunShape(cfg: Config, worlds: seq<World>, moves: seq<Move>, times: seq<int>)
    requires Run(cfg, worlds, moves, times)
    ensures |worlds| == |moves| + 1 && |times| == |moves|
  {
  }

  /** A leased session with the profile of an active one is that session. */
  lemma HolderOfProfile(w: World, s: nat, f: Entry)
    requires Inv(w) && s in w.leases.held && ActiveEntry(w, f) && w.leases.held[s].claim.profile == f.profile.id
    ensures s == f.session
  {
    assert IndexedByProfile(w.sessions, f.session);
    OneSessionPerProfile(w.sessions, s, f.session);
  }

  /** A lease whose id was issued by world a was already held there, for the same session. */
  lemma {:induction false} HeldSince(cfg: Config, worlds: seq<World>, moves: seq<Move>, times: seq<int>, a: nat, b: nat, t: nat)
    requires Run(cfg, worlds, moves, times) && a <= b < |worlds| && t in worlds[b].leases.held
    requires worlds[b].leases.held[t].leaseId < worlds[a].leases.issued
    ensures t in worlds[a].leases.held && SameLease(worlds[a].leases.held[t], worlds[b].leases.held[t])
  {
    hide Run;
    RunShape(cfg, worlds, moves, times);
    if a < b {
      OnlyKnownLeases(cfg, worlds, moves, times, b - 1, t);
      IssuedGrows(cfg, worlds, moves, times, a, b - 1);
      HeldSince(cfg, worlds, moves, times, a, b - 1, t);
    }
  }

  /** The holder, session, profile and generation of a lease id never change over a run. */
  lemma LeaseNeverChangesHands(cfg: Config, worlds: seq<World>, moves: seq<Move>, times: seq<int>,
                               a: nat, b: nat, s: nat, t: nat)
    requires Run(cfg, worlds, moves, times) && a <= b < |worlds|
    requires s in worlds[a].leases.held && t in worlds[b].leases.held
    requires worlds[a].leases.held[s].leaseId == worlds[b].leases.held[t].leaseId
    ensures s == t && SameLease(worlds[a].leases.held[s], worlds[b].leases.held[t])
  {
    hide Run, Inv;
    WasIssued(cfg, worlds, moves, times, a, s);
    HeldSince(cfg, worlds, moves, times, a, b, t);
    SupervisorConsistent(cfg, worlds, moves, times, a);
    LeasesDistinct(worlds[a], s, t);
  }

  lemma LeasesDistinct(w: World, s: nat, t: nat)
    requires Inv(w) && s in w.leases.held && t in w.leases.held && w.leases.held[s].leaseId == w.leases.held[t].leaseId
    ensures s == t
  {
  }

  lemma WasIssued(cfg: Config, worlds: seq<World>, moves: seq<Move>, times: seq<int>, a: nat, s: nat)
    requires Run(cfg, worlds, moves, times) && a < |worlds| && s in worlds[a].leases.held
    ensures worlds[a].leases.held[s].leaseId < worlds[a].leases.issued
  {
    SupervisorConsistent(cfg, worlds, moves, times, a);
    InvIssued(worlds[a]);
  }

  lemma OnlyKnownLeases(cfg: Config, worlds: seq<World>, moves: seq<Move>, times: seq<int>, k: nat, t: nat)
    requires Run(cfg, worlds, moves, times) && k < |moves| && t in worlds[k + 1].leases.held
    ensures Known(worlds[k], worlds[k + 1], t, cfg.leaseTtl, times[k])
  {
    SupervisorConsistent(cfg, worlds, moves, times, k);
    StepEvolves(worlds[k], cfg, moves[k], times[k]);
    hide Inv, Step;
  }

  lemma {:induction false} IssuedGrows(cfg: Config, worlds: seq<World>, moves: seq<Move>, times: seq<int>, a: nat, b: nat)
    requires Run(cfg, worlds, moves, times) && a <= b < |worlds|
    ensures worlds[a].leases.issued <= worlds[b].leases.issued
  {
    hide Run;
    if a < b {
      RunShape(cfg, worlds, moves, times);
      IssuedGrows(cfg, worlds, moves, times, a, b - 1);
      IssuedStep(cfg, worlds, moves, times, b - 1);
    }
  }

  lemma IssuedStep(cfg: Config, worlds: seq<World>, moves: seq<Move>, times: seq<int>, k: nat)
    requires Run(cfg, worlds, moves, times) && k < |moves|
    ensures worlds[k].leases.issued <= worlds[k + 1].leases.issued
  {
    SupervisorConsistent(cfg, worlds, moves, times, k);
    StepEvolves(worlds[k], cfg, moves[k], times[k]);
    hide Inv, Step;
  }

  // ---------------------------------------------------------------------------
  // Object routes over runs
  // ---------------------------------------------------------------------------

  /** Gates leave the object routes alone and only add sessions. */
  ghost predicate OnlyAdds(w: World, w': World) {
    w'.objects == w.objects && Extends(w.sessions.entries, w'.sessions.entries)
  }

  lemma EnterProfileOnlyAdds(w: World, cfg: Config, connection: string, p: Option<Profile>, launch: Launch, write: bool, now: int)
    requires Inv(w) && connection in w.contexts
    ensures OnlyAdds(w, EnterProfile(w, cfg, connection, p, launch, write, now).world)
  {
    hide Inv, EnsureSession, Authorize, Acquire, AcquireError;
    if p.Some? {
      GrantKeepsInv(w, cfg, connection, p.value, now);
      var granted := GrantProfile(w, cfg, connection, p.value, now);
      EnsureKeepsInv(granted.world, p.value, launch);
    }
  }

  lemma CurrentForWriteOnlyAdds(w: World, cfg: Config, connection: string, p: Option<Profile>, now: int)
    requires connection in w.contexts
    ensures OnlyAdds(w, CurrentForWrite(w, cfg, connection, p, now).world)
  {
    hide RequireGrant, Require, RequireError;
  }

  lemma EnterRouteOnlyAdds(w: World, cfg: Config, connection: string, r: Route, p: Option<Profile>, now: int)
    requires connection in w.contexts
    ensures OnlyAdds(w, EnterRoute(w, cfg, connection, r, p, now).world)
  {
    hide RequireGrant, Acquire, AcquireError;
  }

  lemma WriteGateOnlyAdds(w: World, cfg: Config, m: Move, now: int)
    requires Inv(w) && (m.Open? || m.Act? || m.Switch?)
    ensures OnlyAdds(w, WriteGate(w, cfg, m, now).world)
  {
    hide Inv, Connect, EnterProfile, CurrentForWrite, EnterRoute, LocalizeAll;
    ConnectKeepsInv(w, cfg, m.connection, m.agent, now);
    var connected := ConnectWorld(w, cfg, m.connection, m.agent, now);
    if connected.answer.Ok? {
      var c := connected.world;
      match m
      case Open(connection, agent, p, launch) => EnterProfileOnlyAdds(c, cfg, connection, p, launch, true, now);
      case Act(connection, agent, p, target) => CurrentForWriteOnlyAdds(c, cfg, connection, p, now);
      case Switch(connection, agent, tab, p) =>
        CurrentForWriteOnlyAdds(c, cfg, connection, p, now);
        if tab in c.tabs.byPublic {
          EnterRouteOnlyAdds(c, cfg, connection, c.tabs.byPublic[tab], p, now);
        }
    }
  }

  lemma ObserveGateOnlyAdds(w: World, cfg: Config, m: Move, now: int)
    requires Inv(w) && m.Observe?
    ensures OnlyAdds(w, Step(w, cfg, m, now))
  {
    hide Inv, Connect, EnterProfile, LocalizeAll, RequireGrant, RenewIfOwned, RenewError, WriteGate, EnterGate, TabsGate, VisitTabs, Serve,
      CloseAll, Finalize;
    ConnectKeepsInv(w, cfg, m.connection, m.agent, now);
    var connected := ConnectWorld(w, cfg, m.connection, m.agent, now);
    if connected.answer.Ok? {
      EnterProfileKeepsInv(connected.world, cfg, m.connection, m.fallback, m.launch, false, now);
      EnterProfileOnlyAdds(connected.world, cfg, m.connection, m.fallback, m.launch, false, now);
    }
  }

  lemma EnterGateOnlyAdds(w: World, cfg: Config, connection: string, agent: string, p: Option<Profile>, launch: Launch, write: bool,
                          now: int)
    requires Inv(w)
    ensures OnlyAdds(w, EnterGate(w, cfg, connection, agent, p, launch, write, now).world)
    ensures OnlyAdds(w, TabsGate(w, cfg, connection, agent, p, launch, now).world)
  {
    hide Inv, Connect, EnterProfile;
    ConnectKeepsInv(w, cfg, connection, agent, now);
    var connected := ConnectWorld(w, cfg, connection, agent, now);
    if connected.answer.Ok? {
      EnterProfileOnlyAdds(connected.world, cfg, connection, p, launch, write, now);
      EnterProfileOnlyAdds(connected.world, cfg, connection, p, launch, true, now);
    }
  }

  lemma AddedKeepsRoutes(w: World, w': World)
    requires OnlyAdds(w, w') && RoutesActive(w.sessions.entries, w.objects)
    ensures RoutesActive(w'.sessions.entries, w'.objects)
  {
    ExtendedBindings(w.sessions.entries, w'.sessions.entries, w.leases, w.contexts, w.objects);
  }

  predicate Fatal(m: Move) {
    m.Served? && DiesWhileListing(m.reply, m.listing)
  }

  lemma CloseKeepsRoutes(w: World)
    requires Inv(w) && RoutesActive(w.sessions.entries, w.objects)
    ensures RoutesActive(CloseAll(w).sessions.entries, CloseAll(w).objects)
  {
    if !w.closed {
      assert Inv(w.(closed := true));
      hide Inv, RoutesActive, FinalizeAll;
      FinalizeAllKeepsInv(w.(closed := true), w.sessions.order);
    }
  }

  /** One move keeps every object route on an active session, unless a session dies while its tabs
      are listed for a reply that is then published all the same. */
  lemma StepKeepsObjectRoutes(w: World, cfg: Config, m: Move, now: int)
    requires Inv(w) && Allowed(w, m) && RoutesActive(w.sessions.entries, w.objects)
    ensures var w' := Step(w, cfg, m, now); RoutesActive(w'.sessions.entries, w'.objects) <==> !Fatal(m)
  {
    hide Inv, RoutesActive, OnlyAdds, WriteGate, ObserveGate, EnterGate, TabsGate, VisitTabs, Serve, Finalize,
      CloseAll, EnsureSession, RevokeConnection, ReleaseLeases, DropExpired, DiesWhileListing;
    match m
    case Observe(_, _, _, _, _, _) =>
      ObserveGateOnlyAdds(w, cfg, m, now);
      AddedKeepsRoutes(w, Step(w, cfg, m, now));
    case Served(e, reply, listing) => ObjectRoutesActiveExactly(w, e, reply, listing, now);
    case Released(_) =>
    case Ended(session) => FinalizeKeepsInv(w, session);
    case Closed => CloseKeepsRoutes(w);
    case Controlled(p, launch) =>
      EnsureKeepsInv(w, p, launch);
      ControlOnlyAdds(w, p, launch);
      AddedKeepsRoutes(w, Step(w, cfg, m, now));
    case Peeked(_) =>
    case Facade(connection, agent, p, launch) =>
      EnterGateOnlyAdds(w, cfg, connection, agent, p, launch, false, now);
      AddedKeepsRoutes(w, Step(w, cfg, m, now));
    case Tabs(connection, agent, p, launch) =>
      EnterGateOnlyAdds(w, cfg, connection, agent, p, launch, true, now);
      AddedKeepsRoutes(w, Step(w, cfg, m, now));
    case Visited(connection, session, p, tabs) =>
      if connection in w.contexts {
        VisitKeepsInv(w, cfg, connection, session, p, tabs, now);
      }
    case Open(_, _, _, _) =>
      WriteGateOnlyAdds(w, cfg, m, now);
      AddedKeepsRoutes(w, Step(w, cfg, m, now));
    case Act(_, _, _, _) =>
      WriteGateOnlyAdds(w, cfg, m, now);
      AddedKeepsRoutes(w, Step(w, cfg, m, now));
    case Switch(_, _, _, _) =>
      WriteGateOnlyAdds(w, cfg, m, now);
      AddedKeepsRoutes(w, Step(w, cfg, m, now));
  }

  lemma ControlOnlyAdds(w: World, p: Profile, launch: Launch)
    requires Inv(w)
    ensures OnlyAdds(w, EnsureSession(w, p, launch).world)
  {
    EnsureKeepsInv(w, p, launch);
  }

  /** So in a run without such a death every object route always names an active session, and the
      first such death is the first time one does not. */
  lemma {:induction false} ObjectRoutesOverRuns(cfg: Config, worlds: seq<World>, moves: seq<Move>, times: seq<int>, n: nat)
    requires Run(cfg, worlds, moves, times) && n < |worlds|
    requires forall i :: 0 <= i < n - 1 ==> !Fatal(moves[i])
    ensures RoutesActive(worlds[n].sessions.entries, worlds[n].objects) <==> n == 0 || !Fatal(moves[n - 1])
  {
    hide Inv, RoutesActive, Step, Fatal;
    if n == 0 {
      StartInv();
    } else {
      SupervisorConsistent(cfg, worlds, moves, times, n - 1);
      ObjectRoutesOverRuns(cfg, worlds, moves, times, n - 1);
      StepKeepsObjectRoutes(worlds[n - 1], cfg, moves[n - 1], times[n - 1]);
    }
  }

  // ---------------------------------------------------------------------------
  // Such a death happens
  // ---------------------------------------------------------------------------

  const ONE_PROFILE := Profile("default", 1, true, {})
  const ONE_ENTRY := Entry(0, 0, ONE_PROFILE)

  /** The very first call of the first connection opens a session. */
  lemma FirstOpens(cfg: Config, now: int)
    ensures ActiveEntry(EnterGate(START, cfg, "c", "a", Some(ONE_PROFILE), Launched, true, now).world, ONE_ENTRY)
  {
    hide Acquire, AcquireError, BindSession;
    var c := ConnectWorld(START, cfg, "c", "a", now);
    FirstConnects(cfg, now);
    var g := GrantProfile(c.world, cfg, "c", ONE_PROFILE, now);
    assert g.answer.Ok? && g.world.sessions == NO_SESSIONS && g.world.issued == 0 && !g.world.closed;
    var e := EnsureSession(g.world, ONE_PROFILE, Launched);
    assert e.answer == Ok(ONE_ENTRY) && ActiveEntry(e.world, ONE_ENTRY);
  }

  lemma FirstConnects(cfg: Config, now: int)
    ensures var c := ConnectWorld(START, cfg, "c", "a", now);
      c.answer.Ok? && "c" in c.world.contexts && c.world == START.(contexts := c.world.contexts)
  {
  }

  /** Whatever page with an id the session returned, there is a run in which it dies while its tabs
      are listed, and the page's routes then name no active session. */
  lemma DeathWhileListingHappens(cfg: Config, state: WebState, now: int) returns (worlds: seq<World>, moves: seq<Move>)
    requires cfg.leaseTtl > 0
    requires state.session == 0 && StateIds(state) - {BLANK} != {}
    ensures Run(cfg, worlds, moves, [now, now]) && |moves| == 2 && Fatal(moves[1])
    ensures !RoutesActive(worlds[2].sessions.entries, worlds[2].objects)
  {
    hide EnterGate, Serve, RoutesActive, StateIds;
    var opening := Open("c", "a", Some(ONE_PROFILE), Launched);
    var served := Served(ONE_ENTRY, Returned(state, None, None), Some(ListCrashed));
    FirstOpens(cfg, now);
    var after := Step(START, cfg, opening, now);
    worlds, moves := [START, after, Step(after, cfg, served, now)], [opening, served];
    assert ReplyIds(state, None) == StateIds(state);
    assert forall i :: 0 <= i < 2 ==> Allowed(worlds[i], moves[i]) && worlds[i + 1] == Step(worlds[i], cfg, moves[i], [now, now][i]);
    ObjectRoutesOverRuns(cfg, worlds, moves, [now, now], 2);
  }
}
