/** The runtime supervisor as a state machine: each Agent-facing call first passes its gate
    (connection, profile grant, session, lease) and is then served by the session's runtime,
    which may answer, raise, or crash and have its session finalized before it raises. */
module SupervisorModel {
  import opened Prelude
  import opened WebObjects
  import opened Routes
  import opened SessionManager
  import opened SessionRouting

  datatype Config = Config(connectionTtl: nat, grantTtl: nat, leaseTtl: nat)

  /** `locks` counts, for every session ever given a process lock, how often it was released. */
  datatype World = World(
    sessions: Sessions,
    contexts: Contexts,
    grants: Grants,
    leases: Leases,
    tabs: Table,
    objects: Table,
    locks: map<nat, nat>,
    issued: nat,
    closed: bool)

  const START := World(NO_SESSIONS, map[], Grants(map[], 0), Leases(map[], 0), EMPTY, EMPTY, map[], 0, false)

  /** What happens when a session is launched. Unrecorded: it runs, but noting that down raises. */
  datatype Launch = LockBusy | Fails | Unrecorded | Launched

  /** The fields of an operation result besides target and page; `rest` stands for its safety
      records and data. */
  datatype OperationRecord = OperationRecord(
    ok: bool, operation: string, previousVersion: Option<nat>, currentVersion: Option<nat>, revision: nat, rest: string)

  /** What an Agent is shown: a page, and for an operation its target and record. */
  datatype Page = Page(state: WebState, target: Option<Id>, record: Option<OperationRecord>)

  datatype Reply = Returned(state: WebState, target: Option<Id>, record: Option<OperationRecord>) | Raised | Crashed

  datatype Listing = Listed(tabs: set<Id>) | ListRaised | ListCrashed

  datatype Outcome<T> = Outcome(world: World, answer: Result<T, RoutingError>)

  function ClaimOf(w: World, connection: string, e: Entry): Claim
    requires connection in w.contexts
  {
    Claim(w.contexts[connection].agent, connection, e.session, e.profile.id, e.generation)
  }

  // ---------------------------------------------------------------------------
  // Session lifecycle
  // ---------------------------------------------------------------------------

  function EnsureSession(w: World, p: Profile, launch: Launch): Outcome<Entry> {
    if w.closed then Outcome(w, Err(SupervisorClosed))
    else
      var existing := ByProfile(w.sessions, p.id);
      if existing.Some? then Outcome(w, Ok(existing.value))
      else
        var e := Entry(w.issued, w.issued, p);
        match launch
        case LockBusy => Outcome(w, Err(ProfileLockBusy))
        case Fails => Outcome(w.(locks := w.locks[e.session := 1], issued := w.issued + 1), Err(LaunchFailed))
        case _ =>
          if !Addable(w.sessions, e)
          then Outcome(w.(locks := w.locks[e.session := 1], issued := w.issued + 1), Err(LaunchFailed))
          else Outcome(w.(sessions := Add(w.sessions, e), locks := w.locks[e.session := 0], issued := w.issued + 1),
                       if launch == Launched then Ok(e) else Err(LaunchFailed))
  }

  /** Everything bound to a session goes with it; a session already gone is left alone. */
  function Finalize(w: World, session: nat): World {
    if session !in w.sessions.entries then w
    else w.(sessions := Remove(w.sessions, session),
            leases := w.leases.(held := w.leases.held - {session}),
            contexts := UnbindAll(w.contexts, session),
            tabs := Invalidate(w.tabs, session),
            objects := Invalidate(w.objects, session),
            locks := w.locks[session := GetOr(w.locks, session, 0) + 1])
  }

  function FinalizeAll(w: World, sessions: seq<nat>): World {
    if sessions == [] then w
    else Finalize(FinalizeAll(w, sessions[..|sessions| - 1]), sessions[|sessions| - 1])
  }

  /** Closing twice is closing once. */
  function CloseAll(w: World): World {
    if w.closed then w else FinalizeAll(w.(closed := true), w.sessions.order)
  }

  function ReleaseConnection(w: World, connection: string): World {
    w.(contexts := w.contexts - {connection},
       grants := RevokeConnection(w.grants, connection),
       leases := ReleaseLeases(w.leases, connection))
  }

  // ---------------------------------------------------------------------------
  // Gates
  // ---------------------------------------------------------------------------

  function ConnectWorld(w: World, cfg: Config, connection: string, agent: string, now: int): Outcome<()> {
    match Connect(w.contexts, connection, agent, cfg.connectionTtl, now)
    case Ok(contexts) => Outcome(w.(contexts := contexts), Ok(()))
    case Err(e) => Outcome(w.(contexts := ConnectFailed(w.contexts, connection, now)), Err(e))
  }

  function AcquireWrite(w: World, cfg: Config, connection: string, e: Entry, now: int): Outcome<Entry>
    requires connection in w.contexts
  {
    var claim := ClaimOf(w, connection, e);
    var error := AcquireError(w.leases, claim, now);
    Outcome(w.(leases := Acquire(w.leases, claim, cfg.leaseTtl, now)), if error.Some? then Err(error.value) else Ok(e))
  }

  function RequireWrite(w: World, cfg: Config, connection: string, e: Entry, now: int): Outcome<Entry>
    requires connection in w.contexts
  {
    var claim := ClaimOf(w, connection, e);
    var error := RequireError(w.leases, claim, now);
    Outcome(w.(leases := Require(w.leases, claim, cfg.leaseTtl, now)), if error.Some? then Err(error.value) else Ok(e))
  }

  function RenewOwned(w: World, cfg: Config, connection: string, e: Entry, now: int): Outcome<Entry>
    requires connection in w.contexts
  {
    var claim := ClaimOf(w, connection, e);
    var error := RenewError(w.leases, claim, now);
    Outcome(w.(leases := RenewIfOwned(w.leases, claim, cfg.leaseTtl, now)), if error.Some? then Err(error.value) else Ok(e))
  }

  function BindConnection(w: World, cfg: Config, connection: string, e: Entry, now: int): World
    requires connection in w.contexts
  {
    w.(contexts := w.contexts[connection := BindSession(w.contexts[connection], e.session, e.profile.id, cfg.connectionTtl, now)])
  }

  /** The profile grant, before any session is looked for. */
  function GrantProfile(w: World, cfg: Config, connection: string, p: Profile, now: int): Outcome<()>
    requires connection in w.contexts
  {
    match Authorize(w.grants, p, w.contexts[connection].agent, connection, cfg.grantTtl, now)
    case Err(e) => Outcome(w, Err(e))
    case Ok(grants) =>
      Outcome(w.(grants := grants, contexts := w.contexts[connection := AuthorizeProfile(w.contexts[connection], p.id)]), Ok(()))
  }

  /** `p` is the profile the repository found for the requested reference, if any. */
  function EnterProfile(w: World, cfg: Config, connection: string, p: Option<Profile>, launch: Launch, write: bool, now: int)
    : Outcome<Entry>
    requires connection in w.contexts
  {
    if p.None? then Outcome(w, Err(ProfileNotFound))
    else
      var granted := GrantProfile(w, cfg, connection, p.value, now);
      if granted.answer.Err? then Outcome(granted.world, Err(granted.answer.error))
      else
        var ensured := EnsureSession(granted.world, p.value, launch);
        if ensured.answer.Err? then ensured
        else EnterSession(ensured.world, cfg, connection, ensured.answer.value, write, now)
  }

  function EnterSession(w: World, cfg: Config, connection: string, e: Entry, write: bool, now: int): Outcome<Entry>
    requires connection in w.contexts
  {
    if !write then Outcome(BindConnection(w, cfg, connection, e, now), Ok(e))
    else
      var acquired := AcquireWrite(w, cfg, connection, e, now);
      if acquired.answer.Err? then acquired
      else Outcome(BindConnection(acquired.world, cfg, connection, e, now), Ok(e))
  }

  /** `p` is what the repository now has for the session's profile. */
  function RequireProfile(w: World, cfg: Config, connection: string, e: Entry, p: Option<Profile>, now: int): Outcome<Entry>
    requires connection in w.contexts
  {
    if p.None? then Outcome(w, Err(ProfileNotFound))
    else
      match RequireGrant(w.grants, p.value, w.contexts[connection].agent, connection, cfg.grantTtl, now)
      case Err(error) => Outcome(w, Err(error))
      case Ok(grants) => Outcome(w.(grants := grants), Ok(e))
  }

  /** The session a connection currently points at, if it is active. */
  function CurrentSession(w: World, connection: string): Option<Entry>
    requires connection in w.contexts
  {
    var current := w.contexts[connection].current;
    if current.None? then None else Get(w.sessions.entries, current.value)
  }

  /** open_web enters the profile for writing, the compatibility facade without. */
  function EnterGate(w: World, cfg: Config, connection: string, agent: string, p: Option<Profile>, launch: Launch, write: bool, now: int)
    : Outcome<Entry>
  {
    var connected := ConnectWorld(w, cfg, connection, agent, now);
    if connected.answer.Err? then Outcome(connected.world, Err(connected.answer.error))
    else EnterProfile(connected.world, cfg, connection, p, launch, write, now)
  }

  function LocalizeAll(t: Table, ids: seq<Id>, e: Entry): bool {
    forall i :: 0 <= i < |ids| ==> Localize(t, ids[i], e.session, e.generation).Ok?
  }

  function Localized(o: Outcome<Entry>, ids: seq<Id>): Outcome<Entry> {
    if o.answer.Ok? && !LocalizeAll(o.world.objects, ids, o.answer.value) then Outcome(o.world, Err(ObjectSessionMismatch))
    else o
  }

  function ObserveGate(w: World, cfg: Config, connection: string, agent: string, current: Option<Profile>,
                       fallback: Option<Profile>, launch: Launch, ids: seq<Id>, now: int): Outcome<Entry>
  {
    var connected := ConnectWorld(w, cfg, connection, agent, now);
    if connected.answer.Err? then Outcome(connected.world, Err(connected.answer.error))
    else
      var session := CurrentSession(connected.world, connection);
      var entered :=
        if session.Some? then RequireProfile(connected.world, cfg, connection, session.value, current, now)
        else EnterProfile(connected.world, cfg, connection, fallback, launch, false, now);
      if entered.answer.Err? then entered
      else Localized(RenewOwned(entered.world, cfg, connection, entered.answer.value, now), ids)
  }

  /** The current session with write access, as act_web and an unrouted tab switch need it. */
  function CurrentForWrite(w: World, cfg: Config, connection: string, current: Option<Profile>, now: int): Outcome<Entry>
    requires connection in w.contexts
  {
    var session := CurrentSession(w, connection);
    if session.None? then Outcome(w, Err(SessionContextRequired))
    else
      var entered := RequireProfile(w, cfg, connection, session.value, current, now);
      if entered.answer.Err? then entered
      else RequireWrite(entered.world, cfg, connection, session.value, now)
  }

  function ActGate(w: World, cfg: Config, connection: string, agent: string, current: Option<Profile>, target: Id, now: int)
    : Outcome<Entry>
  {
    var connected := ConnectWorld(w, cfg, connection, agent, now);
    if connected.answer.Err? then Outcome(connected.world, Err(connected.answer.error))
    else Localized(CurrentForWrite(connected.world, cfg, connection, current, now), [target])
  }

  /** Switching to a tab of a known route enters that tab's session; `routed` is what the
      repository has for its profile. */
  function EnterRoute(w: World, cfg: Config, connection: string, r: Route, routed: Option<Profile>, now: int): Outcome<Entry>
    requires connection in w.contexts
  {
    var session := Get(w.sessions.entries, r.session);
    if session.None? || session.value.generation != r.generation then Outcome(w, Err(TabSessionExpired))
    else
      var entered := RequireProfile(w, cfg, connection, session.value, routed, now);
      if entered.answer.Err? then entered
      else EnterSession(entered.world, cfg, connection, session.value, true, now)
  }

  function SwitchGate(w: World, cfg: Config, connection: string, agent: string, tab: Id, profile: Option<Profile>, now: int)
    : Outcome<Entry>
  {
    var connected := ConnectWorld(w, cfg, connection, agent, now);
    if connected.answer.Err? then Outcome(connected.world, Err(connected.answer.error))
    else
      var route := Get(connected.world.tabs.byPublic, tab);
      if route.None? then CurrentForWrite(connected.world, cfg, connection, profile, now)
      else EnterRoute(connected.world, cfg, connection, route.value, profile, now)
  }

  // ---------------------------------------------------------------------------
  // Serving a call that passed its gate
  // ---------------------------------------------------------------------------

  /** After the operation returned, the tabs are listed and routed; a failure is swallowed. */
  function BindTabs(w: World, e: Entry, listing: Listing): World {
    match listing
    case Listed(tabs) => w.(tabs := Published(w.tabs, TabId, e.session, e.profile.id, e.generation, tabs))
    case ListRaised => w
    case ListCrashed => Finalize(w, e.session)
  }

  function ReplyIds(state: WebState, target: Option<Id>): set<Id> {
    StateIds(state) + OptionSet(target)
  }

  function Project(w: World, e: Entry, state: WebState, target: Option<Id>, now: int): World {
    w.(objects := Published(w.objects, ObjectId, state.session, e.profile.id, e.generation, ReplyIds(state, target)),
       leases := DropExpired(w.leases, e.session, now))
  }

  /** `listing` is absent for the calls that do not list tabs. */
  function Serve(w: World, e: Entry, reply: Reply, listing: Option<Listing>, now: int): World {
    match reply
    case Raised => w
    case Crashed => Finalize(w, e.session)
    case Returned(state, target, _) =>
      Project(if listing.Some? then BindTabs(w, e, listing.value) else w, e, state, target, now)
  }

  // ---------------------------------------------------------------------------
  // Listing the tabs of a connection
  // ---------------------------------------------------------------------------

  /** get_tabs enters the default profile for writing if the connection has no session yet. */
  function TabsGate(w: World, cfg: Config, connection: string, agent: string, fallback: Option<Profile>, launch: Launch, now: int)
    : Outcome<()>
  {
    var connected := ConnectWorld(w, cfg, connection, agent, now);
    if connected.answer.Err? || connected.world.contexts[connection].leased != {} then connected
    else
      var entered := EnterProfile(connected.world, cfg, connection, fallback, launch, true, now);
      Outcome(entered.world, if entered.answer.Err? then Err(entered.answer.error) else Ok(()))
  }

  /** The public tabs shown for one session. */
  datatype TabList = TabList(session: nat, profile: string, tabs: set<Id>)

  function PublicTabs(e: Entry, tabs: set<Id>): TabList {
    TabList(e.session, e.profile.id, set t | t in tabs && t != BLANK :: Routed(TabId, e.session, e.generation, t))
  }

  /** One session's turn: skipped if it is gone, otherwise its profile is checked again, a held
      lease renewed, and its tabs listed and routed. A failed listing fails the whole call. */
  function VisitTabs(w: World, cfg: Config, connection: string, session: nat, p: Option<Profile>, listing: Listing, now: int)
    : (r: Outcome<seq<TabList>>)
    requires connection in w.contexts
    ensures connection in r.world.contexts
  {
    var entry := Get(w.sessions.entries, session);
    if entry.None? then Outcome(w, Ok([]))
    else
      var entered := RequireProfile(w, cfg, connection, entry.value, p, now);
      if entered.answer.Err? then Outcome(entered.world, Err(entered.answer.error))
      else
        var renewed := RenewOwned(entered.world, cfg, connection, entry.value, now);
        if renewed.answer.Err? then Outcome(renewed.world, Err(renewed.answer.error))
        else
          Outcome(BindTabs(renewed.world, entry.value, listing),
                  if listing.Listed? then Ok([PublicTabs(entry.value, listing.tabs)]) else Err(RuntimeFailed))
  }
}
