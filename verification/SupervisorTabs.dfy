/** Listing the tabs of a connection: every session it has entered is visited in turn, and what is
    shown leads back to the sessions it came from. */
module SupervisorTabs {
  import opened Prelude
  import opened WebObjects
  import opened Routes
  import opened SessionManager
  import opened SessionRouting
  import opened SupervisorModel
  import opened SupervisorInvariant
  import opened SupervisorRuns

  predicate Smallest(ids: set<nat>, id: nat) {
    id in ids && forall x :: x in ids ==> id <= x
  }

  lemma SomeSmallest(ids: set<nat>)
    requires ids != {}
    ensures exists id :: Smallest(ids, id)
  {
    var id :| id in ids;
    if !Smallest(ids, id) {
      var rest := set x | x in ids && x < id;
      var smaller :| smaller in ids && smaller < id;
      assert smaller in rest;
      assert id in ids && id !in rest && rest <= ids;
      SmallerSet(rest, ids, id);
      SomeSmallest(rest);
      var least :| Smallest(rest, least);
      forall x | x in ids ensures least <= x {
        if x < id {
          assert x in rest;
        }
      }
      assert Smallest(ids, least);
    }
  }

  lemma SmallerSet(rest: set<nat>, ids: set<nat>, id: nat)
    requires rest <= ids && id in ids && id !in rest
    ensures rest < ids
  {
  }

  /** The ids in their order. */
  function Ordered(ids: set<nat>): (r: seq<nat>)
    ensures Elements(r) == ids
  {
    if ids == {} then []
    else
      SomeSmallest(ids);
      var id :| Smallest(ids, id);
      var rest := Ordered(ids - {id});
      assert Elements([id] + rest) == {id} + Elements(rest) == ids;
      [id] + rest
  }

  /** The sessions of `order`, one after the other, until one refuses or fails. */
  function VisitAll(w: World, cfg: Config, connection: string, order: seq<nat>, profiles: map<string, Profile>,
                    listings: map<nat, Listing>, now: int): (r: Outcome<seq<TabList>>)
    requires connection in w.contexts
    ensures connection in r.world.contexts
  {
    if order == [] then Outcome(w, Ok([]))
    else
      var n := |order| - 1;
      var front := VisitAll(w, cfg, connection, order[..n], profiles, listings, now);
      if front.answer.Err? then front
      else
        var visit := VisitOne(front.world, cfg, connection, order[n], profiles, listings, now);
        if visit.answer.Err? then visit else Outcome(visit.world, Ok(front.answer.value + visit.answer.value))
  }

  /** What the repository has for the profile of a session. */
  function ProfileNow(w: World, session: nat, profiles: map<string, Profile>): Option<Profile> {
    if session in w.sessions.entries then Get(profiles, w.sessions.entries[session].profile.id) else None
  }

  function VisitOne(w: World, cfg: Config, connection: string, session: nat, profiles: map<string, Profile>,
                    listings: map<nat, Listing>, now: int): (r: Outcome<seq<TabList>>)
    requires connection in w.contexts
    ensures connection in r.world.contexts
  {
    VisitTabs(w, cfg, connection, session, ProfileNow(w, session, profiles), GetOr(listings, session, ListRaised), now)
  }

  /** The whole call; `profiles` and `listings` are what the repository and the runtimes answer. */
  function TabsCall(w: World, cfg: Config, connection: string, agent: string, fallback: Option<Profile>, launch: Launch,
                    profiles: map<string, Profile>, listings: map<nat, Listing>, now: int): Outcome<seq<TabList>>
    requires TabsGate(w, cfg, connection, agent, fallback, launch, now).answer.Ok? ==>
      connection in TabsGate(w, cfg, connection, agent, fallback, launch, now).world.contexts
  {
    var gate := TabsGate(w, cfg, connection, agent, fallback, launch, now);
    if gate.answer.Err? then Outcome(gate.world, Err(gate.answer.error))
    else VisitAll(gate.world, cfg, connection, Ordered(gate.world.contexts[connection].leased), profiles, listings, now)
  }

  /** Once a visit refuses or fails, nothing more happens. */
  lemma {:induction false} VisitsStop(w: World, cfg: Config, connection: string, order: seq<nat>, k: nat, profiles: map<string, Profile>,
                                      listings: map<nat, Listing>, now: int)
    requires connection in w.contexts && k <= |order|
    requires VisitAll(w, cfg, connection, order[..k], profiles, listings, now).answer.Err?
    ensures VisitAll(w, cfg, connection, order, profiles, listings, now)
      == VisitAll(w, cfg, connection, order[..k], profiles, listings, now)
    decreases |order| - k
  {
    hide VisitOne;
    if k < |order| {
      assert order[..k + 1][..k] == order[..k];
      VisitsStop(w, cfg, connection, order, k + 1, profiles, listings, now);
    } else {
      assert order[..k] == order;
    }
  }

  lemma {:induction false} VisitAllKeepsInv(w: World, cfg: Config, connection: string, order: seq<nat>, profiles: map<string, Profile>,
                                            listings: map<nat, Listing>, now: int)
    requires Inv(w) && connection in w.contexts
    ensures Inv(VisitAll(w, cfg, connection, order, profiles, listings, now).world)
  {
    hide Inv, VisitTabs;
    if order != [] {
      var n := |order| - 1;
      VisitAllKeepsInv(w, cfg, connection, order[..n], profiles, listings, now);
      var front := VisitAll(w, cfg, connection, order[..n], profiles, listings, now).world;
      VisitKeepsInv(front, cfg, connection, order[n], ProfileNow(front, order[n], profiles), GetOr(listings, order[n], ListRaised), now);
    }
  }

  // ---------------------------------------------------------------------------
  // What is shown leads back
  // ---------------------------------------------------------------------------

  /** Every public tab of the list leads to its session. */
  ghost predicate Leads(w: World, shown: TabList) {
    && shown.session in w.sessions.entries && w.sessions.entries[shown.session].profile.id == shown.profile
    && forall t :: t in shown.tabs ==> RoutedTo(w, t, w.sessions.entries[shown.session])
  }

  predicate RoutedTo(w: World, tab: Id, e: Entry) {
    tab in w.tabs.byPublic && w.tabs.byPublic[tab].session == e.session && w.tabs.byPublic[tab].generation == e.generation
  }

  ghost predicate AllLead(w: World, shown: seq<TabList>) {
    forall i :: 0 <= i < |shown| ==> Leads(w, shown[i])
  }

  /** Sessions are left alone and tab routes only added. */
  ghost predicate MoreTabs(w: World, w': World) {
    && w'.sessions == w.sessions
    && forall t :: t in w.tabs.byPublic ==> t in w'.tabs.byPublic && w'.tabs.byPublic[t] == w.tabs.byPublic[t]
  }

  lemma StillLead(w: World, w': World, shown: seq<TabList>)
    requires MoreTabs(w, w') && AllLead(w, shown)
    ensures AllLead(w', shown)
  {
    forall i | 0 <= i < |shown| ensures Leads(w', shown[i]) {
      assert Leads(w, shown[i]);
    }
  }

  lemma ListedLead(w: World, e: Entry, tabs: set<Id>)
    requires Inv(w) && ActiveEntry(w, e)
    ensures MoreTabs(w, BindTabs(w, e, Listed(tabs))) && Leads(BindTabs(w, e, Listed(tabs)), PublicTabs(e, tabs))
  {
    InvParts(w);
    hide Inv, SessionsValid, LocksExact, Published;
    var u := BindTabs(w, e, Listed(tabs)).tabs;
    PublishedBoundAll(w.tabs, TabId, e.session, e.profile.id, e.generation, tabs);
    forall t | t in w.tabs.byPublic ensures t in u.byPublic && u.byPublic[t] == w.tabs.byPublic[t] {
      assert PublicEntry(w.tabs, t);
      var k := KeyOf(w.tabs.byPublic[t]);
      assert BoundEntry(w.tabs, u, TabId, e.session, e.profile.id, e.generation, tabs, k);
      assert LocalEntry(u, TabId, k);
    }
    forall t | t in PublicTabs(e, tabs).tabs ensures RoutedTo(BindTabs(w, e, Listed(tabs)), t, e) {
      var local :| local in tabs && local != BLANK && t == Routed(TabId, e.session, e.generation, local);
      var k := (e.session, e.generation, local);
      assert BoundEntry(w.tabs, u, TabId, e.session, e.profile.id, e.generation, tabs, k);
      assert LocalEntry(u, TabId, k);
    }
  }

  lemma VisitLeads(w: World, cfg: Config, connection: string, session: nat, p: Option<Profile>, listing: Listing, now: int)
    requires Inv(w) && connection in w.contexts && VisitTabs(w, cfg, connection, session, p, listing, now).answer.Ok?
    ensures var o := VisitTabs(w, cfg, connection, session, p, listing, now);
      MoreTabs(w, o.world) && AllLead(o.world, o.answer.value)
  {
    hide Inv, RequireGrant, RenewIfOwned, RenewError, BindTabs, Leads, PublicTabs;
    var entry := Get(w.sessions.entries, session);
    if entry.Some? {
      var e := entry.value;
      ActiveEntryNamed(w, Entry(session, 0, e.profile));
      RequireProfileKeepsInv(w, cfg, connection, e, p, now);
      var entered := RequireProfile(w, cfg, connection, e, p, now);
      RenewKeepsInv(entered.world, cfg, connection, e, now);
      ListedLead(RenewOwned(entered.world, cfg, connection, e, now).world, e, listing.tabs);
    }
  }

  /** Every tab an answer shows can be switched to: its public id leads to the active session it
      was listed for, in that session's generation. */
  lemma {:induction false} ShownTabsLead(w: World, cfg: Config, connection: string, order: seq<nat>, profiles: map<string, Profile>,
                                         listings: map<nat, Listing>, now: int)
    requires Inv(w) && connection in w.contexts && VisitAll(w, cfg, connection, order, profiles, listings, now).answer.Ok?
    ensures var o := VisitAll(w, cfg, connection, order, profiles, listings, now);
      MoreTabs(w, o.world) && AllLead(o.world, o.answer.value)
  {
    hide Inv, VisitTabs, Leads;
    if order != [] {
      var n := |order| - 1;
      var front := VisitAll(w, cfg, connection, order[..n], profiles, listings, now);
      ShownTabsLead(w, cfg, connection, order[..n], profiles, listings, now);
      VisitAllKeepsInv(w, cfg, connection, order[..n], profiles, listings, now);
      var p, listing := ProfileNow(front.world, order[n], profiles), GetOr(listings, order[n], ListRaised);
      VisitLeads(front.world, cfg, connection, order[n], p, listing, now);
      var visit := VisitTabs(front.world, cfg, connection, order[n], p, listing, now);
      StillLead(front.world, visit.world, front.answer.value);
    }
  }

  // ---------------------------------------------------------------------------
  // A call is a stretch of a run
  // ---------------------------------------------------------------------------

  lemma OneMoreMove(cfg: Config, worlds: seq<World>, moves: seq<Move>, times: seq<int>, m: Move, now: int)
    requires Run(cfg, worlds, moves, times) && Allowed(worlds[|moves|], m)
    requires forall i :: 0 <= i < |times| ==> times[i] <= now
    ensures Run(cfg, worlds + [Step(worlds[|moves|], cfg, m, now)], moves + [m], times + [now])
  {
    hide Step, Allowed;
  }

  /** However many sessions are visited, the visits are moves of a run. */
  lemma {:induction false} VisitsAreMoves(cfg: Config, worlds: seq<World>, moves: seq<Move>, times: seq<int>, connection: string,
                                          order: seq<nat>, profiles: map<string, Profile>, listings: map<nat, Listing>, now: int)
    returns (worlds': seq<World>, moves': seq<Move>, times': seq<int>)
    requires Run(cfg, worlds, moves, times) && connection in worlds[|moves|].contexts
    requires forall i :: 0 <= i < |times| ==> times[i] <= now
    ensures Run(cfg, worlds', moves', times') && moves <= moves'
    ensures forall i :: 0 <= i < |times'| ==> times'[i] <= now
    ensures worlds'[|moves'|] == VisitAll(worlds[|moves|], cfg, connection, order, profiles, listings, now).world
  {
    hide Run, VisitTabs;
    RunShape(cfg, worlds, moves, times);
    worlds', moves', times' := worlds, moves, times;
    if order != [] {
      var n := |order| - 1;
      worlds', moves', times' := VisitsAreMoves(cfg, worlds, moves, times, connection, order[..n], profiles, listings, now);
      var front := VisitAll(worlds[|moves|], cfg, connection, order[..n], profiles, listings, now);
      if front.answer.Ok? {
        var m := Visited(connection, order[n], ProfileNow(front.world, order[n], profiles), GetOr(listings, order[n], ListRaised));
        RunShape(cfg, worlds', moves', times');
        OneMoreMove(cfg, worlds', moves', times', m, now);
        worlds', moves', times' := worlds' + [Step(front.world, cfg, m, now)], moves' + [m], times' + [now];
      }
    }
  }

  /** So get_tabs as a whole leads from a reachable state to a reachable one. */
  lemma TabsCallIsARun(cfg: Config, worlds: seq<World>, moves: seq<Move>, times: seq<int>, connection: string, agent: string,
                       fallback: Option<Profile>, launch: Launch, profiles: map<string, Profile>, listings: map<nat, Listing>, now: int)
    returns (worlds': seq<World>, moves': seq<Move>, times': seq<int>)
    requires Run(cfg, worlds, moves, times)
    requires forall i :: 0 <= i < |times| ==> times[i] <= now
    ensures Run(cfg, worlds', moves', times') && moves <= moves'
    ensures var gate := TabsGate(worlds[|moves|], cfg, connection, agent, fallback, launch, now);
      && (gate.answer.Ok? ==> connection in gate.world.contexts)
      && worlds'[|moves'|] == TabsCall(worlds[|moves|], cfg, connection, agent, fallback, launch, profiles, listings, now).world
  {
    hide Run, Inv, TabsGate, VisitAll, Ordered;
    RunShape(cfg, worlds, moves, times);
    SupervisorConsistent(cfg, worlds, moves, times, |moves|);
    TabsGateKeepsInv(worlds[|moves|], cfg, connection, agent, fallback, launch, now);
    var m := Tabs(connection, agent, fallback, launch);
    OneMoreMove(cfg, worlds, moves, times, m, now);
    var gate := TabsGate(worlds[|moves|], cfg, connection, agent, fallback, launch, now);
    worlds', moves', times' := worlds + [gate.world], moves + [m], times + [now];
    if gate.answer.Ok? {
      worlds', moves', times' := VisitsAreMoves(cfg, worlds', moves', times', connection,
                                                Ordered(gate.world.contexts[connection].leased), profiles, listings, now);
    }
  }
}
