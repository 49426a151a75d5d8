/** Public identities for session-local tabs and objects: two maps kept mutually inverse while
    sessions come and go, and the renaming of a whole page state into public identities. */
module Routes {
  import opened Prelude
  import opened WebObjects
  import opened RegistryModel

  datatype Route = Route(id: Id, session: nat, profile: string, generation: nat, local: Id)

  /** Session, runtime generation, local id. */
  type Key = (nat, nat, Id)

  /** The routes of one kind, by public id and by local key. */
  datatype Table = Table(byPublic: map<Id, Route>, byLocal: map<Key, Route>)

  const EMPTY := Table(map[], map[])
  const BLANK := Named("")

  function RouteFor(kind: RouteKind, session: nat, profile: string, generation: nat, local: Id): Route {
    Route(Routed(kind, session, generation, local), session, profile, generation, local)
  }

  function KeyOf(r: Route): Key {
    (r.session, r.generation, r.local)
  }

  // ---------------------------------------------------------------------------
  // Operations
  // ---------------------------------------------------------------------------

  function Bind(t: Table, kind: RouteKind, session: nat, profile: string, generation: nat, local: Id): Table {
    var r := RouteFor(kind, session, profile, generation, local);
    if KeyOf(r) in t.byLocal then t else Table(t.byPublic[r.id := r], t.byLocal[KeyOf(r) := r])
  }

  /** The keys worth routing for `ids`; the empty id is left alone. */
  predicate Wanted(k: Key, session: nat, generation: nat, ids: set<Id>) {
    k.0 == session && k.1 == generation && k.2 in ids && k.2 != BLANK
  }

  /** The table once every id of `ids` has a route, whatever the order they were bound in. */
  ghost predicate BoundAll(t: Table, t': Table, kind: RouteKind, session: nat, profile: string, generation: nat, ids: set<Id>) {
    && (forall k: Key :: BoundEntry(t, t', kind, session, profile, generation, ids, k))
    && Inverse(t', kind)
  }

  ghost predicate BoundEntry(t: Table, t': Table, kind: RouteKind, session: nat, profile: string, generation: nat,
                             ids: set<Id>, k: Key)
  {
    && (k in t'.byLocal <==> k in t.byLocal || Wanted(k, session, generation, ids))
    && (k in t.byLocal ==> k in t'.byLocal && t'.byLocal[k] == t.byLocal[k])
    && (k in t'.byLocal && k !in t.byLocal ==> t'.byLocal[k] == RouteFor(kind, session, profile, generation, k.2))
  }

  function Invalidate(t: Table, session: nat): Table {
    Table(map p | p in t.byPublic && t.byPublic[p].session != session :: t.byPublic[p],
          map k | k in t.byLocal && k.0 != session :: t.byLocal[k])
  }

  /** Unknown ids pass unchanged; a live id of another session or generation is refused. */
  function Localize(t: Table, value: Id, session: nat, generation: nat): Result<Id, ()> {
    if value !in t.byPublic then Ok(value)
    else
      var r := t.byPublic[value];
      if r.session != session || r.generation != generation then Err(()) else Ok(r.local)
  }

  // ---------------------------------------------------------------------------
  // The two maps are mutually inverse
  // ---------------------------------------------------------------------------

  ghost predicate Inverse(t: Table, kind: RouteKind) {
    && (forall p :: p in t.byPublic ==> PublicEntry(t, p))
    && (forall k :: k in t.byLocal ==> LocalEntry(t, kind, k))
  }

  ghost predicate PublicEntry(t: Table, p: Id)
    requires p in t.byPublic
  {
    var r := t.byPublic[p];
    r.id == p && KeyOf(r) in t.byLocal && t.byLocal[KeyOf(r)] == r
  }

  ghost predicate LocalEntry(t: Table, kind: RouteKind, k: Key)
    requires k in t.byLocal
  {
    var r := t.byLocal[k];
    && KeyOf(r) == k && r.id == Routed(kind, r.session, r.generation, r.local)
    && r.id in t.byPublic && t.byPublic[r.id] == r
  }

  lemma BindKeepsInverse(t: Table, kind: RouteKind, session: nat, profile: string, generation: nat, local: Id)
    requires Inverse(t, kind)
    ensures Inverse(Bind(t, kind, session, profile, generation, local), kind)
  {
    var t' := Bind(t, kind, session, profile, generation, local);
    forall p | p in t'.byPublic ensures PublicEntry(t', p) {
      assert p in t.byPublic ==> PublicEntry(t, p);
    }
    forall k | k in t'.byLocal ensures LocalEntry(t', kind, k) {
      assert k in t.byLocal ==> LocalEntry(t, kind, k);
    }
  }

  lemma InvalidateKeepsInverse(t: Table, kind: RouteKind, session: nat)
    requires Inverse(t, kind)
    ensures Inverse(Invalidate(t, session), kind)
  {
    var t' := Invalidate(t, session);
    forall p | p in t'.byPublic ensures PublicEntry(t', p) {
      assert PublicEntry(t, p);
    }
    forall k | k in t'.byLocal ensures LocalEntry(t', kind, k) {
      assert LocalEntry(t, kind, k);
    }
  }

  // ---------------------------------------------------------------------------
  // Binding many ids
  // ---------------------------------------------------------------------------

  lemma BoundNone(t: Table, kind: RouteKind, session: nat, profile: string, generation: nat, ids: set<Id>)
    requires Inverse(t, kind) && ids <= {BLANK}
    ensures BoundAll(t, t, kind, session, profile, generation, ids)
  {
  }

  lemma BoundOne(t: Table, kind: RouteKind, session: nat, profile: string, generation: nat, local: Id)
    requires Inverse(t, kind) && local != BLANK
    ensures BoundAll(t, Bind(t, kind, session, profile, generation, local), kind, session, profile, generation, {local})
  {
    BindKeepsInverse(t, kind, session, profile, generation, local);
  }

  lemma BoundMore(t: Table, t': Table, t'': Table, kind: RouteKind, session: nat, profile: string, generation: nat,
                  a: set<Id>, b: set<Id>)
    requires BoundAll(t, t', kind, session, profile, generation, a)
    requires BoundAll(t', t'', kind, session, profile, generation, b)
    ensures BoundAll(t, t'', kind, session, profile, generation, a + b)
  {
    forall k: Key ensures BoundEntry(t, t'', kind, session, profile, generation, a + b, k) {
      assert BoundEntry(t, t', kind, session, profile, generation, a, k);
      assert BoundEntry(t', t'', kind, session, profile, generation, b, k);
    }
  }

  function NewKeys(t: Table, session: nat, generation: nat, ids: set<Id>): (r: set<Key>)
    ensures forall k: Key :: k in r <==> Wanted(k, session, generation, ids) && k !in t.byLocal
  {
    set id | id in ids && id != BLANK && (session, generation, id) !in t.byLocal :: (session, generation, id)
  }

  function NewIds(t: Table, kind: RouteKind, session: nat, generation: nat, ids: set<Id>): (r: set<Id>)
    ensures forall p :: p in r <==>
      p.Routed? && p == Routed(kind, session, generation, p.local) && (session, generation, p.local) in NewKeys(t, session, generation, ids)
  {
    set id | id in ids && id != BLANK && (session, generation, id) !in t.byLocal :: Routed(kind, session, generation, id)
  }

  /** The one table that BoundAll allows. */
  function Published(t: Table, kind: RouteKind, session: nat, profile: string, generation: nat, ids: set<Id>): Table {
    var keys, values := NewKeys(t, session, generation, ids), NewIds(t, kind, session, generation, ids);
    Table(t.byPublic + map p | p in values :: RouteFor(kind, session, profile, generation, p.local),
          t.byLocal + map k | k in keys :: RouteFor(kind, session, profile, generation, k.2))
  }

  lemma BoundAllIsPublished(t: Table, t': Table, kind: RouteKind, session: nat, profile: string, generation: nat, ids: set<Id>)
    requires Inverse(t, kind) && BoundAll(t, t', kind, session, profile, generation, ids)
    ensures t' == Published(t, kind, session, profile, generation, ids)
  {
    var u := Published(t, kind, session, profile, generation, ids);
    forall k: Key ensures Get(t'.byLocal, k) == Get(u.byLocal, k) {
      LocalAgrees(t, t', kind, session, profile, generation, ids, k);
    }
    SameEntries(t'.byLocal, u.byLocal);
    forall p: Id ensures Get(t'.byPublic, p) == Get(u.byPublic, p) {
      PublicAgrees(t, t', kind, session, profile, generation, ids, p);
    }
    SameEntries(t'.byPublic, u.byPublic);
  }

  lemma PublishedBoundAll(t: Table, kind: RouteKind, session: nat, profile: string, generation: nat, ids: set<Id>)
    requires Inverse(t, kind)
    ensures BoundAll(t, Published(t, kind, session, profile, generation, ids), kind, session, profile, generation, ids)
  {
    var u := Published(t, kind, session, profile, generation, ids);
    forall p | p in u.byPublic ensures PublicEntry(u, p) {
      assert p in t.byPublic ==> PublicEntry(t, p);
    }
    forall k | k in u.byLocal ensures LocalEntry(u, kind, k) {
      assert k in t.byLocal ==> LocalEntry(t, kind, k);
    }
    assert Inverse(u, kind);
    forall k: Key ensures BoundEntry(t, u, kind, session, profile, generation, ids, k) {
    }
  }

  lemma LocalAgrees(t: Table, t': Table, kind: RouteKind, session: nat, profile: string, generation: nat,
                    ids: set<Id>, k: Key)
    requires BoundAll(t, t', kind, session, profile, generation, ids)
    ensures Get(t'.byLocal, k) == Get(Published(t, kind, session, profile, generation, ids).byLocal, k)
  {
    assert BoundEntry(t, t', kind, session, profile, generation, ids, k);
  }

  lemma PublicAgrees(t: Table, t': Table, kind: RouteKind, session: nat, profile: string, generation: nat,
                     ids: set<Id>, p: Id)
    requires Inverse(t, kind) && BoundAll(t, t', kind, session, profile, generation, ids)
    ensures Get(t'.byPublic, p) == Get(Published(t, kind, session, profile, generation, ids).byPublic, p)
  {
    var u := Published(t, kind, session, profile, generation, ids);
    if p in t'.byPublic {
      assert PublicEntry(t', p);
      var k := KeyOf(t'.byPublic[p]);
      assert BoundEntry(t, t', kind, session, profile, generation, ids, k);
      if k in t.byLocal {
        assert LocalEntry(t, kind, k);
      }
    }
    if p in t.byPublic {
      assert PublicEntry(t, p);
      var k := KeyOf(t.byPublic[p]);
      assert BoundEntry(t, t', kind, session, profile, generation, ids, k);
      assert LocalEntry(t', kind, k);
    } else if p in u.byPublic {
      var k: Key := (session, generation, p.local);
      assert BoundEntry(t, t', kind, session, profile, generation, ids, k);
      assert LocalEntry(t', kind, k);
    }
  }

  // ---------------------------------------------------------------------------
  // Projecting a page state
  // ---------------------------------------------------------------------------

  datatype WebState = WebState(
    session: nat,
    document: Document,
    outline: seq<Landmark>,
    regions: seq<Landmark>,
    objects: seq<Projection>,
    changes: Option<ChangeSet>)

  function LandmarkIds(ls: seq<Landmark>): set<Id> {
    set l | l in ls :: l.objectId
  }

  function ProjectionIds(p: Projection): set<Id> {
    match p
    case Full(o) => {o.id} + Mentions(o.relations)
    case Brief(summary) => {summary.id}
  }

  function ObjectIds(ps: seq<Projection>): (r: set<Id>)
    ensures forall p :: p in ps ==> ProjectionIds(p) <= r
  {
    if ps == [] then {}
    else
      var n := |ps| - 1;
      assert ps == ps[..n] + [ps[n]];
      ObjectIds(ps[..n]) + ProjectionIds(ps[n])
  }

  function ChangeIds(c: ChangeSet): set<Id> {
    (set s | s in c.added :: s.id) + (set u | u in c.updated :: u.id) + Elements(c.removed) + Elements(c.invalidated)
  }

  /** Every id a page state mentions. */
  function StateIds(s: WebState): set<Id> {
    LandmarkIds(s.outline) + LandmarkIds(s.regions) + ObjectIds(s.objects)
    + (if s.changes.Some? then ChangeIds(s.changes.value) else {})
    + OptionSet(s.document.takeover.target)
  }

  /** The one renaming used for a whole state. */
  function Publishing(session: nat, generation: nat, ids: set<Id>): map<Id, Id> {
    map id | id in ids && id != BLANK :: Routed(ObjectId, session, generation, id)
  }

  function RenameLandmarks(ls: seq<Landmark>, m: map<Id, Id>): (r: seq<Landmark>)
    ensures |r| == |ls| && forall i :: 0 <= i < |ls| ==> r[i] == ls[i].(objectId := MapId(ls[i].objectId, m))
  {
    seq(|ls|, i requires 0 <= i < |ls| => ls[i].(objectId := MapId(ls[i].objectId, m)))
  }

  function RenameSummary(s: Summary, m: map<Id, Id>): Summary {
    s.(id := MapId(s.id, m))
  }

  function RenameProjection(p: Projection, m: map<Id, Id>): Projection {
    match p
    case Full(o) => Full(RenameObject(o, m))
    case Brief(summary) => Brief(RenameSummary(summary, m))
  }

  function RenameProjections(ps: seq<Projection>, m: map<Id, Id>): (r: seq<Projection>)
    ensures |r| == |ps| && forall i :: 0 <= i < |ps| ==> r[i] == RenameProjection(ps[i], m)
  {
    seq(|ps|, i requires 0 <= i < |ps| => RenameProjection(ps[i], m))
  }

  function RenameSummaries(ss: seq<Summary>, m: map<Id, Id>): (r: seq<Summary>)
    ensures |r| == |ss| && forall i :: 0 <= i < |ss| ==> r[i] == RenameSummary(ss[i], m)
  {
    seq(|ss|, i requires 0 <= i < |ss| => RenameSummary(ss[i], m))
  }

  function RenameUpdates(us: seq<ObjectUpdate>, m: map<Id, Id>): (r: seq<ObjectUpdate>)
    ensures |r| == |us| && forall i :: 0 <= i < |us| ==> r[i] == us[i].(id := MapId(us[i].id, m))
  {
    seq(|us|, i requires 0 <= i < |us| => us[i].(id := MapId(us[i].id, m)))
  }

  function RenameChanges(c: ChangeSet, m: map<Id, Id>): ChangeSet {
    c.(added := RenameSummaries(c.added, m), updated := RenameUpdates(c.updated, m),
       removed := MapList(c.removed, m), invalidated := MapList(c.invalidated, m))
  }

  function RenameDocument(d: Document, m: map<Id, Id>): Document {
    d.(takeover := d.takeover.(target := MapOption(d.takeover.target, m)))
  }

  /** The state with every id renamed and nothing else touched. */
  function RenameState(s: WebState, m: map<Id, Id>): WebState {
    WebState(s.session, RenameDocument(s.document, m), RenameLandmarks(s.outline, m), RenameLandmarks(s.regions, m),
             RenameProjections(s.objects, m),
             if s.changes.Some? then Some(RenameChanges(s.changes.value, m)) else None)
  }

  /** Different ids stay different, the empty id stays empty. */
  lemma PublishingInjective(session: nat, generation: nat, ids: set<Id>, a: Id, b: Id)
    requires a in ids && b in ids
    ensures MapId(a, Publishing(session, generation, ids)) == MapId(b, Publishing(session, generation, ids)) <==> a == b
    ensures MapId(BLANK, Publishing(session, generation, ids)) == BLANK
    ensures Injective(Publishing(session, generation, ids))
  {
  }

  // ---------------------------------------------------------------------------
  // Round trips, refusals and runs
  // ---------------------------------------------------------------------------

  /** Localizing any id of a projected state, in the session and generation it was projected
      for, returns the id the session used. */
  lemma ProjectedIdsLocalize(t: Table, t': Table, profile: string, generation: nat, s: WebState, id: Id)
    requires Inverse(t, ObjectId) && BoundAll(t, t', ObjectId, s.session, profile, generation, StateIds(s))
    requires id in StateIds(s)
    ensures Localize(t', MapId(id, Publishing(s.session, generation, StateIds(s))), s.session, generation) == Ok(id)
  {
    var key := (s.session, generation, id);
    if id != BLANK {
      assert BoundEntry(t, t', ObjectId, s.session, profile, generation, StateIds(s), key);
      assert LocalEntry(t', ObjectId, key);
    } else if BLANK in t'.byPublic {
      assert false;
    }
  }

  datatype Event = Bound(session: nat, profile: string, generation: nat, local: Id) | Invalidated(session: nat)

  function Apply(t: Table, kind: RouteKind, e: Event): Table {
    match e
    case Bound(session, profile, generation, local) => Bind(t, kind, session, profile, generation, local)
    case Invalidated(session) => Invalidate(t, session)
  }

  /** The table after a history of binds and invalidations, starting empty. */
  function After(kind: RouteKind, events: seq<Event>): Table {
    if events == [] then EMPTY else Apply(After(kind, events[..|events| - 1]), kind, events[|events| - 1])
  }

  /** Bound at some point and its session not invalidated since. */
  predicate Live(events: seq<Event>, session: nat, generation: nat, local: Id) {
    if events == [] then false
    else
      var e := events[|events| - 1];
      if e.Bound? && e.session == session && e.generation == generation && e.local == local then true
      else if e.Invalidated? && e.session == session then false
      else Live(events[..|events| - 1], session, generation, local)
  }

  lemma {:induction false} AfterInverse(kind: RouteKind, events: seq<Event>)
    ensures Inverse(After(kind, events), kind)
  {
    if events != [] {
      AfterInverse(kind, events[..|events| - 1]);
      var t, e := After(kind, events[..|events| - 1]), events[|events| - 1];
      match e
      case Bound(session, profile, generation, local) => BindKeepsInverse(t, kind, session, profile, generation, local);
      case Invalidated(session) => InvalidateKeepsInverse(t, kind, session);
    }
  }

  lemma {:induction false} LiveExactly(kind: RouteKind, events: seq<Event>, session: nat, generation: nat, local: Id)
    ensures (session, generation, local) in After(kind, events).byLocal <==> Live(events, session, generation, local)
  {
    if events != [] {
      LiveExactly(kind, events[..|events| - 1], session, generation, local);
    }
  }

  /** In every history of binds and invalidations, a public id is localized to the local id it
      stands for exactly in its own session and generation while that is live, is refused
      everywhere else while live, and is handed on unchanged once its session is gone. */
  lemma RouteRoundTrip(kind: RouteKind, events: seq<Event>, session: nat, generation: nat, local: Id,
                       inSession: nat, inGeneration: nat)
    ensures var value := Routed(kind, session, generation, local);
      Localize(After(kind, events), value, inSession, inGeneration)
      == if !Live(events, session, generation, local) then Ok(value)
         else if session == inSession && generation == inGeneration then Ok(local)
         else Err(())
  {
    var t, value, key := After(kind, events), Routed(kind, session, generation, local), (session, generation, local);
    AfterInverse(kind, events);
    LiveExactly(kind, events, session, generation, local);
    if key in t.byLocal {
      assert LocalEntry(t, kind, key);
    } else if value in t.byPublic {
      assert false;
    }
  }
}
