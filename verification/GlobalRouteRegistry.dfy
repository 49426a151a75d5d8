/** The route registry object: routes are bound on demand while a page state is projected. */
module GlobalRouteRegistry {
  import opened Prelude
  import opened WebObjects
  import opened RegistryModel
  import opened Routes

  datatype Place = Place(session: nat, profile: string, generation: nat)

  ghost predicate Routing(start: Table, t: Table, p: Place, seen: set<Id>) {
    BoundAll(start, t, ObjectId, p.session, p.profile, p.generation, seen)
  }

  function PublishingAt(p: Place, all: set<Id>): map<Id, Id> {
    Publishing(p.session, p.generation, all)
  }

  function Singles(r: Relations): set<Id> {
    OptionSet(r.parent) + OptionSet(r.belongsTo) + OptionSet(r.ownedBy) + OptionSet(r.form) + OptionSet(r.submitControl)
  }

  function Manys(r: Relations): set<Id> {
    Elements(r.children) + Elements(r.labelledBy) + Elements(r.describedBy) + Elements(r.controls)
    + Elements(r.controlledBy) + Elements(r.owns) + Elements(r.fields) + Elements(r.items) + Elements(r.rows)
    + Elements(r.cells) + Elements(r.headers)
  }

  function RenameSingles(r: Relations, m: map<Id, Id>): Relations {
    r.(parent := MapOption(r.parent, m), belongsTo := MapOption(r.belongsTo, m), ownedBy := MapOption(r.ownedBy, m),
       form := MapOption(r.form, m), submitControl := MapOption(r.submitControl, m))
  }

  function RenameManys(r: Relations, m: map<Id, Id>): Relations {
    r.(children := MapList(r.children, m), labelledBy := MapList(r.labelledBy, m), describedBy := MapList(r.describedBy, m),
       controls := MapList(r.controls, m), controlledBy := MapList(r.controlledBy, m), owns := MapList(r.owns, m),
       fields := MapList(r.fields, m), items := MapList(r.items, m), rows := MapList(r.rows, m),
       cells := MapList(r.cells, m), headers := MapList(r.headers, m))
  }

  /** The single-valued and the many-valued relations make up all of them. */
  lemma MentionsSplit(r: Relations, m: map<Id, Id>)
    ensures Mentions(r) == Singles(r) + Manys(r)
    ensures Manys(RenameSingles(r, m)) == Manys(r)
    ensures RenameManys(RenameSingles(r, m), m) == RenameRelations(r, m)
  {
  }

  lemma NoLandmarks()
    ensures LandmarkIds([]) == {}
  {
  }

  lemma LandmarksAt(ls: seq<Landmark>, i: nat, seen: set<Id>, m: map<Id, Id>)
    requires i < |ls|
    ensures ls[i].objectId in LandmarkIds(ls)
    ensures seen + LandmarkIds(ls[..i + 1]) == seen + LandmarkIds(ls[..i]) + {ls[i].objectId}
    ensures RenameLandmarks(ls[..i + 1], m) == RenameLandmarks(ls[..i], m) + [ls[i].(objectId := MapId(ls[i].objectId, m))]
  {
    assert ls[..i + 1] == ls[..i] + [ls[i]];
    assert forall x :: x in ls[..i] + [ls[i]] <==> x in ls[..i] || x == ls[i];
  }

  lemma ObjectIdsAt(ps: seq<Projection>, i: nat, seen: set<Id>)
    requires i < |ps|
    ensures ProjectionIds(ps[i]) <= ObjectIds(ps)
    ensures seen + ObjectIds(ps[..i + 1]) == seen + ObjectIds(ps[..i]) + ProjectionIds(ps[i])
  {
    assert ps[i] in ps;
    assert ps[..i + 1][..i] == ps[..i];
  }

  lemma RenameProjectionsAt(ps: seq<Projection>, i: nat, m: map<Id, Id>)
    requires i < |ps|
    ensures RenameProjections(ps[..i + 1], m) == RenameProjections(ps[..i], m) + [RenameProjection(ps[i], m)]
  {
  }

  function AddedIds(c: ChangeSet): (r: seq<Id>)
    ensures |r| == |c.added| && forall i :: 0 <= i < |r| ==> r[i] == c.added[i].id
  {
    seq(|c.added|, i requires 0 <= i < |c.added| => c.added[i].id)
  }

  function ChangedObjectIds(c: ChangeSet): (r: seq<Id>)
    ensures |r| == |c.updated| && forall i :: 0 <= i < |r| ==> r[i] == c.updated[i].id
  {
    seq(|c.updated|, i requires 0 <= i < |c.updated| => c.updated[i].id)
  }

  lemma ChangeIdsSplit(c: ChangeSet)
    ensures ChangeIds(c) == Elements(AddedIds(c)) + Elements(ChangedObjectIds(c)) + Elements(c.removed) + Elements(c.invalidated)
  {
    assert Elements(AddedIds(c)) == set s | s in c.added :: s.id by {
      forall s | s in c.added ensures s.id in Elements(AddedIds(c)) {
        var i :| 0 <= i < |c.added| && c.added[i] == s;
        assert AddedIds(c)[i] == s.id;
      }
    }
    assert Elements(ChangedObjectIds(c)) == set u | u in c.updated :: u.id by {
      forall u | u in c.updated ensures u.id in Elements(ChangedObjectIds(c)) {
        var i :| 0 <= i < |c.updated| && c.updated[i] == u;
        assert ChangedObjectIds(c)[i] == u.id;
      }
    }
  }

  class GlobalRouteRegistry {
    var tabs: Table
    var objects: Table

    ghost predicate Valid()
      reads this
    {
      Inverse(tabs, TabId) && Inverse(objects, ObjectId)
    }

    constructor ()
      ensures Valid() && tabs == EMPTY && objects == EMPTY
    {
      tabs, objects := EMPTY, EMPTY;
    }

    method BindTab(session: nat, profile: string, generation: nat, local: Id) returns (route: Route)
      requires Valid()
      modifies this`tabs
      ensures Valid() && tabs == Bind(old(tabs), TabId, session, profile, generation, local)
      ensures route.id == Routed(TabId, session, generation, local)
      ensures KeyOf(route) in tabs.byLocal && tabs.byLocal[KeyOf(route)] == route
    {
      BindKeepsInverse(tabs, TabId, session, profile, generation, local);
      var key := (session, generation, local);
      if key in tabs.byLocal {
        assert LocalEntry(tabs, TabId, key);
        return tabs.byLocal[key];
      }
      route := RouteFor(TabId, session, profile, generation, local);
      tabs := Table(tabs.byPublic[route.id := route], tabs.byLocal[key := route]);
    }

    method BindObject(session: nat, profile: string, generation: nat, local: Id) returns (route: Route)
      requires Valid()
      modifies this`objects
      ensures Valid() && objects == Bind(old(objects), ObjectId, session, profile, generation, local)
      ensures route.id == Routed(ObjectId, session, generation, local)
      ensures KeyOf(route) in objects.byLocal && objects.byLocal[KeyOf(route)] == route
    {
      BindKeepsInverse(objects, ObjectId, session, profile, generation, local);
      var key := (session, generation, local);
      if key in objects.byLocal {
        assert LocalEntry(objects, ObjectId, key);
        return objects.byLocal[key];
      }
      route := RouteFor(ObjectId, session, profile, generation, local);
      objects := Table(objects.byPublic[route.id := route], objects.byLocal[key := route]);
    }

    method ResolveTab(value: Id) returns (route: Option<Route>)
      requires Valid()
      ensures route == Get(tabs.byPublic, value)
      ensures route.Some? ==> value == Routed(TabId, route.value.session, route.value.generation, route.value.local)
    {
      route := Get(tabs.byPublic, value);
      if route.Some? {
        assert PublicEntry(tabs, value);
        assert LocalEntry(tabs, TabId, KeyOf(route.value));
      }
    }

    method RequireLocalObject(value: Id, session: nat, generation: nat) returns (answer: Result<Id, ()>)
      ensures answer == Localize(objects, value, session, generation)
    {
      if value !in objects.byPublic {
        return Ok(value);
      }
      var route := objects.byPublic[value];
      if route.session != session || route.generation != generation {
        return Err(());
      }
      answer := Ok(route.local);
    }

    // ------------------------------------------------------------------
    // Projecting a page state
    // ------------------------------------------------------------------

    // In the helpers below `start` is the table when the projection began, `seen` the ids routed
    // since, and `all` every id of the state.

    method Project(id: Id, p: Place, ghost all: set<Id>, ghost start: Table, ghost seen: set<Id>) returns (r: Id)
      requires Valid() && id in all && Routing(start, objects, p, seen)
      modifies this`objects
      ensures Valid() && Routing(start, objects, p, seen + {id})
      ensures r == MapId(id, PublishingAt(p, all))
    {
      if id == BLANK {
        BoundNone(objects, ObjectId, p.session, p.profile, p.generation, {id});
        BoundMore(start, objects, objects, ObjectId, p.session, p.profile, p.generation, seen, {id});
        return id;
      }
      ghost var before := objects;
      BoundOne(objects, ObjectId, p.session, p.profile, p.generation, id);
      var route := BindObject(p.session, p.profile, p.generation, id);
      BoundMore(start, before, objects, ObjectId, p.session, p.profile, p.generation, seen, {id});
      r := route.id;
    }

    method ProjectOption(id: Option<Id>, p: Place, ghost all: set<Id>, ghost start: Table, ghost seen: set<Id>)
      returns (r: Option<Id>)
      requires Valid() && OptionSet(id) <= all && Routing(start, objects, p, seen)
      modifies this`objects
      ensures Valid() && Routing(start, objects, p, seen + OptionSet(id))
      ensures r == MapOption(id, PublishingAt(p, all))
    {
      hide Routing, Inverse, PublishingAt;
      if id.None? {
        assert seen + OptionSet(id) == seen;
        return None;
      }
      var value := Project(id.value, p, all, start, seen);
      r := Some(value);
    }

    method ProjectList(ids: seq<Id>, p: Place, ghost all: set<Id>, ghost start: Table, ghost seen: set<Id>)
      returns (r: seq<Id>)
      requires Valid() && Elements(ids) <= all && Routing(start, objects, p, seen)
      modifies this`objects
      ensures Valid() && Routing(start, objects, p, seen + Elements(ids))
      ensures r == MapList(ids, PublishingAt(p, all))
    {
      hide Routing, Inverse, PublishingAt;
      r := [];
      assert seen + Elements(ids[..0]) == seen;
      for i := 0 to |ids|
        invariant Valid() && Routing(start, objects, p, seen + Elements(ids[..i]))
        invariant |r| == i && forall j :: 0 <= j < i ==> r[j] == MapId(ids[j], PublishingAt(p, all))
      {
        assert ids[i] in Elements(ids);
        var value := Project(ids[i], p, all, start, seen + Elements(ids[..i]));
        assert seen + Elements(ids[..i + 1]) == seen + Elements(ids[..i]) + {ids[i]};
        r := r + [value];
      }
      assert ids[..|ids|] == ids;
    }

    method ProjectLandmarks(ls: seq<Landmark>, p: Place, ghost all: set<Id>, ghost start: Table, ghost seen: set<Id>)
      returns (r: seq<Landmark>)
      requires Valid() && LandmarkIds(ls) <= all && Routing(start, objects, p, seen)
      modifies this`objects
      ensures Valid() && Routing(start, objects, p, seen + LandmarkIds(ls))
      ensures r == RenameLandmarks(ls, PublishingAt(p, all))
    {
      hide Routing, Inverse, PublishingAt, LandmarkIds;
      r := [];
      NoLandmarks();
      assert seen + LandmarkIds(ls[..0]) == seen;
      for i := 0 to |ls|
        invariant Valid() && Routing(start, objects, p, seen + LandmarkIds(ls[..i]))
        invariant r == RenameLandmarks(ls[..i], PublishingAt(p, all))
      {
        LandmarksAt(ls, i, seen, PublishingAt(p, all));
        var value := Project(ls[i].objectId, p, all, start, seen + LandmarkIds(ls[..i]));
        r := r + [ls[i].(objectId := value)];
      }
      assert ls[..|ls|] == ls;
    }

    method ProjectSingles(x: Relations, p: Place, ghost all: set<Id>, ghost start: Table, ghost seen: set<Id>)
      returns (r: Relations)
      requires Valid() && Singles(x) <= all && Routing(start, objects, p, seen)
      modifies this`objects
      ensures Valid() && Routing(start, objects, p, seen + Singles(x))
      ensures r == RenameSingles(x, PublishingAt(p, all))
    {
      hide Routing, Inverse, PublishingAt, MapOption;
      ghost var done := seen;
      var parent := ProjectOption(x.parent, p, all, start, done);
      done := done + OptionSet(x.parent);
      var belongsTo := ProjectOption(x.belongsTo, p, all, start, done);
      done := done + OptionSet(x.belongsTo);
      var ownedBy := ProjectOption(x.ownedBy, p, all, start, done);
      done := done + OptionSet(x.ownedBy);
      var form := ProjectOption(x.form, p, all, start, done);
      done := done + OptionSet(x.form);
      var submitControl := ProjectOption(x.submitControl, p, all, start, done);
      assert done + OptionSet(x.submitControl) == seen + Singles(x);
      r := x.(parent := parent, belongsTo := belongsTo, ownedBy := ownedBy, form := form, submitControl := submitControl);
    }

    method ProjectManys(x: Relations, p: Place, ghost all: set<Id>, ghost start: Table, ghost seen: set<Id>)
      returns (r: Relations)
      requires Valid() && Manys(x) <= all && Routing(start, objects, p, seen)
      modifies this`objects
      ensures Valid() && Routing(start, objects, p, seen + Manys(x))
      ensures r == RenameManys(x, PublishingAt(p, all))
    {
      hide Routing, Inverse, PublishingAt, MapOption;
      ghost var done := seen;
      var children := ProjectList(x.children, p, all, start, done);
      done := done + Elements(x.children);
      var labelledBy := ProjectList(x.labelledBy, p, all, start, done);
      done := done + Elements(x.labelledBy);
      var describedBy := ProjectList(x.describedBy, p, all, start, done);
      done := done + Elements(x.describedBy);
      var controls := ProjectList(x.controls, p, all, start, done);
      done := done + Elements(x.controls);
      var controlledBy := ProjectList(x.controlledBy, p, all, start, done);
      done := done + Elements(x.controlledBy);
      var owns := ProjectList(x.owns, p, all, start, done);
      done := done + Elements(x.owns);
      var fields := ProjectList(x.fields, p, all, start, done);
      done := done + Elements(x.fields);
      var items := ProjectList(x.items, p, all, start, done);
      done := done + Elements(x.items);
      var rows := ProjectList(x.rows, p, all, start, done);
      done := done + Elements(x.rows);
      var cells := ProjectList(x.cells, p, all, start, done);
      done := done + Elements(x.cells);
      var headers := ProjectList(x.headers, p, all, start, done);
      assert done + Elements(x.headers) == seen + Manys(x);
      r := x.(children := children, labelledBy := labelledBy, describedBy := describedBy, controls := controls,
              controlledBy := controlledBy, owns := owns, fields := fields, items := items, rows := rows,
              cells := cells, headers := headers);
    }

    method ProjectProjection(x: Projection, p: Place, ghost all: set<Id>, ghost start: Table, ghost seen: set<Id>)
      returns (r: Projection)
      requires Valid() && ProjectionIds(x) <= all && Routing(start, objects, p, seen)
      modifies this`objects
      ensures Valid() && Routing(start, objects, p, seen + ProjectionIds(x))
      ensures r == RenameProjection(x, PublishingAt(p, all))
    {
      hide Routing, Inverse, PublishingAt, MapOption;
      match x
      case Brief(summary) =>
        var id := Project(summary.id, p, all, start, seen);
        r := Brief(summary.(id := id));
      case Full(o) =>
        MentionsSplit(o.relations, PublishingAt(p, all));
        var id := Project(o.id, p, all, start, seen);
        var singles := ProjectSingles(o.relations, p, all, start, seen + {o.id});
        var relations := ProjectManys(singles, p, all, start, seen + {o.id} + Singles(o.relations));
        assert seen + {o.id} + Singles(o.relations) + Manys(o.relations) == seen + ProjectionIds(x);
        r := Full(o.(id := id, relations := relations));
    }

    method ProjectObjects(ps: seq<Projection>, p: Place, ghost all: set<Id>, ghost start: Table, ghost seen: set<Id>)
      returns (r: seq<Projection>)
      requires Valid() && ObjectIds(ps) <= all && Routing(start, objects, p, seen)
      modifies this`objects
      ensures Valid() && Routing(start, objects, p, seen + ObjectIds(ps))
      ensures r == RenameProjections(ps, PublishingAt(p, all))
    {
      hide Routing, Inverse, PublishingAt;
      r := [];
      assert seen + ObjectIds(ps[..0]) == seen;
      for i := 0 to |ps|
        invariant Valid() && Routing(start, objects, p, seen + ObjectIds(ps[..i]))
        invariant r == RenameProjections(ps[..i], PublishingAt(p, all))
      {
        ObjectIdsAt(ps, i, seen);
        RenameProjectionsAt(ps, i, PublishingAt(p, all));
        var value := ProjectProjection(ps[i], p, all, start, seen + ObjectIds(ps[..i]));
        r := r + [value];
      }
      assert ps[..|ps|] == ps;
    }

    method ProjectChanges(c: ChangeSet, p: Place, ghost all: set<Id>, ghost start: Table, ghost seen: set<Id>)
      returns (r: ChangeSet)
      requires Valid() && ChangeIds(c) <= all && Routing(start, objects, p, seen)
      modifies this`objects
      ensures Valid() && Routing(start, objects, p, seen + ChangeIds(c))
      ensures r == RenameChanges(c, PublishingAt(p, all))
    {
      hide Routing, Inverse, PublishingAt, MapOption;
      ghost var done := seen;
      ChangeIdsSplit(c);
      var added := ProjectList(AddedIds(c), p, all, start, done);
      done := done + Elements(AddedIds(c));
      var updated := ProjectList(ChangedObjectIds(c), p, all, start, done);
      done := done + Elements(ChangedObjectIds(c));
      var removed := ProjectList(c.removed, p, all, start, done);
      done := done + Elements(c.removed);
      var invalidated := ProjectList(c.invalidated, p, all, start, done);
      assert done + Elements(c.invalidated) == seen + ChangeIds(c);
      r := c.(added := seq(|c.added|, i requires 0 <= i < |c.added| => c.added[i].(id := added[i])),
              updated := seq(|c.updated|, i requires 0 <= i < |c.updated| => c.updated[i].(id := updated[i])),
              removed := removed, invalidated := invalidated);
    }

    /** Publishes a whole page state: one injective renaming, and a route for every id in it. */
    method ProjectWebState(s: WebState, profile: string, generation: nat) returns (r: WebState)
      requires Valid()
      modifies this`objects
      ensures Valid() && BoundAll(old(objects), objects, ObjectId, s.session, profile, generation, StateIds(s))
      ensures r == RenameState(s, Publishing(s.session, generation, StateIds(s)))
    {
      var p := Place(s.session, profile, generation);
      ghost var all, start, done := StateIds(s), objects, {};
      BoundNone(objects, ObjectId, p.session, p.profile, p.generation, {});
      var outline := ProjectLandmarks(s.outline, p, all, start, done);
      done := done + LandmarkIds(s.outline);
      var regions := ProjectLandmarks(s.regions, p, all, start, done);
      done := done + LandmarkIds(s.regions);
      var items := ProjectObjects(s.objects, p, all, start, done);
      done := done + ObjectIds(s.objects);
      var changes: Option<ChangeSet> := None;
      if s.changes.Some? {
        var published := ProjectChanges(s.changes.value, p, all, start, done);
        done := done + ChangeIds(s.changes.value);
        changes := Some(published);
      }
      var target := ProjectOption(s.document.takeover.target, p, all, start, done);
      assert done + OptionSet(s.document.takeover.target) == StateIds(s);
      r := WebState(s.session, s.document.(takeover := s.document.takeover.(target := target)), outline, regions, items, changes);
    }

    method InvalidateSession(session: nat)
      requires Valid()
      modifies this
      ensures Valid() && tabs == Invalidate(old(tabs), session) && objects == Invalidate(old(objects), session)
    {
      InvalidateKeepsInverse(tabs, TabId, session);
      InvalidateKeepsInverse(objects, ObjectId, session);
      tabs := Forget(tabs, TabId, session);
      objects := Forget(objects, ObjectId, session);
    }

    /** Pops every public id of the session, and its local key. */
    static method Forget(t: Table, kind: RouteKind, session: nat) returns (r: Table)
      requires Inverse(t, kind)
      ensures r == Invalidate(t, session)
    {
      hide Inverse, Forgetting, Invalidate;
      r := t;
      var rest := t.byPublic.Keys;
      ForgettingStart(t, kind, session);
      while rest != {}
        invariant rest <= t.byPublic.Keys && Forgetting(t, r, session, rest)
        decreases |rest|
      {
        var p :| p in rest;
        var route := t.byPublic[p];
        ForgettingStep(t, r, kind, session, rest, p);
        if route.session == session {
          r := Table(r.byPublic - {p}, r.byLocal - {KeyOf(route)});
        }
        rest := rest - {p};
      }
      ForgettingDone(t, r, kind, session);
    }
  }

  /** Whether a route survives while the public ids in `rest` are still to be looked at. */
  predicate Kept(r: Route, session: nat, rest: set<Id>) {
    r.session != session || r.id in rest
  }

  ghost predicate Forgetting(t: Table, r: Table, session: nat, rest: set<Id>) {
    && (forall p :: p in r.byPublic <==> p in t.byPublic && Kept(t.byPublic[p], session, rest))
    && (forall p :: p in r.byPublic ==> r.byPublic[p] == t.byPublic[p])
    && (forall k :: k in r.byLocal <==> k in t.byLocal && Kept(t.byLocal[k], session, rest))
    && (forall k :: k in r.byLocal ==> r.byLocal[k] == t.byLocal[k])
  }

  lemma ForgettingStart(t: Table, kind: RouteKind, session: nat)
    requires Inverse(t, kind)
    ensures Forgetting(t, t, session, t.byPublic.Keys)
  {
    forall p | p in t.byPublic ensures Kept(t.byPublic[p], session, t.byPublic.Keys) {
      assert PublicEntry(t, p);
    }
    forall k | k in t.byLocal ensures Kept(t.byLocal[k], session, t.byPublic.Keys) {
      assert LocalEntry(t, kind, k);
    }
  }

  lemma ForgettingStep(t: Table, r: Table, kind: RouteKind, session: nat, rest: set<Id>, p: Id)
    requires Inverse(t, kind) && Forgetting(t, r, session, rest) && p in rest && p in t.byPublic
    ensures Forgetting(t, if t.byPublic[p].session == session then Table(r.byPublic - {p}, r.byLocal - {KeyOf(t.byPublic[p])}) else r,
                       session, rest - {p})
  {
    var route := t.byPublic[p];
    assert PublicEntry(t, p);
    forall q | q in t.byPublic
      ensures Kept(t.byPublic[q], session, rest - {p}) <==> Kept(t.byPublic[q], session, rest) && !(q == p && route.session == session)
    {
      assert PublicEntry(t, q);
    }
    forall k | k in t.byLocal
      ensures Kept(t.byLocal[k], session, rest - {p}) <==> Kept(t.byLocal[k], session, rest) && !(k == KeyOf(route) && route.session == session)
    {
      assert LocalEntry(t, kind, k);
    }
  }

  lemma ForgettingDone(t: Table, r: Table, kind: RouteKind, session: nat)
    requires Inverse(t, kind) && Forgetting(t, r, session, {})
    ensures r == Invalidate(t, session)
  {
    forall k | k in t.byLocal ensures t.byLocal[k].session == k.0 {
      assert LocalEntry(t, kind, k);
    }
    assert r.byPublic == Invalidate(t, session).byPublic;
    assert r.byLocal == Invalidate(t, session).byLocal;
  }
}
