/** What publishing a page state does to it: every id becomes public, nothing else changes, and
    renaming back gives the session's own state. */
module RouteProjection {
  import opened Prelude
  import opened WebObjects
  import opened RegistryModel
  import opened Routes

  /** The session's ids, by their public ones. */
  function Unpublish(m: map<Id, Id>): (back: map<Id, Id>)
    requires Injective(m)
    ensures back.Keys == m.Values
    ensures forall id :: id in m ==> back[m[id]] == id
  {
    map id | id in m :: m[id] := id
  }

  ghost predicate ComeBack(ids: set<Id>, m: map<Id, Id>, back: map<Id, Id>) {
    forall id :: id in ids ==> MapId(MapId(id, m), back) == id
  }

  lemma LandmarksBack(ls: seq<Landmark>, m: map<Id, Id>, back: map<Id, Id>)
    requires ComeBack(LandmarkIds(ls), m, back)
    ensures RenameLandmarks(RenameLandmarks(ls, m), back) == ls
  {
    var again := RenameLandmarks(RenameLandmarks(ls, m), back);
    forall i | 0 <= i < |ls| ensures again[i] == ls[i] {
      assert ls[i].objectId in LandmarkIds(ls);
    }
  }

  lemma ProjectionsBack(ps: seq<Projection>, m: map<Id, Id>, back: map<Id, Id>)
    requires ComeBack(ObjectIds(ps), m, back)
    ensures RenameProjections(RenameProjections(ps, m), back) == ps
  {
    hide Mentions, RenameRelations;
    var again := RenameProjections(RenameProjections(ps, m), back);
    forall i | 0 <= i < |ps| ensures again[i] == ps[i] {
      assert ps[i] in ps;
      if ps[i].Full? {
        RenameInverse(ps[i].item.relations, m, back);
      }
    }
  }

  lemma ChangesBack(c: ChangeSet, m: map<Id, Id>, back: map<Id, Id>)
    requires ComeBack(ChangeIds(c), m, back)
    ensures RenameChanges(RenameChanges(c, m), back) == c
  {
    var again := RenameChanges(RenameChanges(c, m), back);
    forall i | 0 <= i < |c.added| ensures again.added[i] == c.added[i] {
      assert c.added[i].id in ChangeIds(c);
    }
    forall i | 0 <= i < |c.updated| ensures again.updated[i] == c.updated[i] {
      assert c.updated[i].id in ChangeIds(c);
    }
    MapListInverse(c.removed, m, back);
    MapListInverse(c.invalidated, m, back);
  }

  lemma StateBack(s: WebState, m: map<Id, Id>, back: map<Id, Id>)
    requires ComeBack(StateIds(s), m, back)
    ensures RenameState(RenameState(s, m), back) == s
  {
    hide LandmarkIds, ObjectIds, ChangeIds, RenameLandmarks, RenameProjections, RenameChanges;
    LandmarksBack(s.outline, m, back);
    LandmarksBack(s.regions, m, back);
    ProjectionsBack(s.objects, m, back);
    if s.changes.Some? {
      ChangesBack(s.changes.value, m, back);
    }
  }

  /** Publishing loses nothing and touches nothing but ids. */
  lemma ProjectionReversible(s: WebState, generation: nat)
    ensures var m := Publishing(s.session, generation, StateIds(s));
      Injective(m) && RenameState(RenameState(s, m), Unpublish(m)) == s
  {
    hide StateIds, RenameState;
    var m := Publishing(s.session, generation, StateIds(s));
    forall id | id in StateIds(s) ensures MapId(MapId(id, m), Unpublish(m)) == id {
      if id == BLANK && BLANK in m.Values {
        assert false;
      }
    }
    StateBack(s, m, Unpublish(m));
  }

  // ---------------------------------------------------------------------------
  // Nothing local remains
  // ---------------------------------------------------------------------------

  /** The public ids of a state in its session and generation, and the empty id. */
  function PublicIds(s: WebState, generation: nat): set<Id> {
    {BLANK} + set id | id in StateIds(s) :: Routed(ObjectId, s.session, generation, id)
  }

  lemma LandmarksInside(ls: seq<Landmark>, m: map<Id, Id>, source: set<Id>, target: set<Id>)
    requires LandmarkIds(ls) <= source && MapsInto(m, source, target)
    ensures LandmarkIds(RenameLandmarks(ls, m)) <= target
  {
    var r := RenameLandmarks(ls, m);
    forall l | l in r ensures l.objectId in target {
      var i :| 0 <= i < |r| && r[i] == l;
      assert ls[i].objectId in LandmarkIds(ls);
    }
  }

  lemma {:induction false} ProjectionsInside(ps: seq<Projection>, m: map<Id, Id>, source: set<Id>, target: set<Id>)
    requires ObjectIds(ps) <= source && MapsInto(m, source, target)
    ensures ObjectIds(RenameProjections(ps, m)) <= target
  {
    hide Mentions, RenameRelations;
    if ps != [] {
      var n := |ps| - 1;
      ProjectionsInside(ps[..n], m, source, target);
      var r := RenameProjections(ps, m);
      assert r[..n] == RenameProjections(ps[..n], m);
      assert ps[n] in ps && ProjectionIds(ps[n]) <= source;
      if ps[n].Full? {
        MentionsInside(ps[n].item.relations, m, source, target);
      }
      assert r[n] == RenameProjection(ps[n], m);
    }
  }

  lemma ChangesInside(c: ChangeSet, m: map<Id, Id>, source: set<Id>, target: set<Id>)
    requires ChangeIds(c) <= source && MapsInto(m, source, target)
    ensures ChangeIds(RenameChanges(c, m)) <= target
  {
    var r := RenameChanges(c, m);
    ListInside(c.removed, m, source, target);
    ListInside(c.invalidated, m, source, target);
    forall x | x in r.added ensures x.id in target {
      var i :| 0 <= i < |r.added| && r.added[i] == x;
      assert c.added[i].id in ChangeIds(c);
    }
    forall x | x in r.updated ensures x.id in target {
      var i :| 0 <= i < |r.updated| && r.updated[i] == x;
      assert c.updated[i].id in ChangeIds(c);
    }
  }

  lemma StateInside(s: WebState, m: map<Id, Id>, target: set<Id>)
    requires MapsInto(m, StateIds(s), target)
    ensures StateIds(RenameState(s, m)) <= target
  {
    hide LandmarkIds, ObjectIds, ChangeIds, RenameLandmarks, RenameProjections, RenameChanges;
    LandmarksInside(s.outline, m, StateIds(s), target);
    LandmarksInside(s.regions, m, StateIds(s), target);
    ProjectionsInside(s.objects, m, StateIds(s), target);
    if s.changes.Some? {
      ChangesInside(s.changes.value, m, StateIds(s), target);
    }
  }

  /** A published state mentions public ids of its own session and generation only. */
  lemma NothingLocalPublished(s: WebState, generation: nat)
    ensures StateIds(RenameState(s, Publishing(s.session, generation, StateIds(s)))) <= PublicIds(s, generation)
  {
    hide StateIds, RenameState;
    StateInside(s, Publishing(s.session, generation, StateIds(s)), PublicIds(s, generation));
  }

  // ---------------------------------------------------------------------------
  // Field by field
  // ---------------------------------------------------------------------------

  /** Where a page is published from. */
  datatype Place = Place(session: nat, generation: nat)

  function PublicId(id: Id, at: Place): Id {
    if id == BLANK then id else Routed(ObjectId, at.session, at.generation, id)
  }

  predicate PublicList(published: seq<Id>, ids: seq<Id>, at: Place) {
    |published| == |ids| && forall i :: 0 <= i < |ids| ==> published[i] == PublicId(ids[i], at)
  }

  predicate PublicLandmarks(published: seq<Landmark>, marks: seq<Landmark>, at: Place) {
    && |published| == |marks|
    && forall i :: 0 <= i < |marks| ==> published[i] == marks[i].(objectId := PublicId(marks[i].objectId, at))
  }

  /** The same object or summary under its public id, each relation naming public ids in its place. */
  ghost predicate PublicProjection(published: Projection, p: Projection, at: Place) {
    match (published, p)
    case (Full(x), Full(o)) =>
      && x == o.(id := PublicId(o.id, at), relations := x.relations)
      && forall name :: PublicList(Related(x.relations, name), Related(o.relations, name), at)
    case (Brief(x), Brief(summary)) => x == summary.(id := PublicId(summary.id, at))
    case _ => false
  }

  predicate PublicChanges(published: ChangeSet, c: ChangeSet, at: Place) {
    && published == c.(added := published.added, updated := published.updated, removed := published.removed,
                       invalidated := published.invalidated)
    && |published.added| == |c.added| && |published.updated| == |c.updated|
    && (forall i :: 0 <= i < |c.added| ==> published.added[i] == c.added[i].(id := PublicId(c.added[i].id, at)))
    && (forall i :: 0 <= i < |c.updated| ==> published.updated[i] == c.updated[i].(id := PublicId(c.updated[i].id, at)))
    && PublicList(published.removed, c.removed, at) && PublicList(published.invalidated, c.invalidated, at)
  }

  /** Every part of the published page is the session's own under public ids, and in its place. */
  ghost predicate PublicPage(published: WebState, s: WebState, at: Place) {
    && published.session == s.session
    && published.document == s.document.(takeover := s.document.takeover.(target := published.document.takeover.target))
    && PublicList(OptionList(published.document.takeover.target), OptionList(s.document.takeover.target), at)
    && PublicLandmarks(published.outline, s.outline, at) && PublicLandmarks(published.regions, s.regions, at)
    && |published.objects| == |s.objects|
    && (forall i :: 0 <= i < |s.objects| ==> PublicProjection(published.objects[i], s.objects[i], at))
    && (published.changes.Some? <==> s.changes.Some?)
    && (s.changes.Some? ==> PublicChanges(published.changes.value, s.changes.value, at))
  }

  /** The renaming that publishes a page gives each of its ids its public one. */
  ghost predicate Publishes(m: map<Id, Id>, ids: set<Id>, at: Place) {
    forall id :: id in ids ==> MapId(id, m) == PublicId(id, at)
  }

  lemma ListPublished(ids: seq<Id>, m: map<Id, Id>, all: set<Id>, at: Place)
    requires Elements(ids) <= all && Publishes(m, all, at)
    ensures PublicList(MapList(ids, m), ids, at)
  {
    assert forall i :: 0 <= i < |ids| ==> ids[i] in Elements(ids);
  }

  lemma LandmarksPublished(marks: seq<Landmark>, m: map<Id, Id>, all: set<Id>, at: Place)
    requires LandmarkIds(marks) <= all && Publishes(m, all, at)
    ensures PublicLandmarks(RenameLandmarks(marks, m), marks, at)
  {
    assert forall i :: 0 <= i < |marks| ==> marks[i].objectId in LandmarkIds(marks);
  }

  lemma ProjectionPublished(p: Projection, m: map<Id, Id>, all: set<Id>, at: Place)
    requires ProjectionIds(p) <= all && Publishes(m, all, at)
    ensures PublicProjection(RenameProjection(p, m), p, at)
  {
    hide Mentions, RenameRelations, Related, PublicList;
    match p
    case Brief(summary) => assert summary.id in all;
    case Full(o) =>
      assert o.id in all;
      forall name ensures PublicList(Related(RenameRelations(o.relations, m), name), Related(o.relations, name), at) {
        RenamesEachRelation(o.relations, m, name);
        RelatedMentioned(o.relations, name);
        ListPublished(Related(o.relations, name), m, all, at);
      }
  }

  lemma ChangesPublished(c: ChangeSet, m: map<Id, Id>, all: set<Id>, at: Place)
    requires ChangeIds(c) <= all && Publishes(m, all, at)
    ensures PublicChanges(RenameChanges(c, m), c, at)
  {
    ListPublished(c.removed, m, all, at);
    ListPublished(c.invalidated, m, all, at);
    assert forall i :: 0 <= i < |c.added| ==> c.added[i] in c.added && c.added[i].id in ChangeIds(c);
    assert forall i :: 0 <= i < |c.updated| ==> c.updated[i] in c.updated && c.updated[i].id in ChangeIds(c);
  }

  /** Publishing a page changes its ids and nothing else, each part in its place. */
  lemma PublishedExactly(s: WebState, generation: nat)
    ensures PublicPage(RenameState(s, Publishing(s.session, generation, StateIds(s))), s, Place(s.session, generation))
  {
    hide LandmarkIds, ObjectIds, ChangeIds, RenameLandmarks, RenameProjection, RenameChanges, PublicLandmarks, PublicProjection,
      PublicChanges;
    var ids, at := StateIds(s), Place(s.session, generation);
    var m := Publishing(s.session, generation, ids);
    assert Publishes(m, ids, at);
    LandmarksPublished(s.outline, m, ids, at);
    LandmarksPublished(s.regions, m, ids, at);
    forall i | 0 <= i < |s.objects| ensures PublicProjection(RenameProjections(s.objects, m)[i], s.objects[i], at) {
      assert s.objects[i] in s.objects;
      ProjectionPublished(s.objects[i], m, ids, at);
    }
    if s.changes.Some? {
      ChangesPublished(s.changes.value, m, ids, at);
    }
  }
}
