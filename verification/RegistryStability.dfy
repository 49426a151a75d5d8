/** Observing the same page again: recognizable objects keep id and version, and the registry
    reports no change exactly when every object is recognizable. */
module RegistryStability {
  import opened Prelude
  import opened WebObjects
  import opened IdentityMatching
  import opened Reobservation
  import opened RegistryModel
  import opened RegistryStep

  /** Every relation and the takeover target stay inside the page. */
  ghost predicate Closed(s: Snapshot) {
    && (forall o :: o in s.objects ==> Mentions(o.relations) <= IdSet(s.objects))
    && OptionSet(s.document.takeover.target) <= IdSet(s.objects)
  }

  /** `listing` holds the same objects in any order. */
  ghost predicate Reordering(objects: seq<WebObject>, listing: seq<WebObject>) {
    DistinctIds(listing) && Elements(listing) == Elements(objects)
  }

  /** The compilation shows the page of `s` again: its objects in the order of `listing`, with
      every id replaced through `rename`, and the same evidence and document. */
  ghost predicate Resighting(s: Snapshot, c: Compilation, listing: seq<WebObject>, rename: map<Id, Id>) {
    var incoming := FullObjects(c.objects);
    && Reordering(s.objects, listing)
    && rename.Keys == IdSet(s.objects) && Injective(rename)
    && |incoming| == |listing|
    && (forall i :: 0 <= i < |listing| ==> incoming[i] == RenameObject(listing[i], rename).(version := incoming[i].version))
    && (forall id :: id in rename ==> Get(c.provenance, rename[id]) == Get(s.provenance, id))
    && c.document == RewrittenDocument(s.document, rename)
  }

  function Page(s: Snapshot): seq<Candidate> {
    Candidates(s.objects, s.provenance)
  }

  /** The candidates of the objects in `listing`, with parents looked up in the page. */
  function Listed(s: Snapshot, listing: seq<WebObject>): (r: seq<Candidate>)
    ensures |r| == |listing|
    ensures forall i :: 0 <= i < |listing| ==> r[i] == CandidateOf(listing[i], s.objects, s.provenance)
  {
    seq(|listing|, i requires 0 <= i < |listing| => CandidateOf(listing[i], s.objects, s.provenance))
  }

  lemma MemberOf<T>(a: seq<T>, b: seq<T>, x: T)
    requires Elements(a) == Elements(b)
    ensures x in a <==> x in b
  {
    assert x in Elements(a) <==> x in Elements(b);
  }

  lemma ListedSamePage(s: Snapshot, listing: seq<WebObject>)
    requires DistinctIds(s.objects) && Reordering(s.objects, listing)
    ensures SamePage(Page(s), Listed(s, listing))
  {
    CandidatesShape(s.objects, s.provenance);
    forall c | c in Page(s) ensures c in Listed(s, listing) {
      var i :| 0 <= i < |s.objects| && Page(s)[i] == c;
      MemberOf(s.objects, listing, s.objects[i]);
      var k :| 0 <= k < |listing| && listing[k] == s.objects[i];
      assert Listed(s, listing)[k] == c;
    }
    forall c | c in Listed(s, listing) ensures c in Page(s) {
      var k :| 0 <= k < |listing| && Listed(s, listing)[k] == c;
      MemberOf(s.objects, listing, listing[k]);
      var i :| 0 <= i < |s.objects| && s.objects[i] == listing[k];
      assert Page(s)[i] == c;
    }
  }

  lemma MentionsParent(r: Relations, p: Id)
    requires r.parent == Some(p)
    ensures p in Mentions(r)
  {
    assert p in OptionSet(r.parent);
  }

  /** A renamed object has the parent key of the original. */
  lemma RenamedParent(s: Snapshot, c: Compilation, listing: seq<WebObject>, rename: map<Id, Id>, i: nat)
    requires DistinctIds(s.objects) && Closed(s) && Resighting(s, c, listing, rename) && i < |listing|
    ensures ParentOf(FullObjects(c.objects)[i], FullObjects(c.objects)) == ParentOf(listing[i], s.objects)
  {
    var incoming := FullObjects(c.objects);
    MemberOf(s.objects, listing, listing[i]);
    if listing[i].relations.parent.Some? {
      var p := listing[i].relations.parent.value;
      MentionsParent(listing[i].relations, p);
      var q := Find(s.objects, p).value;
      MemberOf(s.objects, listing, q);
      var k :| 0 <= k < |listing| && listing[k] == q;
      assert incoming[k].id == rename[p];
      FindExact(incoming, incoming[k]);
    }
  }

  lemma ResightedCandidate(s: Snapshot, c: Compilation, listing: seq<WebObject>, rename: map<Id, Id>, i: nat)
    requires DistinctIds(s.objects) && Closed(s) && Resighting(s, c, listing, rename) && i < |listing|
    ensures listing[i].id in rename
    ensures CandidateOf(FullObjects(c.objects)[i], FullObjects(c.objects), c.provenance)
      == CandidateOf(listing[i], s.objects, s.provenance).(id := rename[listing[i].id])
  {
    MemberOf(s.objects, listing, listing[i]);
    RenamedParent(s, c, listing, rename, i);
  }

  lemma ResightedCandidates(s: Snapshot, c: Compilation, listing: seq<WebObject>, rename: map<Id, Id>)
    requires DistinctIds(s.objects) && Closed(s) && Resighting(s, c, listing, rename)
    requires CandidateIds(Listed(s, listing)) <= rename.Keys
    ensures Candidates(FullObjects(c.objects), c.provenance) == Rename(Listed(s, listing), rename)
  {
    var a, b := Candidates(FullObjects(c.objects), c.provenance), Rename(Listed(s, listing), rename);
    forall i | 0 <= i < |listing| ensures a[i] == b[i] {
      ResightedCandidate(s, c, listing, rename, i);
    }
  }

  /** The id the registry assigns to one object it sees again. */
  ghost predicate RecoveredOne(s: Snapshot, rename: map<Id, Id>, m: Matching, next: nat, o: WebObject) {
    && o.id in rename && rename[o.id] in m.ids
    && var id := m.ids[rename[o.id]];
      if Recognizable(Page(s), CandidateOf(o, s.objects, s.provenance)) then id == o.id
      else id.Allocated? && id.number >= next
  }

  ghost predicate Recovered(s: Snapshot, rename: map<Id, Id>, m: Matching, next: nat) {
    forall o :: o in s.objects ==> RecoveredOne(s, rename, m, next, o)
  }

  lemma MatchedAgain(r: Registry, c: Compilation, listing: seq<WebObject>, rename: map<Id, Id>)
    requires Valid(r) && r.current.Some? && Closed(r.current.value) && Resighting(r.current.value, c, listing, rename)
    ensures SameDocument(r, c)
    ensures Recovered(r.current.value, rename, Matched(r, c), r.next)
  {
    var s := r.current.value;
    CandidatesShape(s.objects, s.provenance);
    ListedSamePage(s, listing);
    ReobservationExact(Page(s), Listed(s, listing), rename, r.next);
    ResightedCandidates(s, c, listing, rename);
    forall o | o in s.objects
      ensures RecoveredOne(s, rename, Matched(r, c), r.next, o)
    {
      var i :| 0 <= i < |s.objects| && s.objects[i] == o;
      assert Page(s)[i] == CandidateOf(o, s.objects, s.provenance);
      assert Page(s)[i] in Page(s);
    }
  }

  ghost predicate AllRecognizable(s: Snapshot) {
    forall o :: o in s.objects ==> Recognizable(Page(s), CandidateOf(o, s.objects, s.provenance))
  }

  ghost predicate Inverse(rename: map<Id, Id>, ids: map<Id, Id>) {
    forall id :: id in rename ==> rename[id] in ids && ids[rename[id]] == id
  }

  /** Renaming back and versioning restores an object exactly. */
  lemma RestoredObject(objects: seq<WebObject>, o: WebObject, incoming: WebObject, rename: map<Id, Id>, ids: map<Id, Id>)
    requires DistinctIds(objects) && o in objects && o.version >= 1
    requires rename.Keys == IdSet(objects) && Inverse(rename, ids) && Mentions(o.relations) <= IdSet(objects)
    requires incoming == RenameObject(o, rename).(version := incoming.version)
    ensures var back := RenameObject(incoming, ids); Versioned(Find(objects, back.id), back) == o
  {
    RenameInverse(o.relations, rename, ids);
    FindExact(objects, o);
    var back := RenameObject(incoming, ids);
    assert back == o.(version := incoming.version);
    ChangedFieldsExact(o, back);
    assert Meaningful(o) == Meaningful(back);
  }

  lemma RestoredObjects(s: Snapshot, c: Compilation, listing: seq<WebObject>, rename: map<Id, Id>, ids: map<Id, Id>)
    requires DistinctIds(s.objects) && VersionsPositive(s.objects) && Closed(s)
    requires Resighting(s, c, listing, rename) && Inverse(rename, ids)
    ensures Reversioned(s.objects, Rewritten(FullObjects(c.objects), ids)) == listing
    ensures RewrittenDocument(c.document, ids) == s.document
  {
    var incoming := FullObjects(c.objects);
    forall i | 0 <= i < |listing|
      ensures Reversioned(s.objects, Rewritten(incoming, ids))[i] == listing[i]
    {
      MemberOf(s.objects, listing, listing[i]);
      RestoredObject(s.objects, listing[i], incoming[i], rename, ids);
    }
  }

  lemma SameTable(a: seq<WebObject>, b: seq<WebObject>)
    requires DistinctIds(a) && Reordering(a, b)
    ensures Table(a) == Table(b)
  {
    forall o | o in a ensures o in b {
      MemberOf(a, b, o);
    }
    forall o | o in b ensures o in a {
      MemberOf(a, b, o);
    }
    forall id | id in Table(a) ensures id in Table(b) && Table(a)[id] == Table(b)[id] {
      FindExact(b, Table(a)[id]);
    }
  }

  lemma NothingNew(previous: Snapshot, s: Snapshot)
    requires Unchanged(Some(previous), s) && DistinctIds(s.objects)
    requires VersionsGrow(Table(previous.objects), Table(s.objects)) && s.revision == previous.revision
    ensures StepChanges(Some(previous), true, s) == NoChange(s.revision)
  {
    MeaningfulExact(previous, s);
  }

  lemma IdsComeBack(s: Snapshot, rename: map<Id, Id>, m: Matching, next: nat)
    requires rename.Keys == IdSet(s.objects) && Recovered(s, rename, m, next) && AllRecognizable(s)
    ensures Inverse(rename, m.ids)
  {
    hide Recognizable;
    forall id | id in rename ensures rename[id] in m.ids && m.ids[rename[id]] == id {
      var o :| o in s.objects && o.id == id;
      assert RecoveredOne(s, rename, m, next, o);
    }
  }

  lemma ObjectsComeBack(r: Registry, c: Compilation, listing: seq<WebObject>, rename: map<Id, Id>)
    requires Valid(r) && r.current.Some? && Closed(r.current.value) && Resighting(r.current.value, c, listing, rename)
    requires AllRecognizable(r.current.value)
    ensures SameDocument(r, c)
    ensures Reversioned(r.current.value.objects, Rewritten(FullObjects(c.objects), Matched(r, c).ids)) == listing
    ensures RewrittenDocument(c.document, Matched(r, c).ids) == r.current.value.document
  {
    hide Closed, AllRecognizable, Reversioned, Rewritten, RewrittenDocument, Inverse, Matched;
    MatchedAgain(r, c, listing, rename);
    IdsComeBack(r.current.value, rename, Matched(r, c), r.next);
    RestoredObjects(r.current.value, c, listing, rename, Matched(r, c).ids);
  }

  /** If every object is recognizable, the second observation changes nothing: the same objects
      with the same ids and versions, the same revision, and an empty change set. */
  lemma ReobservationStable(r: Registry, c: Compilation, listing: seq<WebObject>, rename: map<Id, Id>)
    requires Valid(r) && r.current.Some? && Closed(r.current.value) && Resighting(r.current.value, c, listing, rename)
    requires AllRecognizable(r.current.value)
    ensures var u := Update(r, c);
      && u.snapshot.objects == listing && Table(u.snapshot.objects) == Table(CurrentObjects(r))
      && u.snapshot.document == r.current.value.document
      && u.snapshot.revision == Revision(r)
      && u.changes == NoChange(Revision(r))
  {
    hide AllRecognizable, Closed, Reversioned, Rewritten, RewrittenDocument, Matched;
    var s := r.current.value;
    ObjectsComeBack(r, c, listing, rename);
    SameTable(s.objects, listing);
    UpdateObjects(r, c);
    UpdateSound(r, c);
    NothingNew(s, Update(r, c).snapshot);
  }

  lemma LostId(s: Snapshot, c: Compilation, listing: seq<WebObject>, rename: map<Id, Id>, m: Matching, next: nat, o: WebObject)
    requires WellFormed(s, next) && Resighting(s, c, listing, rename) && o in s.objects
    requires Recovered(s, rename, m, next) && m.ids.Keys == IdSet(FullObjects(c.objects))
    requires !Recognizable(Page(s), CandidateOf(o, s.objects, s.provenance))
    ensures o.id !in m.ids.Values
  {
    assert RecoveredOne(s, rename, m, next, o) && o.id.number < next by {
      assert o.id in IdSet(s.objects);
    }
    forall t | t in m.ids ensures m.ids[t] != o.id {
      var k := IncomingIndex(s, c, listing, rename, t);
      assert RecoveredOne(s, rename, m, next, listing[k]);
      assert listing[k].id in IdSet(s.objects);
      if listing[k].id == o.id {
        FindExact(s.objects, o);
        FindExact(s.objects, listing[k]);
      }
    }
  }

  lemma IncomingIndex(s: Snapshot, c: Compilation, listing: seq<WebObject>, rename: map<Id, Id>, t: Id) returns (k: nat)
    requires Resighting(s, c, listing, rename) && t in IdSet(FullObjects(c.objects))
    ensures k < |listing| && listing[k] in s.objects && listing[k].id in rename && t == rename[listing[k].id]
  {
    k :| 0 <= k < |listing| && FullObjects(c.objects)[k].id == t;
    MemberOf(s.objects, listing, listing[k]);
    assert listing[k].id in IdSet(s.objects);
  }

  /** An object that is not recognizable loses its id. */
  lemma UnrecognizableLost(r: Registry, c: Compilation, listing: seq<WebObject>, rename: map<Id, Id>, o: WebObject)
    requires Valid(r) && r.current.Some? && Closed(r.current.value) && Resighting(r.current.value, c, listing, rename)
    requires o in CurrentObjects(r)
    requires !Recognizable(Page(r.current.value), CandidateOf(o, CurrentObjects(r), CurrentProvenance(r)))
    ensures o.id !in IdSet(Update(r, c).snapshot.objects)
  {
    var m := Matched(r, c);
    var incoming := FullObjects(c.objects);
    MatchedAgain(r, c, listing, rename);
    RewrittenDistinct(incoming, m.ids);
    SameIds(Rewritten(incoming, m.ids), Update(r, c).snapshot.objects);
    LostId(r.current.value, c, listing, rename, m, r.next, o);
  }

  /** The exact condition: re-observing a closed page makes no new revision if and only if
      every object of the page is recognizable. */
  lemma ReobservationExactCondition(r: Registry, c: Compilation, listing: seq<WebObject>, rename: map<Id, Id>)
    requires Valid(r) && r.current.Some? && Closed(r.current.value) && Resighting(r.current.value, c, listing, rename)
    ensures Update(r, c).snapshot.revision == Revision(r) <==> AllRecognizable(r.current.value)
  {
    if AllRecognizable(r.current.value) {
      ReobservationStable(r, c, listing, rename);
    } else {
      var s := r.current.value;
      var o :| o in s.objects && !Recognizable(Page(s), CandidateOf(o, s.objects, s.provenance));
      UnrecognizableLost(r, c, listing, rename, o);
      UpdateSound(r, c);
      assert o.id in IdSet(s.objects);
    }
  }
}
