/** What a single update of the registry establishes: a valid registry, a truthful change
    set, and a new revision exactly when something meaningful changed. */
module RegistryStep {
  import opened Prelude
  import opened TextWords
  import opened WebObjects
  import opened IdentityMatching
  import opened RegistryModel

  lemma {:induction false} ForgetAbsent(history: seq<Snapshot>, revision: nat)
    requires forall i :: 0 <= i < |history| ==> history[i].revision != revision
    ensures Forget(history, revision) == history
  {
    if history != [] {
      ForgetAbsent(history[1..], revision);
    }
  }

  lemma {:induction false} ForgetLast(history: seq<Snapshot>, revision: nat)
    requires history != [] && history[|history| - 1].revision == revision
    requires forall i :: 0 <= i < |history| - 1 ==> history[i].revision != revision
    ensures Forget(history, revision) == history[..|history| - 1]
  {
    if |history| > 1 {
      ForgetLast(history[1..], revision);
      assert history[..|history| - 1] == [history[0]] + history[1..][..|history[1..]| - 1];
    }
  }

  lemma RememberShape(r: Registry, s: Snapshot)
    requires Valid(r)
    requires s.revision == Revision(r) + 1 || (r.current.Some? && s.revision == Revision(r))
    ensures Remember(r.history, s, r.limit) ==
      var kept := if s.revision == Revision(r) then r.history[..|r.history| - 1] else r.history;
      if |kept| + 1 > r.limit then (kept + [s])[|kept| + 1 - r.limit..] else kept + [s]
  {
    if s.revision == Revision(r) {
      ForgetLast(r.history, s.revision);
    } else {
      ForgetAbsent(r.history, s.revision);
    }
  }

  /** Consecutive revisions ending just below `end`, all well formed. */
  ghost predicate Chained(history: seq<Snapshot>, end: int, next: nat) {
    forall i :: 0 <= i < |history| ==>
      history[i].revision == end - |history| + i && WellFormed(history[i], next)
  }

  lemma ChainedLater(history: seq<Snapshot>, kept: seq<Snapshot>, end: int, next: nat, next': nat)
    requires Chained(history, end, next) && next <= next'
    requires kept == history || (history != [] && kept == history[..|history| - 1])
    ensures Chained(kept, if kept == history then end else end - 1, next')
  {
  }

  lemma ChainedValid(r: Registry, s: Snapshot, kept: seq<Snapshot>)
    requires r.limit >= 2 && r.current == Some(s) && WellFormed(s, r.next)
    requires Chained(kept, s.revision, r.next) && |kept| <= r.limit && |kept| < s.revision
    requires |kept| == s.revision - 1 || |kept| >= r.limit - 1
    requires r.history == if |kept| + 1 > r.limit then (kept + [s])[|kept| + 1 - r.limit..] else kept + [s]
    ensures Valid(r)
  {
    assert Chained(r.history, s.revision + 1, r.next);
  }

  /** What is left of the history once a snapshot of the same revision is forgotten. */
  function Kept(r: Registry, s: Snapshot): seq<Snapshot>
    requires s.revision == Revision(r) ==> r.history != []
  {
    if s.revision == Revision(r) then r.history[..|r.history| - 1] else r.history
  }

  lemma KeptChained(r: Registry, s: Snapshot, next': nat)
    requires Valid(r) && r.next <= next'
    requires s.revision == Revision(r) + 1 || (r.current.Some? && s.revision == Revision(r))
    ensures s.revision == Revision(r) ==> r.history != []
    ensures var kept := Kept(r, s);
      && Chained(kept, s.revision, next') && |kept| <= r.limit && |kept| < s.revision
      && (|kept| == s.revision - 1 || |kept| >= r.limit - 1)
  {
    assert Chained(r.history, Revision(r) + 1, r.next);
    ChainedLater(r.history, Kept(r, s), Revision(r) + 1, r.next, next');
  }

  lemma RememberValid(r: Registry, s: Snapshot, next': nat)
    requires Valid(r) && r.next <= next' && WellFormed(s, next')
    requires s.revision == Revision(r) + 1 || (r.current.Some? && s.revision == Revision(r))
    ensures Valid(Registry(r.limit, next', Some(s), Remember(r.history, s, r.limit)))
    ensures forall h :: h in Remember(r.history, s, r.limit) ==> h == s || h in r.history
  {
    assert r.limit >= 2;
    KeptChained(r, s, next');
    var kept := Kept(r, s);
    RememberShape(r, s);
    TrimmedHistory(r, s, kept, Registry(r.limit, next', Some(s), Remember(r.history, s, r.limit)));
  }

  lemma TrimmedHistory(r: Registry, s: Snapshot, kept: seq<Snapshot>, r': Registry)
    requires r'.limit >= 2 && r'.current == Some(s) && WellFormed(s, r'.next)
    requires kept == r.history || (r.history != [] && kept == r.history[..|r.history| - 1])
    requires Chained(kept, s.revision, r'.next) && |kept| <= r'.limit && |kept| < s.revision
    requires |kept| == s.revision - 1 || |kept| >= r'.limit - 1
    requires r'.history == if |kept| + 1 > r'.limit then (kept + [s])[|kept| + 1 - r'.limit..] else kept + [s]
    ensures Valid(r')
    ensures forall h :: h in r'.history ==> h == s || h in r.history
  {
    hide Valid, WellFormed, Chained;
    ChainedValid(r', s, kept);
    assert forall h :: h in kept + [s] ==> h == s || h in kept;
  }

  function Bumped(before: map<Id, WebObject>, after: map<Id, WebObject>): set<Id> {
    set id | id in before && id in after && before[id].version < after[id].version
  }

  /** The update records carry the versions and the changed fields of the objects they name. */
  ghost predicate RecordsUpdates(updated: seq<ObjectUpdate>, before: map<Id, WebObject>, after: map<Id, WebObject>) {
    forall u :: u in updated ==>
      && u.id in before && u.id in after
      && u == ObjectUpdate(u.id, before[u.id].version, after[u.id].version, ChangedFields(before[u.id], after[u.id]))
      && u.fromVersion < u.toVersion
  }

  /** What a change set says about the objects before and after it. */
  ghost predicate Describes(changes: ChangeSet, before: map<Id, WebObject>, after: map<Id, WebObject>) {
    && SummaryIds(changes.added) == after.Keys - before.Keys
    && Elements(changes.removed) + Elements(changes.invalidated) == before.Keys - after.Keys
    && UpdatedIds(changes.updated) == Bumped(before, after)
    && changes.fromRevision <= changes.toRevision
  }

  lemma SummariesIds(objects: seq<WebObject>)
    ensures SummaryIds(Summaries(objects)) == IdSet(objects)
  {
    var ss := Summaries(objects);
    forall id | id in IdSet(objects) ensures id in SummaryIds(ss) {
      var i :| 0 <= i < |objects| && objects[i].id == id;
      assert ss[i] in ss;
    }
  }

  lemma IdsElements(objects: seq<WebObject>)
    ensures Elements(Ids(objects)) == IdSet(objects)
  {
    forall id | id in IdSet(objects) ensures id in Ids(objects) {
      var i :| 0 <= i < |objects| && objects[i].id == id;
      assert Ids(objects)[i] == id;
    }
  }

  lemma StepUpdatesDescribe(previous: seq<WebObject>, objects: seq<WebObject>)
    requires DistinctIds(objects) && VersionsGrow(Table(previous), Table(objects))
    ensures UpdatedIds(StepUpdates(previous, objects)) == Bumped(Table(previous), Table(objects))
    ensures RecordsUpdates(StepUpdates(previous, objects), Table(previous), Table(objects))
  {
    var before, after := Table(previous), Table(objects);
    var updates := StepUpdates(previous, objects);
    forall u | u in updates
      ensures u.id in before && u.id in after && u.fromVersion < u.toVersion
      ensures u == ObjectUpdate(u.id, before[u.id].version, after[u.id].version, ChangedFields(before[u.id], after[u.id]))
    {
      var o :| o in objects && u in StepUpdate(previous, o);
      FindExact(objects, o);
      ChangedFieldsExact(before[o.id], o);
    }
    forall id | id in Bumped(before, after) ensures id in UpdatedIds(updates) {
      ChangedFieldsExact(before[id], after[id]);
      var u := ObjectUpdate(id, before[id].version, after[id].version, ChangedFields(before[id], after[id]));
      assert u in StepUpdate(previous, after[id]);
      assert u in updates;
    }
  }

  lemma StepChangesIds(previous: Option<Snapshot>, same: bool, s: Snapshot)
    requires !same ==> IdSet(ObjectsOf(previous)) !! IdSet(s.objects)
    ensures var changes := StepChanges(previous, same, s);
      && SummaryIds(changes.added) == IdSet(s.objects) - IdSet(ObjectsOf(previous))
      && Elements(changes.removed) + Elements(changes.invalidated) == IdSet(ObjectsOf(previous)) - IdSet(s.objects)
  {
    hide SummaryIds, Ids, Summaries, StepUpdates, ChangedDocumentFields;
    SummariesIds(Added(previous, s.objects));
    IdsElements(Removed(previous, same, s.objects));
    IdsElements(Invalidated(previous, same));
  }

  lemma StepChangesDescribe(previous: Option<Snapshot>, same: bool, s: Snapshot)
    requires DistinctIds(s.objects) && VersionsGrow(Table(ObjectsOf(previous)), Table(s.objects))
    requires !same ==> IdSet(ObjectsOf(previous)) !! IdSet(s.objects)
    requires previous.Some? ==> previous.value.revision <= s.revision
    ensures Describes(StepChanges(previous, same, s), Table(ObjectsOf(previous)), Table(s.objects))
    ensures RecordsUpdates(StepChanges(previous, same, s).updated, Table(ObjectsOf(previous)), Table(s.objects))
  {
    hide ChangedFields, StepUpdates, Summaries, SummaryIds, Ids, DistinctIds, VersionsGrow, RecordsUpdates, Table, Without;
    StepChangesIds(previous, same, s);
    if same {
      StepUpdatesDescribe(ObjectsOf(previous), s.objects);
    } else {
      NothingBumped(Table(ObjectsOf(previous)), Table(s.objects));
    }
  }

  lemma NothingBumped(before: map<Id, WebObject>, after: map<Id, WebObject>)
    requires before.Keys !! after.Keys
    ensures Bumped(before, after) == {} == UpdatedIds([]) && RecordsUpdates([], before, after)
  {
  }

  /** Nothing worth a new revision happened. */
  ghost predicate Unchanged(before: Option<Snapshot>, after: Snapshot) {
    && before.Some?
    && before.value.document == after.document
    && SameVersions(Table(before.value.objects), Table(after.objects))
  }

  ghost predicate SameVersions(before: map<Id, WebObject>, after: map<Id, WebObject>) {
    && before.Keys == after.Keys
    && forall id :: id in before ==> before[id].version == after[id].version
  }

  lemma NoneMissing(objects: seq<WebObject>, others: seq<WebObject>)
    ensures Without(objects, others) == [] <==> IdSet(objects) <= IdSet(others)
  {
    var w := Without(objects, others);
    if w != [] {
      assert w[0].id in IdSet(w);
    }
  }

  lemma NoUpdates(previous: seq<WebObject>, objects: seq<WebObject>)
    requires DistinctIds(objects) && VersionsGrow(Table(previous), Table(objects))
    ensures StepUpdates(previous, objects) == [] <==> Bumped(Table(previous), Table(objects)) == {}
  {
    StepUpdatesDescribe(previous, objects);
    var updates := StepUpdates(previous, objects);
    if updates != [] {
      assert updates[0].id in UpdatedIds(updates);
    }
  }

  lemma SameVersionsExact(before: map<Id, WebObject>, after: map<Id, WebObject>)
    requires VersionsGrow(before, after)
    ensures SameVersions(before, after) <==> before.Keys == after.Keys && Bumped(before, after) == {}
  {
    if before.Keys == after.Keys && Bumped(before, after) == {} {
      forall id | id in before ensures before[id].version == after[id].version {
        assert id !in Bumped(before, after);
      }
    }
  }

  lemma SetChanges(before: seq<WebObject>, after: seq<WebObject>)
    ensures (Without(after, before) == [] && Without(before, after) == []) <==> IdSet(before) == IdSet(after)
  {
    NoneMissing(after, before);
    NoneMissing(before, after);
  }

  lemma MeaningfulExact(previous: Snapshot, s: Snapshot)
    requires previous.document.documentId == s.document.documentId
    requires DistinctIds(s.objects) && VersionsGrow(Table(previous.objects), Table(s.objects))
    ensures MeaningfulChange(Some(previous), true, s.document, s.objects) <==> !Unchanged(Some(previous), s)
  {
    hide DistinctIds, VersionsGrow, SameVersions, Bumped, Without, StepUpdates, ChangedDocumentFields, IdSet;
    SetChanges(previous.objects, s.objects);
    NoUpdates(previous.objects, s.objects);
    ChangedDocumentFieldsExact(previous.document, s.document);
    SameVersionsExact(Table(previous.objects), Table(s.objects));
  }

  /** An update keeps the registry valid, describes itself truthfully, and makes a new
      revision exactly when something meaningful changed. */
  lemma UpdateSound(r: Registry, c: Compilation)
    requires Valid(r)
    ensures var u := Update(r, c);
      && Valid(u.registry)
      && u.registry.current == Some(u.snapshot)
      && Describes(u.changes, Table(CurrentObjects(r)), Table(u.snapshot.objects))
      && RecordsUpdates(u.changes.updated, Table(CurrentObjects(r)), Table(u.snapshot.objects))
      && u.changes.fromRevision == Revision(r) && u.changes.toRevision == u.snapshot.revision
      && u.snapshot.revision == Revision(r) + (if Unchanged(r.current, u.snapshot) then 0 else 1)
  {
    var u := Update(r, c);
    UpdateObjects(r, c);
    if SameDocument(r, c) {
      MeaningfulExact(r.current.value, u.snapshot);
    }
    StepChangesDescribe(r.current, SameDocument(r, c), u.snapshot);
    RememberValid(r, u.snapshot, u.registry.next);
  }

  /** What else a change set says: whether the document itself changed, whether the objects left or
      their document did, and what the new objects look like. */
  ghost predicate Details(changes: ChangeSet, before: Option<Document>, after: Option<Document>, objects: map<Id, WebObject>) {
    && (before.Some? && after.Some? ==>
         && (changes.documentChanged == [] <==> before == after)
         && (if before.value.documentId == after.value.documentId then changes.invalidated == [] else changes.removed == []))
    && (forall s :: s in changes.added ==> s.id in objects && s == Summarize(objects[s.id]))
  }

  lemma SummariesDetail(added: seq<WebObject>, objects: seq<WebObject>)
    requires DistinctIds(objects) && forall o :: o in added ==> o in objects
    ensures forall s :: s in Summaries(added) ==> s.id in Table(objects) && s == Summarize(Table(objects)[s.id])
  {
    hide DistinctIds;
    forall s | s in Summaries(added) ensures s.id in Table(objects) && s == Summarize(Table(objects)[s.id]) {
      var i :| 0 <= i < |added| && s == Summarize(added[i]);
      FindExact(objects, added[i]);
    }
  }

  lemma StepDetails(previous: Option<Snapshot>, s: Snapshot, same: bool)
    requires DistinctIds(s.objects)
    requires same <==> previous.Some? && previous.value.document.documentId == s.document.documentId
    ensures Details(StepChanges(previous, same, s), DocumentOf(previous), Some(s.document), Table(s.objects))
  {
    hide DistinctIds, ChangedDocumentFields, StepUpdates, Table, Summarize, Summaries, Without, Updated;
    SummariesDetail(Added(previous, s.objects), s.objects);
    if previous.Some? {
      ChangedDocumentFieldsExact(previous.value.document, s.document);
    }
  }

  function DocumentOf(s: Option<Snapshot>): Option<Document> {
    if s.Some? then Some(s.value.document) else None
  }

  /** An update's change set is truthful about the document and the new objects, too. */
  lemma UpdateDetails(r: Registry, c: Compilation)
    requires Valid(r)
    ensures var u := Update(r, c);
      Details(u.changes, DocumentOf(r.current), Some(u.snapshot.document), Table(u.snapshot.objects))
  {
    hide Details, DistinctIds;
    var u := Update(r, c);
    UpdateObjects(r, c);
    StepDetails(r.current, u.snapshot, SameDocument(r, c));
  }

  /** The change set has the one record of an object's change from one version to another. */
  ghost predicate Reports(changes: ChangeSet, before: WebObject, after: WebObject, u: ObjectUpdate) {
    && u in changes.updated
    && u.id == before.id == after.id && u.fromVersion == before.version && u.toVersion == before.version + 1 == after.version
    && (Words(before.name) != Words(after.name) ==> "name" in u.changedFields)
    && (Words(before.description) != Words(after.description) ==> "description" in u.changedFields)
    && (Words(before.text) != Words(after.text) ==> "text" in u.changedFields)
    && (before.role != after.role ==> "role" in u.changedFields)
    && (before.value != after.value ==> "value" in u.changedFields)
    && (before.capabilities != after.capabilities ==> "capabilities" in u.changedFields)
    && (before.state.visible != after.state.visible ==> "state.visible" in u.changedFields)
    && (before.state.enabled != after.state.enabled ==> "state.enabled" in u.changedFields)
    && (forall name :: Related(before.relations, name) != Related(after.relations, name) ==> FieldName(name) in u.changedFields)
  }

  lemma RecordReports(changes: ChangeSet, before: map<Id, WebObject>, after: map<Id, WebObject>, id: Id)
    requires id in before && id in after && before[id].id == id == after[id].id
    requires RecordsUpdates(changes.updated, before, after) && Describes(changes, before, after)
    requires after[id].version == before[id].version + 1
    ensures exists u :: Reports(changes, before[id], after[id], u)
  {
    hide Words, ChangedFields, ChangedState, ChangedRelations, Related, FieldName;
    assert id in Bumped(before, after);
    var u :| u in changes.updated && u.id == id;
    ProseReported(before[id], after[id]);
    FieldsReported(before[id], after[id]);
    StateReported(before[id].state, after[id].state);
    NestedReported(before[id], after[id], "state.visible");
    NestedReported(before[id], after[id], "state.enabled");
    forall name | Related(before[id].relations, name) != Related(after[id].relations, name)
      ensures FieldName(name) in ChangedFields(before[id], after[id])
    {
      RelationReported(before[id].relations, after[id].relations, name);
      NestedReported(before[id], after[id], FieldName(name));
    }
    assert Reports(changes, before[id], after[id], u);
  }

  /** An object that an update keeps stays at its version, unreported, exactly when its content is the
      same; otherwise it gets the next version and a record, which names the prose that changed. */
  lemma KeptReportedExactly(r: Registry, c: Compilation, id: Id)
    requires Valid(r) && id in Table(CurrentObjects(r)) && id in Table(Update(r, c).snapshot.objects)
    ensures var before, after := Table(CurrentObjects(r))[id], Table(Update(r, c).snapshot.objects)[id];
      var changes := Update(r, c).changes;
      if SameContent(before, after) then after.version == before.version && id !in UpdatedIds(changes.updated)
      else exists u :: Reports(changes, before, after, u)
  {
    hide Update, Valid, SameContent, Meaningful, Reports, ChangedFields, DistinctIds, IdSet, Unchanged, BelowNext, OnlyFresh,
         VersionsPositive, SameDocument;
    UpdateObjects(r, c);
    UpdateSound(r, c);
    var before, after := Table(CurrentObjects(r)), Table(Update(r, c).snapshot.objects);
    SameContentExact(before[id], after[id]);
    if !SameContent(before[id], after[id]) {
      RecordReports(Update(r, c).changes, before, after, id);
    }
  }

  lemma UpdateValid(r: Registry, c: Compilation)
    requires Valid(r)
    ensures Valid(Update(r, c).registry)
  {
    UpdateSound(r, c);
  }
}
