/** The bounded history answers changes_since exactly as the full log of updates would. */
module RegistryHistory {
  import opened Prelude
  import opened TextWords
  import opened WebObjects
  import opened IdentityMatching
  import opened RegistryModel
  import opened RegistryStep
  import opened RegistryRuns

  // ---------------------------------------------------------------------------
  // Which revisions can be answered
  // ---------------------------------------------------------------------------

  lemma {:induction false} LookupExact(history: seq<Snapshot>, i: nat)
    requires i < |history|
    requires forall a, b :: 0 <= a < b < |history| ==> history[a].revision < history[b].revision
    ensures Lookup(history, history[i].revision) == Some(history[i])
  {
    if i > 0 {
      LookupExact(history[1..], i - 1);
    }
  }

  ghost predicate InWindow(limit: nat, current: nat, revision: nat) {
    revision <= current && current < revision + limit
  }

  /** changes_since answers for revision 0, and for the last `limit` revisions; nothing else. */
  lemma AvailableExact(r: Registry, revision: nat)
    requires Valid(r)
    ensures ChangesSince(r, revision).Ok? <==> revision == 0 || InWindow(r.limit, Revision(r), revision)
    ensures r.current.Some? && 0 < revision != Revision(r) && InWindow(r.limit, Revision(r), revision) ==>
      exists h :: h in r.history && h.revision == revision && ChangesSince(r, revision) == Ok(Diff(h, r.current.value))
  {
    if r.current.Some? && revision > 0 && InWindow(r.limit, Revision(r), revision) {
      var i := revision - (Revision(r) - |r.history| + 1);
      LookupExact(r.history, i);
      assert r.history[i] in r.history;
    }
  }

  // ---------------------------------------------------------------------------
  // A diff of two snapshots of one run
  // ---------------------------------------------------------------------------

  lemma DiffUpdateDescribes(previous: seq<WebObject>, objects: seq<WebObject>, o: WebObject)
    requires DistinctIds(objects) && VersionsKept(Table(previous), Table(objects)) && o in objects
    ensures DiffUpdate(previous, o) == if o.id in Bumped(Table(previous), Table(objects))
      then [ObjectUpdate(o.id, Table(previous)[o.id].version, o.version, ChangedFields(Table(previous)[o.id], o))] else []
    ensures o.id in Table(objects) && Table(objects)[o.id] == o
  {
    hide ChangedFields;
    FindExact(objects, o);
  }

  lemma DiffUpdatesDescribe(previous: seq<WebObject>, objects: seq<WebObject>)
    requires DistinctIds(objects) && VersionsKept(Table(previous), Table(objects))
    ensures UpdatedIds(DiffUpdates(previous, objects)) == Bumped(Table(previous), Table(objects))
    ensures RecordsUpdates(DiffUpdates(previous, objects), Table(previous), Table(objects))
  {
    hide ChangedFields, DiffUpdate, VersionsKept, DistinctIds, Find;
    var before, after := Table(previous), Table(objects);
    var updates := DiffUpdates(previous, objects);
    forall u | u in updates
      ensures u.id in before && u.id in after && u.fromVersion < u.toVersion
      ensures u == ObjectUpdate(u.id, before[u.id].version, after[u.id].version, ChangedFields(before[u.id], after[u.id]))
    {
      var o :| o in objects && u in DiffUpdate(previous, o);
      DiffUpdateDescribes(previous, objects, o);
    }
    forall id | id in Bumped(before, after) ensures id in UpdatedIds(updates) {
      var o := after[id];
      TableHolds(objects, id);
      DiffUpdateDescribes(previous, objects, o);
      var u := ObjectUpdate(id, before[id].version, after[id].version, ChangedFields(before[id], after[id]));
      assert u in DiffUpdate(previous, o);
      assert u in updates;
    }
  }

  lemma TableHolds(objects: seq<WebObject>, id: Id)
    requires id in Table(objects)
    ensures Table(objects)[id] in objects && Table(objects)[id].id == id
  {
  }

  lemma DiffDescribes(baseline: Snapshot, current: Snapshot)
    requires DistinctIds(current.objects) && baseline.revision <= current.revision
    requires VersionsKept(Table(baseline.objects), Table(current.objects))
    requires baseline.document.documentId != current.document.documentId ==>
               IdSet(baseline.objects) !! IdSet(current.objects)
    ensures Describes(Diff(baseline, current), Table(baseline.objects), Table(current.objects))
    ensures RecordsUpdates(Diff(baseline, current).updated, Table(baseline.objects), Table(current.objects))
  {
    var changes := Diff(baseline, current);
    assert SummaryIds(changes.added) == IdSet(current.objects) - IdSet(baseline.objects) by {
      SummariesIds(Without(current.objects, baseline.objects));
    }
    assert Elements(changes.removed) + Elements(changes.invalidated) == IdSet(baseline.objects) - IdSet(current.objects) by {
      IdsElements(Without(baseline.objects, current.objects));
      IdsElements(baseline.objects);
    }
    DiffUpdatesDescribe(baseline.objects, current.objects);
  }

  /** Objects of two different documents of a run never share an id. */
  lemma {:induction false} DocumentsDisjoint(views: seq<View>, changes: seq<ChangeSet>, i: nat, j: nat)
    requires Run(views, changes) && i <= j < |views|
    requires views[i].document.Some? && DocumentReplaced(views[i], views[j])
    ensures views[i].table.Keys !! views[j].table.Keys
    decreases j
  {
    if i < j {
      assert StepAt(views, changes, j - 1);
      if i == j - 1 || !DocumentReplaced(views[i], views[j - 1]) {
        RunLater(views, changes, i, j - 1);
        if i < j - 1 {
          assert StepAt(views, changes, j - 2);
        }
        LifetimesInRun(views, changes, i, j, j);
      } else {
        DocumentsDisjoint(views, changes, i, j - 1);
        Persists(views, changes, i, j - 1, j);
      }
    }
  }

  ghost predicate Remembers(before: Registry, after: Registry) {
    forall h :: h in after.history ==> after.current == Some(h) || h in before.history
  }

  lemma UpdateRemembers(r: Registry, c: Compilation)
    requires Valid(r)
    ensures Remembers(r, Update(r, c).registry)
  {
    var u := Update(r, c);
    UpdateObjects(r, c);
    UpdateSound(r, c);
    RememberValid(r, u.snapshot, u.registry.next);
  }

  ghost predicate Shows(v: View, s: Snapshot) {
    v.revision == s.revision && v.document == Some(s.document) && v.table == Table(s.objects)
  }

  /** Every remembered snapshot was the current one at some point of the run so far. */
  ghost predicate FromRun(history: seq<Snapshot>, views: seq<View>, n: nat)
    requires n < |views|
  {
    forall h :: h in history ==> Shown(views, n, h)
  }

  ghost predicate Shown(views: seq<View>, n: nat, h: Snapshot)
    requires n < |views|
  {
    exists k :: 0 <= k <= n && Shows(views[k], h)
  }

  lemma AfterRemembers(limit: nat, inputs: seq<Compilation>, n: nat)
    requires limit >= 2 && 0 < n <= |inputs|
    ensures Remembers(After(limit, inputs, n - 1), After(limit, inputs, n))
  {
    UpdateRemembers(After(limit, inputs, n - 1), inputs[n - 1]);
  }

  lemma NoHistory(limit: nat, inputs: seq<Compilation>)
    requires limit >= 2
    ensures FromRun(After(limit, inputs, 0).history, Views(limit, inputs), 0)
  {
  }

  lemma {:induction false} HistoryFromRun(limit: nat, inputs: seq<Compilation>, n: nat)
    requires limit >= 2 && n <= |inputs|
    ensures FromRun(After(limit, inputs, n).history, Views(limit, inputs), n)
  {
    hide FromRun, Remembers, After, ViewOf, Views, Valid;
    if n == 0 {
      NoHistory(limit, inputs);
    } else {
      HistoryFromRun(limit, inputs, n - 1);
      AfterRemembers(limit, inputs, n);
      FromRunStep(After(limit, inputs, n - 1), After(limit, inputs, n), Views(limit, inputs), n);
    }
  }

  lemma FromRunStep(before: Registry, after: Registry, views: seq<View>, n: nat)
    requires 0 < n < |views| && views[n] == ViewOf(after)
    requires FromRun(before.history, views, n - 1)
    requires Remembers(before, after)
    ensures FromRun(after.history, views, n)
  {
    forall h | h in after.history ensures Shown(views, n, h) {
      if after.current == Some(h) {
        assert Shows(views[n], h);
      } else {
        assert Shown(views, n - 1, h);
      }
    }
  }

  lemma SameVersionsDescribe(changes: ChangeSet, a: map<Id, WebObject>, b: map<Id, WebObject>, c: map<Id, WebObject>)
    requires SameVersions(a, b) && Describes(changes, b, c)
    ensures Describes(changes, a, c)
  {
    assert Bumped(a, c) == Bumped(b, c);
  }

  lemma SameMeaningFields(a: WebObject, b: WebObject, c: WebObject)
    requires Meaningful(a) == Meaningful(b)
    ensures ChangedFields(a, c) == ChangedFields(b, c)
  {
    var x, y := Meaningful(a), Meaningful(b);
    assert x.name == Norm(a.name) && y.name == Norm(b.name);
    assert x.state == a.state.(busy := false) && y.state == b.state.(busy := false);
  }

  lemma SameMeaningRecords(updated: seq<ObjectUpdate>, a: map<Id, WebObject>, b: map<Id, WebObject>, c: map<Id, WebObject>)
    requires SameVersions(a, b) && RecordsUpdates(updated, b, c)
    requires forall id :: id in a && id in b ==> Meaningful(a[id]) == Meaningful(b[id])
    ensures RecordsUpdates(updated, a, c)
  {
    forall u | u in updated
      ensures u.id in a && u.id in c && u.fromVersion < u.toVersion
      ensures u == ObjectUpdate(u.id, a[u.id].version, c[u.id].version, ChangedFields(a[u.id], c[u.id]))
    {
      SameMeaningFields(a[u.id], b[u.id], c[u.id]);
    }
  }

  // ---------------------------------------------------------------------------
  // Main result
  // ---------------------------------------------------------------------------

  /** What an agent that saw revision `revision` with objects `before` is told once the
      objects are `after`, and which updates the answer summarises. */
  ghost predicate Answers(changes: ChangeSet, before: View, after: View, log: seq<ChangeSet>) {
    && changes.fromRevision == before.revision && changes.toRevision == after.revision
    && Describes(changes, before.table, after.table)
    && RecordsUpdates(changes.updated, before.table, after.table)
    && Replay(before.table.Keys, log) == Apply(before.table.Keys, changes) == after.table.Keys
    && (forall id :: id in before.table && id in after.table ==>
          (id in UpdatedIds(changes.updated) <==> exists k :: 0 <= k < |log| && id in UpdatedIds(log[k].updated)))
  }

  lemma AnswersFromDescription(changes: ChangeSet, views: seq<View>, log: seq<ChangeSet>, i: nat, n: nat)
    requires Run(views, log) && i <= n < |views|
    requires changes.fromRevision == views[i].revision && changes.toRevision == views[n].revision
    requires Describes(changes, views[i].table, views[n].table)
    requires RecordsUpdates(changes.updated, views[i].table, views[n].table)
    ensures Answers(changes, views[i], views[n], log[i..n])
  {
    ReplayInRun(views, log, i, n);
    forall id | id in views[i].table && id in views[n].table
      ensures id in UpdatedIds(changes.updated) <==> exists k :: 0 <= k < |log[i..n]| && id in UpdatedIds(log[i..n][k].updated)
    {
      BumpedInRun(views, log, i, n, id);
      if UpdatedBetween(log, i, n, id) {
        var k :| i <= k < n && id in UpdatedIds(log[k].updated);
        assert log[i..n][k - i] == log[k];
      }
    }
  }

  /** Two views of one revision agree. */
  lemma SameRevision(views: seq<View>, log: seq<ChangeSet>, i: nat, k: nat)
    requires Run(views, log) && i < |views| && k < |views| && views[i].revision == views[k].revision
    ensures SameVersions(views[i].table, views[k].table) && views[i].document == views[k].document
    ensures forall id :: id in views[i].table && id in views[k].table ==>
      Meaningful(views[i].table[id]) == Meaningful(views[k].table[id])
  {
    RunLater(views, log, if i <= k then i else k, if i <= k then k else i);
  }

  lemma DiffAnswers(views: seq<View>, log: seq<ChangeSet>, baseline: Snapshot, current: Snapshot, i: nat, k: nat, n: nat)
    requires Run(views, log) && i <= n < |views| && k <= n
    requires views[i].revision == views[k].revision
    requires Shows(views[k], baseline) && Shows(views[n], current) && DistinctIds(current.objects)
    ensures Answers(Diff(baseline, current), views[i], views[n], log[i..n])
  {
    RunLater(views, log, k, n);
    if DocumentReplaced(views[k], views[n]) {
      DocumentsDisjoint(views, log, k, n);
    }
    SameRevision(views, log, i, k);
    DiffDescribes(baseline, current);
    var changes := Diff(baseline, current);
    SameVersionsDescribe(changes, views[i].table, views[k].table, views[n].table);
    SameMeaningRecords(changes.updated, views[i].table, views[k].table, views[n].table);
    AnswersFromDescription(changes, views, log, i, n);
  }

  lemma TrivialDescription(changes: ChangeSet, a: map<Id, WebObject>, b: map<Id, WebObject>)
    requires changes.updated == [] && changes.removed == [] && changes.invalidated == []
    requires changes.fromRevision <= changes.toRevision
    requires (SameVersions(a, b) && changes.added == []) || (a == map[] && SummaryIds(changes.added) == b.Keys)
    ensures Describes(changes, a, b) && RecordsUpdates(changes.updated, a, b)
  {
    assert Bumped(a, b) == {};
  }

  /** The two answers that need no baseline: nothing changed, and everything is new. */
  lemma TrivialAnswers(views: seq<View>, log: seq<ChangeSet>, i: nat, n: nat, changes: ChangeSet)
    requires Run(views, log) && i <= n < |views|
    requires changes.fromRevision == views[i].revision && changes.toRevision == views[n].revision
    requires changes.updated == [] && changes.removed == [] && changes.invalidated == []
    requires || (views[i].revision == views[n].revision && changes.added == [])
             || (views[i].table == map[] && SummaryIds(changes.added) == views[n].table.Keys)
    ensures Answers(changes, views[i], views[n], log[i..n])
  {
    hide Answers, Describes, RecordsUpdates, SameVersions, VersionsKept, OnlyFresh;
    if views[i].revision == views[n].revision {
      SameRevision(views, log, i, n);
    }
    RunLater(views, log, i, n);
    TrivialDescription(changes, views[i].table, views[n].table);
    AnswersFromDescription(changes, views, log, i, n);
  }

  lemma AnswerExact(r: Registry, views: seq<View>, log: seq<ChangeSet>, i: nat, n: nat)
    requires Valid(r) && Run(views, log) && i <= n < |views|
    requires views[n] == ViewOf(r) && FromRun(r.history, views, n)
    requires views[i].revision == 0 ==> views[i].table == map[]
    requires ChangesSince(r, views[i].revision).Ok?
    ensures Answers(ChangesSince(r, views[i].revision).value, views[i], views[n], log[i..n])
  {
    var revision := views[i].revision;
    var answer := ChangesSince(r, revision).value;
    if revision == views[n].revision {
      TrivialAnswers(views, log, i, n, answer);
    } else if revision == 0 {
      SummariesIds(CurrentObjects(r));
      TrivialAnswers(views, log, i, n, answer);
    } else {
      AvailableExact(r, revision);
      var h :| h in r.history && h.revision == revision && ChangesSince(r, revision) == Ok(Diff(h, r.current.value));
      assert Shown(views, n, h);
      var k :| 0 <= k <= n && Shows(views[k], h);
      DiffAnswers(views, log, h, r.current.value, i, k, n);
    }
  }

  lemma EmptyAtZero(r: Registry)
    requires Valid(r) && Revision(r) == 0
    ensures ViewOf(r).table == map[]
  {
    assert IdSet([]) == {};
  }

  /** For a revision seen at any point of a run, changes_since succeeds exactly when it is 0 or
      among the last `limit` revisions, and its answer agrees with replaying every update since. */
  lemma ChangesSinceExact(limit: nat, inputs: seq<Compilation>, i: nat, n: nat)
    requires limit >= 2 && i <= n <= |inputs|
    ensures var v := Views(limit, inputs);
      var answer := ChangesSince(After(limit, inputs, n), v[i].revision);
      && (answer.Ok? <==> v[i].revision == 0 || v[n].revision < v[i].revision + limit)
      && (answer.Ok? ==> Answers(answer.value, v[i], v[n], Changes(limit, inputs)[i..n]))
  {
    var v := Views(limit, inputs);
    ViewsRun(limit, inputs);
    RunLater(v, Changes(limit, inputs), i, n);
    HistoryFromRun(limit, inputs, n);
    AvailableExact(After(limit, inputs, n), v[i].revision);
    if v[i].revision == 0 {
      EmptyAtZero(After(limit, inputs, i));
    }
    if ChangesSince(After(limit, inputs, n), v[i].revision).Ok? {
      AnswerExact(After(limit, inputs, n), v, Changes(limit, inputs), i, n);
    }
  }

  lemma DiffDetails(baseline: Snapshot, current: Snapshot)
    requires DistinctIds(current.objects)
    ensures Details(Diff(baseline, current), Some(baseline.document), Some(current.document), Table(current.objects))
  {
    hide DistinctIds, ChangedDocumentFields, DiffUpdates, Table, Summarize, Summaries, Without;
    SummariesDetail(Without(current.objects, baseline.objects), current.objects);
    ChangedDocumentFieldsExact(baseline.document, current.document);
  }

  lemma EverythingAdded(changes: ChangeSet, current: Snapshot)
    requires DistinctIds(current.objects) && changes.added == Summaries(current.objects)
    ensures Details(changes, None, Some(current.document), Table(current.objects))
  {
    SummariesDetail(current.objects, current.objects);
  }

  lemma NoDetails(revision: nat, document: Option<Document>, objects: map<Id, WebObject>)
    ensures Details(NoChange(revision), document, document, objects)
  {
  }

  lemma DetailsExact(r: Registry, views: seq<View>, log: seq<ChangeSet>, i: nat, n: nat)
    requires Valid(r) && Run(views, log) && i <= n < |views|
    requires views[n] == ViewOf(r) && FromRun(r.history, views, n)
    requires views[i].revision == 0 ==> views[i].document == None
    requires ChangesSince(r, views[i].revision).Ok?
    ensures Details(ChangesSince(r, views[i].revision).value, views[i].document, views[n].document, views[n].table)
  {
    hide Details, Diff, DistinctIds, Run;
    var revision := views[i].revision;
    if revision == views[n].revision {
      SameRevision(views, log, i, n);
      NoDetails(revision, views[n].document, views[n].table);
    } else if revision == 0 {
      EverythingAdded(ChangesSince(r, revision).value, r.current.value);
    } else {
      AvailableExact(r, revision);
      var h :| h in r.history && h.revision == revision && ChangesSince(r, revision) == Ok(Diff(h, r.current.value));
      assert Shown(views, n, h);
      var k :| 0 <= k <= n && Shows(views[k], h);
      SameRevision(views, log, i, k);
      DiffDetails(h, r.current.value);
    }
  }

  lemma NothingAtZero(r: Registry)
    requires Valid(r) && Revision(r) == 0
    ensures ViewOf(r).document == None
  {
  }

  /** The answer is also truthful about the document and about what the new objects look like. */
  lemma ChangesSinceDetails(limit: nat, inputs: seq<Compilation>, i: nat, n: nat)
    requires limit >= 2 && i <= n <= |inputs|
    ensures var v := Views(limit, inputs);
      var answer := ChangesSince(After(limit, inputs, n), v[i].revision);
      answer.Ok? ==> Details(answer.value, v[i].document, v[n].document, v[n].table)
  {
    hide Details, ChangesSince;
    var v := Views(limit, inputs);
    ViewsRun(limit, inputs);
    HistoryFromRun(limit, inputs, n);
    if v[i].revision == 0 {
      NothingAtZero(After(limit, inputs, i));
    }
    if ChangesSince(After(limit, inputs, n), v[i].revision).Ok? {
      DetailsExact(After(limit, inputs, n), v, Changes(limit, inputs), i, n);
    }
  }
}
