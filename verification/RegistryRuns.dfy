/** Whole-run facts about the registry: identity lifetimes, soundness of versions and
    revisions, and agreement of the bounded history with the full log of updates. */
module RegistryRuns {
  import opened Prelude
  import opened WebObjects
  import opened IdentityMatching
  import opened RegistryModel
  import opened RegistryStep

  // ---------------------------------------------------------------------------
  // Runs, seen through the facts that matter across updates
  // ---------------------------------------------------------------------------

  /** What an observer can tell about a registry state. */
  datatype View = View(next: nat, revision: nat, document: Option<Document>, table: map<Id, WebObject>)

  function ViewOf(r: Registry): View {
    View(r.next, Revision(r), if r.current.Some? then Some(r.current.value.document) else None, Table(CurrentObjects(r)))
  }

  predicate DocumentReplaced(a: View, b: View) {
    a.document.Some? && b.document.Some? && a.document.value.documentId != b.document.value.documentId
  }

  ghost predicate SameView(a: View, b: View) {
    a.document.Some? && a.document == b.document && SameVersions(a.table, b.table)
  }

  /** One update, as far as the later proofs use it. */
  ghost predicate Step(a: View, b: View, changes: ChangeSet) {
    && a.next <= b.next
    && BelowNext(a.table.Keys, a.next)
    && b.document.Some?
    && VersionsGrow(a.table, b.table)
    && OnlyFresh(a.table, b.table, a.next)
    && Describes(changes, a.table, b.table)
    && (DocumentReplaced(a, b) ==> a.table.Keys !! b.table.Keys)
    && changes.fromRevision == a.revision && changes.toRevision == b.revision
    && b.revision == a.revision + (if SameView(a, b) then 0 else 1)
  }

  ghost predicate Run(views: seq<View>, changes: seq<ChangeSet>) {
    && |views| == |changes| + 1
    && forall k :: 0 <= k < |changes| ==> StepAt(views, changes, k)
  }

  ghost predicate StepAt(views: seq<View>, changes: seq<ChangeSet>, k: int)
    requires 0 <= k < |changes| && |views| == |changes| + 1
  {
    Step(views[k], views[k + 1], changes[k])
  }

  /** Later views against earlier ones. */
  ghost predicate Later(a: View, b: View) {
    && a.next <= b.next
    && OnlyFresh(a.table, b.table, a.next)
    && VersionsKept(a.table, b.table)
    && a.revision <= b.revision
    && (a.revision == b.revision ==> a.document == b.document && SameVersions(a.table, b.table))
  }

  ghost predicate VersionsKept(before: map<Id, WebObject>, after: map<Id, WebObject>) {
    forall id :: id in before && id in after ==>
      && before[id].version <= after[id].version
      && (before[id].version == after[id].version ==> Meaningful(before[id]) == Meaningful(after[id]))
  }

  lemma LaterTrans(a: View, b: View, c: View)
    requires BelowNext(a.table.Keys, a.next) && Later(a, b) && Later(b, c)
    ensures Later(a, c)
    ensures a.table.Keys * c.table.Keys <= b.table.Keys
  {
    forall id | id in a.table && id in c.table ensures id in b.table {
      assert id.number < a.next;
    }
  }

  lemma {:induction false} RunLater(views: seq<View>, changes: seq<ChangeSet>, i: nat, j: nat)
    requires Run(views, changes) && i <= j < |views|
    ensures Later(views[i], views[j])
    ensures i < j ==> BelowNext(views[i].table.Keys, views[i].next)
    decreases j
  {
    if i < j {
      RunLater(views, changes, i, j - 1);
      assert StepAt(views, changes, j - 1);
      if i < j - 1 {
        LaterTrans(views[i], views[j - 1], views[j]);
      }
    }
  }

  /** An id present at two points of a run is present all the way between them. */
  lemma Persists(views: seq<View>, changes: seq<ChangeSet>, i: nat, j: nat, k: nat)
    requires Run(views, changes) && i <= j <= k < |views|
    ensures views[i].table.Keys * views[k].table.Keys <= views[j].table.Keys
  {
    if i < j {
      RunLater(views, changes, i, j);
      RunLater(views, changes, j, k);
      LaterTrans(views[i], views[j], views[k]);
    }
  }

  lemma LifetimesInRun(v: seq<View>, cs: seq<ChangeSet>, i: nat, j: nat, k: nat)
    requires Run(v, cs) && i < j <= k < |v|
    ensures forall id :: id in v[i].table && id !in v[j].table ==> id !in v[k].table
    ensures DocumentReplaced(v[j - 1], v[j]) ==> v[i].table.Keys !! v[k].table.Keys
  {
    Persists(v, cs, i, j, k);
    Persists(v, cs, i, j - 1, k);
    assert StepAt(v, cs, j - 1);
  }

  /** Folding the change sets of single updates over a set of ids. */
  function Replay(ids: set<Id>, changes: seq<ChangeSet>): set<Id> {
    if changes == [] then ids
    else
      var n := |changes| - 1;
      Apply(Replay(ids, changes[..n]), changes[n])
  }

  function Apply(ids: set<Id>, c: ChangeSet): set<Id> {
    ids - (Elements(c.removed) + Elements(c.invalidated)) + SummaryIds(c.added)
  }

  lemma {:induction false} ReplayInRun(views: seq<View>, changes: seq<ChangeSet>, i: nat, j: nat)
    requires Run(views, changes) && i <= j < |views|
    ensures Replay(views[i].table.Keys, changes[i..j]) == views[j].table.Keys
    decreases j
  {
    if i < j {
      ReplayInRun(views, changes, i, j - 1);
      assert changes[i..j][..j - 1 - i] == changes[i..j - 1];
      assert StepAt(views, changes, j - 1);
    } else {
      assert changes[i..j] == [];
    }
  }

  ghost predicate UpdatedBetween(changes: seq<ChangeSet>, i: nat, j: nat, id: Id)
    requires i <= j <= |changes|
  {
    exists k :: i <= k < j && id in UpdatedIds(changes[k].updated)
  }

  lemma LastUpdate(changes: seq<ChangeSet>, i: nat, j: nat, id: Id)
    requires i < j <= |changes|
    ensures UpdatedBetween(changes, i, j, id) <==>
              UpdatedBetween(changes, i, j - 1, id) || id in UpdatedIds(changes[j - 1].updated)
  {
    if UpdatedBetween(changes, i, j, id) {
      var k :| i <= k < j && id in UpdatedIds(changes[k].updated);
      assert k < j - 1 ==> UpdatedBetween(changes, i, j - 1, id);
    }
  }

  /** A surviving object has a later version exactly when some update in between bumped it. */
  lemma {:induction false} BumpedInRun(views: seq<View>, changes: seq<ChangeSet>, i: nat, j: nat, id: Id)
    requires Run(views, changes) && i <= j < |views|
    requires id in views[i].table && id in views[j].table
    ensures views[i].table[id].version < views[j].table[id].version <==> UpdatedBetween(changes, i, j, id)
    decreases j
  {
    if i < j {
      Persists(views, changes, i, j - 1, j);
      BumpedInRun(views, changes, i, j - 1, id);
      LastUpdate(changes, i, j, id);
      RunLater(views, changes, i, j - 1);
      assert StepAt(views, changes, j - 1);
    }
  }

  // ---------------------------------------------------------------------------
  // The registry's own runs
  // ---------------------------------------------------------------------------

  function Empty(limit: nat): Registry {
    Registry(limit, 1, None, [])
  }

  /** The registry after the first k of a sequence of updates. */
  ghost function After(limit: nat, inputs: seq<Compilation>, k: nat): (r: Registry)
    requires limit >= 2 && k <= |inputs|
    ensures Valid(r) && r.limit == limit
  {
    if k == 0 then Empty(limit)
    else
      var before := After(limit, inputs, k - 1);
      UpdateSound(before, inputs[k - 1]);
      Update(before, inputs[k - 1]).registry
  }

  ghost function Views(limit: nat, inputs: seq<Compilation>): (v: seq<View>)
    requires limit >= 2
    ensures |v| == |inputs| + 1
    ensures forall k :: 0 <= k <= |inputs| ==> v[k] == ViewOf(After(limit, inputs, k))
  {
    seq(|inputs| + 1, k requires 0 <= k <= |inputs| => ViewOf(After(limit, inputs, k)))
  }

  /** The change sets the updates of a run returned. */
  ghost function Changes(limit: nat, inputs: seq<Compilation>): (r: seq<ChangeSet>)
    requires limit >= 2
    ensures |r| == |inputs|
    ensures forall k :: 0 <= k < |inputs| ==> r[k] == Update(After(limit, inputs, k), inputs[k]).changes
  {
    seq(|inputs|, k requires 0 <= k < |inputs| => Update(After(limit, inputs, k), inputs[k]).changes)
  }

  lemma ViewsStep(r: Registry, r': Registry, changes: ChangeSet)
    requires Valid(r) && Valid(r') && r'.current.Some? && r.next <= r'.next
    requires VersionsGrow(Table(CurrentObjects(r)), Table(CurrentObjects(r')))
    requires OnlyFresh(Table(CurrentObjects(r)), Table(CurrentObjects(r')), r.next)
    requires DocumentReplaced(ViewOf(r), ViewOf(r')) ==> IdSet(CurrentObjects(r)) !! IdSet(CurrentObjects(r'))
    requires Describes(changes, Table(CurrentObjects(r)), Table(CurrentObjects(r')))
    requires changes.fromRevision == Revision(r) && changes.toRevision == Revision(r')
    requires Revision(r') == Revision(r) + (if Unchanged(r.current, r'.current.value) then 0 else 1)
    ensures Step(ViewOf(r), ViewOf(r'), changes)
  {
  }

  lemma UpdateReplaces(r: Registry, c: Compilation)
    requires Valid(r)
    ensures DocumentReplaced(ViewOf(r), ViewOf(Update(r, c).registry)) ==> !SameDocument(r, c)
  {
    hide Valid, Reversioned, Rewritten, Matched;
  }

  lemma UpdateSteps(r: Registry, c: Compilation)
    requires Valid(r)
    ensures Step(ViewOf(r), ViewOf(Update(r, c).registry), Update(r, c).changes)
  {
    hide Update, Valid, Step, VersionsGrow, OnlyFresh, Describes, Unchanged, Table, IdSet, SameDocument, BelowNext, DistinctIds;
    UpdateObjects(r, c);
    UpdateSound(r, c);
    UpdateReplaces(r, c);
    ViewsStep(r, Update(r, c).registry, Update(r, c).changes);
  }

  lemma ViewsRun(limit: nat, inputs: seq<Compilation>)
    requires limit >= 2
    ensures Run(Views(limit, inputs), Changes(limit, inputs))
  {
    forall k | 0 <= k < |inputs|
      ensures StepAt(Views(limit, inputs), Changes(limit, inputs), k)
    {
      UpdateSteps(After(limit, inputs, k), inputs[k]);
    }
  }

  /** An id that left never comes back, and none survives a change of document. */
  lemma IdentityLifetimes(limit: nat, inputs: seq<Compilation>, i: nat, j: nat, k: nat)
    requires limit >= 2 && i < j <= k <= |inputs|
    ensures var v := Views(limit, inputs);
      && (forall id :: id in v[i].table && id !in v[j].table ==> id !in v[k].table)
      && (DocumentReplaced(v[j - 1], v[j]) ==> v[i].table.Keys !! v[k].table.Keys)
  {
    ViewsRun(limit, inputs);
    LifetimesInRun(Views(limit, inputs), Changes(limit, inputs), i, j, k);
  }

  /** Equal id and version mean equal content; equal revision means the same document and
      the same objects with the same content. */
  lemma VersionsSound(limit: nat, inputs: seq<Compilation>, i: nat, j: nat)
    requires limit >= 2 && i <= j <= |inputs|
    ensures var a, b := Views(limit, inputs)[i], Views(limit, inputs)[j];
      && (forall id :: id in a.table && id in b.table && a.table[id].version == b.table[id].version ==>
            SameContent(a.table[id], b.table[id]))
      && (a.revision == b.revision ==>
            && a.document == b.document
            && a.table.Keys == b.table.Keys
            && (forall id :: id in a.table ==> SameContent(a.table[id], b.table[id])))
  {
    hide SameContent, Meaningful, After;
    ViewsRun(limit, inputs);
    RunLater(Views(limit, inputs), Changes(limit, inputs), i, j);
    var a, b := Views(limit, inputs)[i], Views(limit, inputs)[j];
    forall id | id in a.table && id in b.table && Meaningful(a.table[id]) == Meaningful(b.table[id])
      ensures SameContent(a.table[id], b.table[id])
    {
      SameContentExact(a.table[id], b.table[id]);
    }
  }

  /** Replaying the change sets of single updates leads from the ids at one point of a run
      to the ids at any later one. */
  lemma ReplayExact(limit: nat, inputs: seq<Compilation>, i: nat, j: nat)
    requires limit >= 2 && i <= j <= |inputs|
    ensures Replay(Views(limit, inputs)[i].table.Keys, Changes(limit, inputs)[i..j]) == Views(limit, inputs)[j].table.Keys
  {
    ViewsRun(limit, inputs);
    ReplayInRun(Views(limit, inputs), Changes(limit, inputs), i, j);
  }
}
