/** Stable, session-scoped identities for compiled page objects: the update step, the bounded
    revision history and the change sets derived from it. */
module RegistryModel {
  import opened Prelude
  import opened TextWords
  import opened WebObjects
  import opened IdentityMatching

  datatype Takeover = Takeover(detail: string, target: Option<Id>)

  datatype Document = Document(
    documentId: string,
    url: string,
    title: string,
    status: string,
    dialogs: seq<string>,
    auth: string,
    takeover: Takeover,
    security: string,
    errors: seq<string>)

  /** An outline entry or a region reference. */
  datatype Landmark = Landmark(objectId: Id, kind: string, name: string)

  datatype Compilation = Compilation(
    document: Document,
    outline: seq<Landmark>,
    regions: seq<Landmark>,
    objects: seq<Projection>,
    provenance: map<Id, Provenance>)

  datatype Snapshot = Snapshot(
    document: Document,
    outline: seq<Landmark>,
    regions: seq<Landmark>,
    revision: nat,
    objects: seq<WebObject>,
    provenance: map<Id, Provenance>)

  datatype ObjectUpdate = ObjectUpdate(id: Id, fromVersion: nat, toVersion: nat, changedFields: seq<string>)

  datatype ChangeSet = ChangeSet(
    fromRevision: nat,
    toRevision: nat,
    documentChanged: seq<string>,
    added: seq<Summary>,
    updated: seq<ObjectUpdate>,
    removed: seq<Id>,
    invalidated: seq<Id>)

  const BLANK_DOCUMENT := Document("", "", "", "idle", [], "", Takeover("", None), "", [])

  // ---------------------------------------------------------------------------
  // Change sets
  // ---------------------------------------------------------------------------

  function ChangedDocumentFields(a: Document, b: Document): seq<string> {
    Flag(a.documentId != b.documentId, "document_id")
    + Flag(a.url != b.url, "url")
    + Flag(a.title != b.title, "title")
    + Flag(a.status != b.status, "status")
    + Flag(a.dialogs != b.dialogs, "dialogs")
    + Flag(a.auth != b.auth, "auth")
    + Flag(a.takeover != b.takeover, "takeover")
    + Flag(a.security != b.security, "security")
    + Flag(a.errors != b.errors, "errors")
  }

  lemma ChangedDocumentFieldsExact(a: Document, b: Document)
    ensures ChangedDocumentFields(a, b) == [] <==> a == b
  {
    assert |ChangedDocumentFields(a, b)| == 0 <==> a == b;
  }

  /** The objects whose ids do not occur in `others`, in order. */
  function Without(objects: seq<WebObject>, others: seq<WebObject>): (r: seq<WebObject>)
    ensures forall o :: o in r <==> o in objects && o.id !in IdSet(others)
    ensures IdSet(r) == IdSet(objects) - IdSet(others)
  {
    if objects == [] then []
    else
      var n := |objects| - 1;
      assert objects == objects[..n] + [objects[n]];
      var front := Without(objects[..n], others);
      if Find(others, objects[n].id).None? then front + [objects[n]] else front
  }

  function Summaries(objects: seq<WebObject>): (r: seq<Summary>)
    ensures |r| == |objects|
    ensures forall i :: 0 <= i < |objects| ==> r[i] == Summarize(objects[i])
  {
    seq(|objects|, i requires 0 <= i < |objects| => Summarize(objects[i]))
  }

  /** The change record of o against its previous self, if there is something to report. */
  function StepUpdate(previous: seq<WebObject>, o: WebObject): seq<ObjectUpdate> {
    match Find(previous, o.id)
    case None => []
    case Some(prior) =>
      var fields := ChangedFields(prior, o);
      if fields == [] then [] else [ObjectUpdate(o.id, prior.version, o.version, fields)]
  }

  function DiffUpdate(previous: seq<WebObject>, o: WebObject): seq<ObjectUpdate> {
    match Find(previous, o.id)
    case None => []
    case Some(prior) =>
      if o.version == prior.version then []
      else [ObjectUpdate(o.id, prior.version, o.version, ChangedFields(prior, o))]
  }

  function StepUpdates(previous: seq<WebObject>, objects: seq<WebObject>): (r: seq<ObjectUpdate>)
    ensures forall u :: u in r <==> exists o :: o in objects && u in StepUpdate(previous, o)
  {
    hide StepUpdate;
    if objects == [] then []
    else
      var n := |objects| - 1;
      assert objects == objects[..n] + [objects[n]];
      StepUpdates(previous, objects[..n]) + StepUpdate(previous, objects[n])
  }

  function DiffUpdates(previous: seq<WebObject>, objects: seq<WebObject>): (r: seq<ObjectUpdate>)
    ensures forall u :: u in r <==> exists o :: o in objects && u in DiffUpdate(previous, o)
  {
    hide DiffUpdate;
    if objects == [] then []
    else
      var n := |objects| - 1;
      assert objects == objects[..n] + [objects[n]];
      DiffUpdates(previous, objects[..n]) + DiffUpdate(previous, objects[n])
  }

  function Diff(baseline: Snapshot, current: Snapshot): ChangeSet {
    var gone := Ids(Without(baseline.objects, current.objects));
    var sameDocument := baseline.document.documentId == current.document.documentId;
    ChangeSet(
      baseline.revision,
      current.revision,
      ChangedDocumentFields(baseline.document, current.document),
      Summaries(Without(current.objects, baseline.objects)),
      DiffUpdates(baseline.objects, current.objects),
      if sameDocument then gone else [],
      if sameDocument then [] else Ids(baseline.objects))
  }

  // ---------------------------------------------------------------------------
  // The registry state and its update step
  // ---------------------------------------------------------------------------

  datatype Registry = Registry(limit: nat, next: nat, current: Option<Snapshot>, history: seq<Snapshot>)

  function RevisionOf(s: Option<Snapshot>): nat {
    if s.Some? then s.value.revision else 0
  }

  function Revision(r: Registry): nat {
    RevisionOf(r.current)
  }

  function CurrentObjects(r: Registry): seq<WebObject> {
    ObjectsOf(r.current)
  }

  function CurrentProvenance(r: Registry): map<Id, Provenance> {
    if r.current.Some? then r.current.value.provenance else map[]
  }

  predicate ContinuesDocument(previous: Option<Snapshot>, c: Compilation) {
    previous.Some? && previous.value.document.documentId == c.document.documentId
  }

  predicate SameDocument(r: Registry, c: Compilation) {
    ContinuesDocument(r.current, c)
  }

  ghost predicate WellFormed(s: Snapshot, next: nat) {
    && DistinctIds(s.objects)
    && BelowNext(IdSet(s.objects), next)
    && VersionsPositive(s.objects)
    && s.revision >= 1
  }

  /** History holds exactly the last `limit` revisions up to the current one, in order. */
  ghost predicate Valid(r: Registry) {
    && r.limit >= 2
    && match r.current
       case None => r.history == []
       case Some(s) =>
         && WellFormed(s, r.next)
         && |r.history| == (if s.revision <= r.limit then s.revision else r.limit)
         && r.history[|r.history| - 1] == s
         && (forall i :: 0 <= i < |r.history| ==>
               && r.history[i].revision == s.revision - |r.history| + 1 + i
               && WellFormed(r.history[i], r.next))
  }

  lemma CandidatesShape(objects: seq<WebObject>, provenance: map<Id, Provenance>)
    requires DistinctIds(objects)
    ensures DistinctCandidates(Candidates(objects, provenance))
    ensures CandidateIds(Candidates(objects, provenance)) == IdSet(objects)
  {
    var cs := Candidates(objects, provenance);
    forall id | id in IdSet(objects) ensures id in CandidateIds(cs) {
      var i :| 0 <= i < |objects| && objects[i].id == id;
      assert cs[i] in cs;
    }
  }

  ghost function Known(r: Registry, c: Compilation): seq<Candidate> {
    if SameDocument(r, c) then Candidates(CurrentObjects(r), CurrentProvenance(r)) else []
  }

  ghost function Matched(r: Registry, c: Compilation): (m: Matching)
    requires Valid(r)
    ensures r.next <= m.next
    ensures m.ids.Keys == IdSet(FullObjects(c.objects)) && Injective(m.ids)
    ensures forall id :: id in m.ids ==>
              || (SameDocument(r, c) && m.ids[id] in IdSet(CurrentObjects(r)))
              || (m.ids[id].Allocated? && r.next <= m.ids[id].number < m.next)
  {
    var incoming := FullObjects(c.objects);
    CandidatesShape(incoming, c.provenance);
    CandidatesShape(CurrentObjects(r), CurrentProvenance(r));
    ReconcileSound(Candidates(incoming, c.provenance), Known(r, c), r.next);
    Reconcile(Candidates(incoming, c.provenance), Known(r, c), r.next)
  }

  /** The object with its version: 1 when new, bumped when its meaningful content changed. */
  function Versioned(prior: Option<WebObject>, o: WebObject): WebObject {
    o.(version := match prior
                  case None => 1
                  case Some(p) => if ChangedFields(p, o) != [] then p.version + 1 else p.version)
  }

  function Rewritten(incoming: seq<WebObject>, ids: map<Id, Id>): (r: seq<WebObject>)
    ensures |r| == |incoming|
    ensures forall i :: 0 <= i < |incoming| ==> r[i] == RenameObject(incoming[i], ids)
  {
    seq(|incoming|, i requires 0 <= i < |incoming| => RenameObject(incoming[i], ids))
  }

  function Reversioned(previous: seq<WebObject>, objects: seq<WebObject>): (r: seq<WebObject>)
    ensures |r| == |objects|
    ensures forall i :: 0 <= i < |objects| ==> r[i] == Versioned(Find(previous, objects[i].id), objects[i])
    ensures Ids(r) == Ids(objects)
  {
    seq(|objects|, i requires 0 <= i < |objects| => Versioned(Find(previous, objects[i].id), objects[i]))
  }

  function Relocated(marks: seq<Landmark>, ids: map<Id, Id>): (r: seq<Landmark>)
    ensures |r| == |marks|
    ensures forall i :: 0 <= i < |marks| ==> r[i] == marks[i].(objectId := MapId(marks[i].objectId, ids))
  {
    seq(|marks|, i requires 0 <= i < |marks| => marks[i].(objectId := MapId(marks[i].objectId, ids)))
  }

  function StableProvenance(provenance: map<Id, Provenance>, ids: map<Id, Id>): map<Id, Provenance>
    requires Injective(ids)
  {
    map t | t in provenance && t in ids :: ids[t] := provenance[t]
  }

  function RewrittenDocument(d: Document, ids: map<Id, Id>): Document {
    d.(takeover := d.takeover.(target := MapOption(d.takeover.target, ids)))
  }

  function Remember(history: seq<Snapshot>, s: Snapshot, limit: nat): (r: seq<Snapshot>)
    requires limit >= 1
  {
    var others := Forget(history, s.revision) + [s];
    if |others| > limit then others[|others| - limit..] else others
  }

  /** The history without the entry of one revision. */
  function Forget(history: seq<Snapshot>, revision: nat): seq<Snapshot> {
    if history == [] then []
    else if history[0].revision == revision then Forget(history[1..], revision)
    else [history[0]] + Forget(history[1..], revision)
  }

  // The parts of a change set, from the previous snapshot (if any), whether the document is
  // still the same one, and the new document and objects.

  function ObjectsOf(s: Option<Snapshot>): seq<WebObject> {
    if s.Some? then s.value.objects else []
  }

  function Added(previous: Option<Snapshot>, objects: seq<WebObject>): seq<WebObject> {
    Without(objects, ObjectsOf(previous))
  }

  function Removed(previous: Option<Snapshot>, same: bool, objects: seq<WebObject>): seq<WebObject> {
    if same then Without(ObjectsOf(previous), objects) else []
  }

  function Invalidated(previous: Option<Snapshot>, same: bool): seq<WebObject> {
    if same then [] else ObjectsOf(previous)
  }

  function Updated(previous: Option<Snapshot>, same: bool, objects: seq<WebObject>): seq<ObjectUpdate> {
    if same then StepUpdates(ObjectsOf(previous), objects) else []
  }

  function DocumentChanged(previous: Option<Snapshot>, document: Document): seq<string> {
    if previous.Some? then ChangedDocumentFields(previous.value.document, document) else []
  }

  predicate MeaningfulChange(previous: Option<Snapshot>, same: bool, document: Document, objects: seq<WebObject>) {
    || !same
    || Added(previous, objects) != []
    || Removed(previous, same, objects) != []
    || Updated(previous, same, objects) != []
    || DocumentChanged(previous, document) != []
  }

  function StepChanges(previous: Option<Snapshot>, same: bool, s: Snapshot): ChangeSet {
    ChangeSet(
      RevisionOf(previous),
      s.revision,
      DocumentChanged(previous, s.document),
      Summaries(Added(previous, s.objects)),
      Updated(previous, same, s.objects),
      Ids(Removed(previous, same, s.objects)),
      Ids(Invalidated(previous, same)))
  }

  datatype Outcome = Outcome(registry: Registry, snapshot: Snapshot, changes: ChangeSet)

  /** The new snapshot, history and change set, once ids and versioned objects are known. */
  function Finish(limit: nat, previous: Option<Snapshot>, history: seq<Snapshot>, c: Compilation, m: Matching,
                  objects: seq<WebObject>): Outcome
    requires Injective(m.ids) && limit >= 1
  {
    var same := ContinuesDocument(previous, c);
    var document := RewrittenDocument(c.document, m.ids);
    var revision := RevisionOf(previous) + if MeaningfulChange(previous, same, document, objects) then 1 else 0;
    var s := Snapshot(document, Relocated(c.outline, m.ids), Relocated(c.regions, m.ids), revision, objects,
                      StableProvenance(c.provenance, m.ids));
    Outcome(Registry(limit, m.next, Some(s), Remember(history, s, limit)), s, StepChanges(previous, same, s))
  }

  ghost function Update(r: Registry, c: Compilation): Outcome
    requires Valid(r)
  {
    var m := Matched(r, c);
    var base := if SameDocument(r, c) then CurrentObjects(r) else [];
    Finish(r.limit, r.current, r.history, c, m, Reversioned(base, Rewritten(FullObjects(c.objects), m.ids)))
  }

  datatype RevisionError = RevisionUnavailable(revision: nat)

  function Lookup(history: seq<Snapshot>, revision: nat): (r: Option<Snapshot>)
    ensures r.Some? ==> r.value in history && r.value.revision == revision
    ensures r.None? ==> forall s :: s in history ==> s.revision != revision
  {
    if history == [] then None
    else if history[0].revision == revision then Some(history[0])
    else Lookup(history[1..], revision)
  }

  function NoChange(revision: nat): ChangeSet {
    ChangeSet(revision, revision, [], [], [], [], [])
  }

  function ChangesSince(r: Registry, revision: nat): Result<ChangeSet, RevisionError> {
    match r.current
    case None => if revision == 0 then Ok(NoChange(0)) else Err(RevisionUnavailable(revision))
    case Some(current) =>
      if revision == current.revision then Ok(NoChange(revision))
      else if revision == 0 then
        Ok(ChangeSet(0, current.revision, ChangedDocumentFields(BLANK_DOCUMENT, current.document),
                     Summaries(current.objects), [], [], []))
      else match Lookup(r.history, revision)
        case None => Err(RevisionUnavailable(revision))
        case Some(baseline) => Ok(Diff(baseline, current))
  }

  // ---------------------------------------------------------------------------
  // What one update establishes
  // ---------------------------------------------------------------------------

  function SummaryIds(added: seq<Summary>): set<Id> {
    set s | s in added :: s.id
  }

  function UpdatedIds(updated: seq<ObjectUpdate>): set<Id> {
    set u | u in updated :: u.id
  }

  /** Objects move to the next version exactly when their meaning changed. */
  ghost predicate VersionsGrow(before: map<Id, WebObject>, after: map<Id, WebObject>) {
    forall id :: id in before && id in after ==>
      after[id].version == before[id].version + (if Meaningful(before[id]) == Meaningful(after[id]) then 0 else 1)
  }

  /** Every id of `after` was there before or is numbered from `next` on. */
  ghost predicate OnlyFresh(before: map<Id, WebObject>, after: map<Id, WebObject>, next: nat) {
    forall id :: id in after && id !in before ==> id.Allocated? && id.number >= next
  }

  lemma RewrittenDistinct(incoming: seq<WebObject>, ids: map<Id, Id>)
    requires DistinctIds(incoming) && ids.Keys == IdSet(incoming) && Injective(ids)
    ensures DistinctIds(Rewritten(incoming, ids))
    ensures IdSet(Rewritten(incoming, ids)) == ids.Values
  {
    hide RenameRelations;
    var r := Rewritten(incoming, ids);
    forall i | 0 <= i < |incoming| ensures r[i].id == ids[incoming[i].id] {
      assert incoming[i].id in IdSet(incoming);
    }
    forall v | v in ids.Values ensures v in IdSet(r) {
      var t :| t in ids && ids[t] == v;
      var i :| 0 <= i < |incoming| && incoming[i].id == t;
      assert r[i] in r;
    }
    forall v | v in IdSet(r) ensures v in ids.Values {
      var i :| 0 <= i < |r| && r[i].id == v;
    }
  }

  lemma SameIds(a: seq<WebObject>, b: seq<WebObject>)
    requires Ids(a) == Ids(b)
    ensures IdSet(a) == IdSet(b)
    ensures DistinctIds(a) ==> DistinctIds(b)
  {
    assert |a| == |b| && forall i :: 0 <= i < |a| ==> a[i].id == Ids(a)[i] == b[i].id;
    forall id | id in IdSet(a) ensures id in IdSet(b) {
      var i :| 0 <= i < |a| && a[i].id == id;
      assert b[i] in b;
    }
    forall id | id in IdSet(b) ensures id in IdSet(a) {
      var i :| 0 <= i < |b| && b[i].id == id;
      assert a[i] in a;
    }
  }

  lemma VersionIgnored(p: WebObject, o: WebObject, n: nat)
    ensures Meaningful(o.(version := n)) == Meaningful(o)
    ensures ChangedFields(p, o.(version := n)) == ChangedFields(p, o)
  {
    hide Norm;
  }

  lemma VersionedMeaning(p: WebObject, o: WebObject)
    requires p.id == o.id
    ensures var v := Versioned(Some(p), o);
      && v.version == p.version + (if Meaningful(p) == Meaningful(v) then 0 else 1)
      && ChangedFields(p, o) == ChangedFields(p, v)
  {
    hide Meaningful, ChangedFields;
    ChangedFieldsExact(p, o);
    VersionIgnored(p, o, Versioned(Some(p), o).version);
  }

  ghost predicate VersionsPositive(objects: seq<WebObject>) {
    forall o :: o in objects ==> o.version >= 1
  }

  lemma ReversionedPositive(base: seq<WebObject>, objects: seq<WebObject>)
    requires VersionsPositive(base)
    ensures VersionsPositive(Reversioned(base, objects))
  {
    var r := Reversioned(base, objects);
    forall i | 0 <= i < |r| ensures r[i].version >= 1 {
      var prior := Find(base, objects[i].id);
      assert r[i] == Versioned(prior, objects[i]);
    }
  }

  /** A reversioned object that was there before has the next version or the same. */
  lemma ReversionedVersion(base: seq<WebObject>, rewritten: seq<WebObject>, o: WebObject, p: WebObject)
    requires o in Reversioned(base, rewritten) && Find(base, o.id) == Some(p)
    ensures o.version == p.version + (if Meaningful(p) == Meaningful(o) then 0 else 1)
  {
    hide Meaningful, Versioned, DistinctIds, IdSet;
    var objects := Reversioned(base, rewritten);
    var i :| 0 <= i < |objects| && objects[i] == o;
    assert Ids(objects)[i] == Ids(rewritten)[i];
    VersionedMeaning(p, rewritten[i]);
  }

  lemma ReversionedIds(base: seq<WebObject>, rewritten: seq<WebObject>)
    ensures IdSet(Reversioned(base, rewritten)) == IdSet(rewritten)
  {
    hide Versioned;
    SameIds(Reversioned(base, rewritten), rewritten);
  }

  lemma ReversionedGrow(previous: seq<WebObject>, base: seq<WebObject>, rewritten: seq<WebObject>)
    requires base == previous || IdSet(previous) !! IdSet(rewritten)
    ensures VersionsGrow(Table(previous), Table(Reversioned(base, rewritten)))
  {
    hide Meaningful, IdSet, Reversioned, DistinctIds;
    var objects := Reversioned(base, rewritten);
    var before, after := Table(previous), Table(objects);
    ReversionedIds(base, rewritten);
    forall id | id in before && id in after
      ensures after[id].version == before[id].version + (if Meaningful(before[id]) == Meaningful(after[id]) then 0 else 1)
    {
      ReversionedVersion(base, rewritten, after[id], before[id]);
    }
  }

  /** Rewriting and versioning the incoming objects under a sound matching. */
  lemma ObjectsEvolve(previous: seq<WebObject>, base: seq<WebObject>, incoming: seq<WebObject>, m: Matching, next: nat)
    requires base == previous || base == []
    requires BelowNext(IdSet(previous), next) && VersionsPositive(previous)
    requires DistinctIds(incoming) && m.ids.Keys == IdSet(incoming) && Injective(m.ids) && next <= m.next
    requires forall v :: v in m.ids.Values ==>
               v in IdSet(base) || (v.Allocated? && next <= v.number < m.next)
    ensures var objects := Reversioned(base, Rewritten(incoming, m.ids));
      && DistinctIds(objects) && VersionsPositive(objects) && BelowNext(IdSet(objects), m.next)
      && VersionsGrow(Table(previous), Table(objects))
      && OnlyFresh(Table(previous), Table(objects), next)
      && IdSet(objects) == m.ids.Values
  {
    var rewritten := Rewritten(incoming, m.ids);
    RewrittenDistinct(incoming, m.ids);
    SameIds(rewritten, Reversioned(base, rewritten));
    ReversionedPositive(base, rewritten);
    ReversionedGrow(previous, base, rewritten);
  }

  lemma MatchedValues(r: Registry, c: Compilation)
    requires Valid(r)
    ensures var m := Matched(r, c);
      && (forall v :: v in m.ids.Values ==>
            || (SameDocument(r, c) && v in IdSet(CurrentObjects(r)))
            || (v.Allocated? && r.next <= v.number < m.next))
      && (!SameDocument(r, c) ==> m.ids.Values !! IdSet(CurrentObjects(r)))
  {
    var m := Matched(r, c);
    forall v | v in m.ids.Values
      ensures || (SameDocument(r, c) && v in IdSet(CurrentObjects(r)))
              || (v.Allocated? && r.next <= v.number < m.next)
    {
      var t :| t in m.ids && m.ids[t] == v;
    }
  }

  /** The objects after an update, ids and versions included, against those before it. */
  lemma UpdateObjects(r: Registry, c: Compilation)
    requires Valid(r)
    ensures var u := Update(r, c);
      && r.next <= u.registry.next
      && DistinctIds(u.snapshot.objects) && VersionsPositive(u.snapshot.objects)
      && BelowNext(IdSet(u.snapshot.objects), u.registry.next)
      && VersionsGrow(Table(CurrentObjects(r)), Table(u.snapshot.objects))
      && OnlyFresh(Table(CurrentObjects(r)), Table(u.snapshot.objects), r.next)
      && (!SameDocument(r, c) ==> IdSet(CurrentObjects(r)) !! IdSet(u.snapshot.objects))
  {
    var previous := CurrentObjects(r);
    MatchedValues(r, c);
    ObjectsEvolve(previous, if SameDocument(r, c) then previous else [], FullObjects(c.objects), Matched(r, c), r.next);
  }
}
