/** What an update does to the page itself: it renames it, and nothing else. Renaming back gives
    the observation, relation by relation. */
module RegistryGraph {
  import opened Prelude
  import opened WebObjects
  import opened RegistryModel
  import opened IdentityMatching
  import opened RegistryStability

  predicate MarksInside(marks: seq<Landmark>, ids: set<Id>) {
    forall i :: 0 <= i < |marks| ==> marks[i].objectId in ids
  }

  /** Every id an observation mentions is the id of one of its objects. */
  ghost predicate ClosedCompilation(c: Compilation) {
    var ids := IdSet(FullObjects(c.objects));
    && (forall o :: o in FullObjects(c.objects) ==> Mentions(o.relations) <= ids)
    && OptionSet(c.document.takeover.target) <= ids
    && MarksInside(c.outline, ids) && MarksInside(c.regions, ids)
  }

  /** The renaming turned around. */
  function Unrename(m: map<Id, Id>): (back: map<Id, Id>)
    requires Injective(m)
    ensures back.Keys == m.Values && Injective(back)
    ensures forall t :: t in m ==> m[t] in back && back[m[t]] == t
  {
    map t | t in m :: m[t] := t
  }

  /** The snapshot is the observation under new names. */
  ghost predicate SamePage(c: Compilation, s: Snapshot, back: map<Id, Id>) {
    var incoming := FullObjects(c.objects);
    && back.Keys == IdSet(s.objects) && Injective(back)
    && |s.objects| == |incoming|
    && (forall i :: 0 <= i < |incoming| ==> SameObject(s.objects[i], incoming[i], back))
    && Relocated(s.outline, back) == c.outline && Relocated(s.regions, back) == c.regions
    && RewrittenDocument(s.document, back) == c.document
    && (forall id :: id in back ==> Get(s.provenance, id) == Get(c.provenance, back[id]))
  }

  predicate SameObject(o: WebObject, incoming: WebObject, back: map<Id, Id>) {
    RenameObject(o, back).(version := incoming.version) == incoming
  }

  lemma ObjectRenamedBack(o: WebObject, m: map<Id, Id>, version: nat)
    requires Injective(m) && o.id in m && Mentions(o.relations) <= m.Keys
    ensures SameObject(RenameObject(o, m).(version := version), o, Unrename(m))
  {
    hide Mentions, RenameRelations;
    var back := Unrename(m);
    assert forall id :: id in m ==> MapId(MapId(id, m), back) == id;
    RenameInverse(o.relations, m, back);
  }

  lemma MarksRenamedBack(marks: seq<Landmark>, m: map<Id, Id>)
    requires Injective(m) && MarksInside(marks, m.Keys)
    ensures Relocated(Relocated(marks, m), Unrename(m)) == marks
    ensures MarksInside(Relocated(marks, m), m.Values)
  {
    var there := Relocated(marks, m);
    var again := Relocated(there, Unrename(m));
    forall i | 0 <= i < |marks| ensures again[i] == marks[i] && there[i].objectId in m.Values {
      assert marks[i].objectId in m;
    }
  }

  /** The objects of an update, one by one: renamed, with a version. */
  lemma UpdatedObject(r: Registry, c: Compilation, i: nat)
    requires Valid(r) && i < |FullObjects(c.objects)|
    ensures var s := Update(r, c).snapshot;
      && |s.objects| == |FullObjects(c.objects)|
      && s.objects[i] == RenameObject(FullObjects(c.objects)[i], Matched(r, c).ids).(version := s.objects[i].version)
  {
    hide RenameRelations, ChangedFields, Matched, MeaningfulChange, StepChanges, Valid, Remember;
  }

  /** The parts of an update's snapshot besides its objects. */
  lemma UpdatedFrame(r: Registry, c: Compilation)
    requires Valid(r)
    ensures var s, m := Update(r, c).snapshot, Matched(r, c);
      && |s.objects| == |FullObjects(c.objects)|
      && IdSet(s.objects) == m.ids.Values
      && s.outline == Relocated(c.outline, m.ids) && s.regions == Relocated(c.regions, m.ids)
      && s.document == RewrittenDocument(c.document, m.ids)
      && s.provenance == StableProvenance(c.provenance, m.ids)
  {
    hide RenameRelations, ChangedFields, MeaningfulChange, StepChanges, Valid, Remember, Rewritten, Relocated, StableProvenance;
    var rewritten := Rewritten(FullObjects(c.objects), Matched(r, c).ids);
    RewrittenDistinct(FullObjects(c.objects), Matched(r, c).ids);
    SameIds(rewritten, Update(r, c).snapshot.objects);
  }

  lemma ProvenanceRenamed(provenance: map<Id, Provenance>, m: map<Id, Id>)
    requires Injective(m)
    ensures forall id :: id in Unrename(m) ==>
      Get(StableProvenance(provenance, m), id) == Get(provenance, Unrename(m)[id])
  {
    var back := Unrename(m);
    forall id | id in back ensures Get(StableProvenance(provenance, m), id) == Get(provenance, back[id]) {
      var t :| t in m && m[t] == id;
      assert back[id] == t;
    }
  }

  /** An update of a closed observation renames the page by one injective map and changes nothing
      else: renaming the snapshot back gives the observation, relations, landmarks, takeover target
      and evidence included. The snapshot is closed, so observing it again is covered by the
      stability results. */
  lemma UpdateRenamesPage(r: Registry, c: Compilation)
    requires Valid(r) && ClosedCompilation(c)
    ensures SamePage(c, Update(r, c).snapshot, Unrename(Matched(r, c).ids))
    ensures Closed(Update(r, c).snapshot)
  {
    hide Mentions, RenameRelations, RenameObject, Matched, Update, Valid, Unrename, StableProvenance, SameObject, Relocated;
    var s, m, incoming := Update(r, c).snapshot, Matched(r, c).ids, FullObjects(c.objects);
    UpdatedFrame(r, c);
    MarksRenamedBack(c.outline, m);
    MarksRenamedBack(c.regions, m);
    ProvenanceRenamed(c.provenance, m);
    forall i | 0 <= i < |incoming|
      ensures SameObject(s.objects[i], incoming[i], Unrename(m)) && Mentions(s.objects[i].relations) <= IdSet(s.objects)
    {
      ObjectOfPage(r, c, i);
    }
  }

  lemma ObjectOfPage(r: Registry, c: Compilation, i: nat)
    requires Valid(r) && ClosedCompilation(c) && i < |FullObjects(c.objects)|
    ensures var s, m := Update(r, c).snapshot, Matched(r, c).ids;
      && |s.objects| == |FullObjects(c.objects)|
      && SameObject(s.objects[i], FullObjects(c.objects)[i], Unrename(m))
      && Mentions(s.objects[i].relations) <= m.Values
  {
    hide Mentions, RenameRelations, Matched, Update, Valid, Unrename, SameObject;
    var s, m, incoming := Update(r, c).snapshot, Matched(r, c).ids, FullObjects(c.objects);
    UpdatedObject(r, c, i);
    assert incoming[i] in incoming;
    ObjectRenamedBack(incoming[i], m, s.objects[i].version);
    MentionsInside(incoming[i].relations, m, m.Keys, m.Values);
  }
}
