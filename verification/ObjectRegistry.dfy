/** The registry object itself: the matching loops, the update in place, and the queries. */
module ObjectRegistry {
  import opened Prelude
  import opened WebObjects
  import opened IdentityMatching
  import opened RegistryModel
  import opened RegistryStep

  lemma OwnersAppend(cs: seq<Candidate>, c: Candidate, key: StrongKey)
    ensures Owners(cs + [c], key) == Owners(cs, key) + if key in c.strong then {c.id} else {}
  {
  }

  lemma LookalikesAppend(cs: seq<Candidate>, c: Candidate, taken: set<Id>, key: SemanticKey)
    ensures Lookalikes(cs + [c], taken, key)
      == Lookalikes(cs, taken, key) + if c.id !in taken && c.semantic == key then {c.id} else {}
  {
  }

  lemma Singleton<T>(s: set<T>, x: T)
    requires x in s
    ensures |s| == 1 <==> s == {x}
  {
    if |s| == 1 {
      assert |s - {x}| == 0;
    }
  }

  /** index[key] is the one previous id that key identifies; keys of none or several are absent. */
  ghost predicate IsIndex(index: map<StrongKey, Id>, previous: seq<Candidate>) {
    forall key :: Get(index, key) == StrongMatch(previous, key)
  }

  /** State of the index loop: first owners, and the keys seen with a second owner. */
  ghost predicate Indexing(index: map<StrongKey, Id>, duplicates: set<StrongKey>, seen: seq<Candidate>) {
    forall key ::
      && (key !in index ==> Owners(seen, key) == {} && key !in duplicates)
      && (key in index ==> index[key] in Owners(seen, key))
      && (key in index ==> (key in duplicates <==> Owners(seen, key) != {index[key]}))
  }

  /** Adding one key of a new owner. */
  lemma IndexingStep(index: map<StrongKey, Id>, duplicates: set<StrongKey>, before: seq<Candidate>, c: Candidate, j: nat)
    requires j < |c.strong| && Ranked(c.strong, 5) && c.id !in CandidateIds(before)
    requires Indexing(index, duplicates, before + [c.(strong := c.strong[..j])])
    ensures var key := c.strong[j];
      Indexing(if key in index then index else index[key := c.id],
               if key in index then duplicates + {key} else duplicates,
               before + [c.(strong := c.strong[..j + 1])])
  {
    var key := c.strong[j];
    var seen, seen' := before + [c.(strong := c.strong[..j])], before + [c.(strong := c.strong[..j + 1])];
    forall k ensures Owners(seen', k) == Owners(seen, k) + if k == key then {c.id} else {} {
      OwnersAppend(before, c.(strong := c.strong[..j]), k);
      OwnersAppend(before, c.(strong := c.strong[..j + 1]), k);
    }
    assert c.id !in Owners(seen, key) by {
      OwnersAppend(before, c.(strong := c.strong[..j]), key);
    }
    IndexingKey(index, duplicates, seen, seen', key, c.id);
  }

  lemma IndexingKey(index: map<StrongKey, Id>, duplicates: set<StrongKey>, seen: seq<Candidate>, seen': seq<Candidate>,
                    key: StrongKey, id: Id)
    requires Indexing(index, duplicates, seen) && id !in Owners(seen, key)
    requires forall k :: Owners(seen', k) == Owners(seen, k) + if k == key then {id} else {}
    ensures Indexing(if key in index then index else index[key := id],
                     if key in index then duplicates + {key} else duplicates, seen')
  {
  }

  lemma IndexingStart(index: map<StrongKey, Id>, duplicates: set<StrongKey>, before: seq<Candidate>, c: Candidate)
    requires Indexing(index, duplicates, before)
    ensures Indexing(index, duplicates, before + [c.(strong := c.strong[..0])])
  {
    forall key ensures Owners(before + [c.(strong := c.strong[..0])], key) == Owners(before, key) {
      OwnersAppend(before, c.(strong := c.strong[..0]), key);
    }
  }

  ghost predicate Counted(counts: map<SemanticKey, nat>, seen: seq<Candidate>, taken: set<Id>) {
    forall key :: GetOr(counts, key, 0) == |Lookalikes(seen, taken, key)|
  }

  lemma CountedStep(counts: map<SemanticKey, nat>, seen: seq<Candidate>, taken: set<Id>, c: Candidate)
    requires Counted(counts, seen, taken) && c.id !in CandidateIds(seen)
    ensures Counted(if c.id in taken then counts else counts[c.semantic := GetOr(counts, c.semantic, 0) + 1],
                    seen + [c], taken)
  {
    var counts' := if c.id in taken then counts else counts[c.semantic := GetOr(counts, c.semantic, 0) + 1];
    forall key ensures GetOr(counts', key, 0) == |Lookalikes(seen + [c], taken, key)| {
      LookalikesAppend(seen, c, taken, key);
      assert c.id !in Lookalikes(seen, taken, key);
      assert GetOr(counts, key, 0) == |Lookalikes(seen, taken, key)|;
    }
  }

  ghost predicate Grouped(groups: map<SemanticKey, seq<Id>>, seen: seq<Candidate>, taken: set<Id>) {
    forall key :: GroupHolds(GetOr(groups, key, []), Lookalikes(seen, taken, key))
  }

  ghost predicate GroupHolds(group: seq<Id>, ids: set<Id>) {
    Elements(group) == ids && |group| == |ids|
  }

  lemma GroupedStep(groups: map<SemanticKey, seq<Id>>, seen: seq<Candidate>, taken: set<Id>, c: Candidate)
    requires Grouped(groups, seen, taken) && c.id !in CandidateIds(seen)
    ensures Grouped(if c.id in taken then groups else groups[c.semantic := GetOr(groups, c.semantic, []) + [c.id]],
                    seen + [c], taken)
  {
    hide Lookalikes, GroupHolds;
    var groups' := if c.id in taken then groups else groups[c.semantic := GetOr(groups, c.semantic, []) + [c.id]];
    forall key ensures GroupHolds(GetOr(groups', key, []), Lookalikes(seen + [c], taken, key)) {
      LookalikesAppend(seen, c, taken, key);
      NotYetALookalike(seen, c, taken, key);
      var group := GetOr(groups, key, []);
      assert GroupHolds(group, Lookalikes(seen, taken, key));
      GroupAppend(group, Lookalikes(seen, taken, key), c.id);
    }
  }

  lemma NotYetALookalike(seen: seq<Candidate>, c: Candidate, taken: set<Id>, key: SemanticKey)
    requires c.id !in CandidateIds(seen)
    ensures c.id !in Lookalikes(seen, taken, key)
  {
  }

  lemma GroupAppend(group: seq<Id>, ids: set<Id>, id: Id)
    requires GroupHolds(group, ids) && id !in ids
    ensures GroupHolds(group + [id], ids + {id})
  {
    assert Elements(group + [id]) == Elements(group) + {id};
  }

  ghost predicate KeysRanked(cs: seq<Candidate>) {
    forall c :: c in cs ==> Ranked(c.strong, 5)
  }

  lemma {:induction false} PutNew(objects: seq<WebObject>, o: WebObject)
    requires DistinctIds(objects) && o.id !in IdSet(objects)
    ensures Put(objects, o) == objects + [o]
  {
    if objects != [] {
      assert objects[0].id in IdSet(objects);
      PutNew(objects[1..], o);
    }
  }

  lemma RewrittenStep(incoming: seq<WebObject>, ids: map<Id, Id>, i: nat)
    requires DistinctIds(incoming) && ids.Keys == IdSet(incoming) && Injective(ids) && i < |incoming|
    ensures DistinctIds(Rewritten(incoming[..i], ids))
    ensures Put(Rewritten(incoming[..i], ids), RenameObject(incoming[i], ids)) == Rewritten(incoming[..i + 1], ids)
  {
    var r := Rewritten(incoming[..i], ids);
    forall k | 0 <= k <= i ensures incoming[k].id in ids {
    }
    PutNew(r, RenameObject(incoming[i], ids));
  }

  lemma ReversionedAppend(base: seq<WebObject>, rewritten: seq<WebObject>, i: nat)
    requires i < |rewritten|
    ensures var o := Versioned(Find(base, rewritten[i].id), rewritten[i]);
      Reversioned(base, rewritten[..i + 1]) == Reversioned(base, rewritten[..i]) + [o]
  {
    var a, b := Reversioned(base, rewritten[..i + 1]), Reversioned(base, rewritten[..i]);
    forall k | 0 <= k < i ensures a[k] == b[k] {
      assert rewritten[..i + 1][k] == rewritten[..i][k];
    }
  }

  lemma StepUpdatesAppend(base: seq<WebObject>, front: seq<WebObject>, o: WebObject)
    ensures StepUpdates(base, front + [o]) == StepUpdates(base, front) + StepUpdate(base, o)
  {
    assert (front + [o])[..|front|] == front;
  }

  /** What the version loop reports for one object, computed before the version is assigned. */
  lemma StepUpdateEarly(base: seq<WebObject>, item: WebObject)
    ensures var prior := Find(base, item.id);
      StepUpdate(base, Versioned(prior, item)) == match prior
        case None => []
        case Some(p) =>
          var fields := ChangedFields(p, item);
          if fields == [] then [] else [ObjectUpdate(item.id, p.version, p.version + 1, fields)]
  {
    var prior := Find(base, item.id);
    if prior.Some? {
      VersionedMeaning(prior.value, item);
    }
  }

  lemma {:induction false} NoPriorNoUpdates(objects: seq<WebObject>)
    ensures StepUpdates([], objects) == []
  {
    if objects != [] {
      NoPriorNoUpdates(objects[..|objects| - 1]);
    }
  }

  lemma KeysRankedOf(objects: seq<WebObject>, provenance: map<Id, Provenance>)
    ensures KeysRanked(Candidates(objects, provenance))
  {
  }

  lemma AssignNothing(strong: map<Id, Id>, next: nat)
    ensures Assign([], [], strong, next) == Matching(strong, next)
  {
  }

  lemma AssignNext(ids: seq<Id>, partners: seq<Option<Id>>, strong: map<Id, Id>, next: nat, i: nat)
    requires |ids| == |partners| && i < |ids|
    ensures Assign(ids[..i + 1], partners[..i + 1], strong, next)
      == AssignOne(Assign(ids[..i], partners[..i], strong, next), ids[i], partners[i], strong)
  {
    assert ids[..i + 1][..i] == ids[..i] && partners[..i + 1][..i] == partners[..i];
  }

  /** What the counts and groups say about an object the strong pass left over. */
  lemma PartnerCounted(incoming: seq<Candidate>, previous: seq<Candidate>, strong: map<Id, Id>,
                       counts: map<SemanticKey, nat>, groups: map<SemanticKey, seq<Id>>, c: Candidate)
    requires c in incoming && c.id !in strong
    requires Counted(counts, incoming, strong.Keys) && Grouped(groups, previous, strong.Values)
    ensures c.semantic in counts
    ensures var candidates := GetOr(groups, c.semantic, []);
      SemanticMatch(c, incoming, previous, strong)
      == if counts[c.semantic] == 1 && |candidates| == 1 then Some(candidates[0]) else None
  {
    var mine, theirs := Lookalikes(incoming, strong.Keys, c.semantic), Lookalikes(previous, strong.Values, c.semantic);
    assert c.id in mine;
    Singleton(mine, c.id);
    assert GetOr(counts, c.semantic, 0) == |mine|;
    var candidates := GetOr(groups, c.semantic, []);
    assert GroupHolds(candidates, theirs);
    GroupSingleton(candidates, theirs);
  }

  lemma GroupSingleton(group: seq<Id>, ids: set<Id>)
    requires GroupHolds(group, ids)
    ensures |group| == 1 <==> exists id :: ids == {id}
    ensures |group| == 1 ==> ids == {group[0]}
  {
    if |group| == 1 {
      assert group[0] in Elements(group);
      Singleton(ids, group[0]);
    }
  }

  lemma SummariesAppend(objects: seq<WebObject>, o: WebObject)
    ensures Summaries(objects + [o]) == Summaries(objects) + [Summarize(o)]
  {
    hide Summarize;
    assert forall i :: 0 <= i < |objects| ==> (objects + [o])[i] == objects[i];
  }

  lemma IdsAppend(objects: seq<WebObject>, o: WebObject)
    ensures Ids(objects + [o]) == Ids(objects) + [o.id]
  {
  }

  class ObjectRegistry {
    const historyLimit: nat
    var nextObjectNumber: nat
    var current: Option<Snapshot>
    var history: seq<Snapshot>

    ghost function State(): Registry
      reads this
    {
      Registry(historyLimit, nextObjectNumber, current, history)
    }

    constructor (historyLimit: nat)
      requires historyLimit >= 2
      ensures State() == Registry(historyLimit, 1, None, []) && Valid(State())
    {
      this.historyLimit := historyLimit;
      nextObjectNumber := 1;
      current := None;
      history := [];
    }

    method AllocateId() returns (id: Id)
      modifies this`nextObjectNumber
      ensures id == Allocated(old(nextObjectNumber)) && nextObjectNumber == old(nextObjectNumber) + 1
    {
      id := Allocated(nextObjectNumber);
      nextObjectNumber := nextObjectNumber + 1;
    }

    method StrongIdentityIndexes(previous: seq<Candidate>) returns (index: map<StrongKey, Id>)
      requires DistinctCandidates(previous) && KeysRanked(previous)
      ensures IsIndex(index, previous)
    {
      index := map[];
      var duplicates: set<StrongKey> := {};
      for i := 0 to |previous|
        invariant Indexing(index, duplicates, previous[..i])
      {
        var c := previous[i];
        ghost var before := previous[..i];
        IndexingStart(index, duplicates, before, c);
        for j := 0 to |c.strong|
          invariant Indexing(index, duplicates, before + [c.(strong := c.strong[..j])])
        {
          var key := c.strong[j];
          IndexingStep(index, duplicates, before, c, j);
          if key in index {
            duplicates := duplicates + {key};
          } else {
            index := index[key := c.id];
          }
        }
        assert c.(strong := c.strong[..|c.strong|]) == c;
        assert before + [c] == previous[..i + 1];
      }
      assert previous[..|previous|] == previous;
      index := index - duplicates;
      forall key ensures Get(index, key) == StrongMatch(previous, key) {
      }
    }

    /** The first pass: strong keys, greedily in the order of the incoming objects. */
    method MatchStrong(incoming: seq<Candidate>, previous: seq<Candidate>, index: map<StrongKey, Id>)
      returns (result: map<Id, Id>, used: set<Id>)
      requires IsIndex(index, previous)
      ensures result == StrongPass(incoming, previous) && used == result.Values
    {
      result, used := map[], {};
      for i := 0 to |incoming|
        invariant result == StrongPass(incoming[..i], previous)
        invariant used == result.Values
        invariant forall id :: id in result ==> id in CandidateIds(incoming[..i])
      {
        var c := incoming[i];
        assert incoming[..i + 1][..i] == incoming[..i];
        var j := 0;
        while j < |c.strong|
          invariant 0 <= j <= |c.strong|
          invariant FirstFree(c.strong[j..], previous, used) == FirstFree(c.strong, previous, used)
          invariant result == StrongPass(incoming[..i], previous) && used == result.Values
        {
          var key := c.strong[j];
          assert Get(index, key) == StrongMatch(previous, key);
          assert c.strong[j..][1..] == c.strong[j + 1..];
          if key in index && index[key] !in used {
            break;
          }
          j := j + 1;
        }
        if j < |c.strong| {
          result := result[c.id := index[c.strong[j]]];
          used := result.Values;
        }
      }
      assert incoming[..|incoming|] == incoming;
    }

    method CountSemantic(incoming: seq<Candidate>, taken: set<Id>) returns (counts: map<SemanticKey, nat>)
      requires DistinctCandidates(incoming)
      ensures Counted(counts, incoming, taken)
    {
      counts := map[];
      for i := 0 to |incoming|
        invariant Counted(counts, incoming[..i], taken)
      {
        var c := incoming[i];
        assert incoming[..i + 1] == incoming[..i] + [c];
        CountedStep(counts, incoming[..i], taken, c);
        if c.id !in taken {
          counts := counts[c.semantic := GetOr(counts, c.semantic, 0) + 1];
        }
      }
      assert incoming[..|incoming|] == incoming;
    }

    method GroupSemantic(previous: seq<Candidate>, taken: set<Id>) returns (groups: map<SemanticKey, seq<Id>>)
      requires DistinctCandidates(previous)
      ensures Grouped(groups, previous, taken)
    {
      groups := map[];
      for i := 0 to |previous|
        invariant Grouped(groups, previous[..i], taken)
      {
        var c := previous[i];
        assert previous[..i + 1] == previous[..i] + [c];
        GroupedStep(groups, previous[..i], taken, c);
        if c.id !in taken {
          groups := groups[c.semantic := GetOr(groups, c.semantic, []) + [c.id]];
        }
      }
      assert previous[..|previous|] == previous;
    }

    /** The transient-to-stable map of an observation, against the previous objects. */
    method ReconcileIds(incoming: seq<Candidate>, previous: seq<Candidate>) returns (result: map<Id, Id>)
      requires DistinctCandidates(incoming) && DistinctCandidates(previous) && KeysRanked(previous)
      modifies this`nextObjectNumber
      ensures Matching(result, nextObjectNumber) == Reconcile(incoming, previous, old(nextObjectNumber))
    {
      hide Counted, Grouped, IsIndex, Assign, StrongPass, KeysRanked, SemanticMatch, Lookalikes;
      var index := StrongIdentityIndexes(previous);
      var strong, used := MatchStrong(incoming, previous, index);
      var counts := CountSemantic(incoming, strong.Keys);
      var groups := GroupSemantic(previous, used);
      ghost var ids, partners := IdsOf(incoming), Partners(incoming, previous, strong);
      result := strong;
      AssignNothing(strong, old(nextObjectNumber));
      for i := 0 to |incoming|
        invariant Matching(result, nextObjectNumber) == Assign(ids[..i], partners[..i], strong, old(nextObjectNumber))
      {
        var c := incoming[i];
        AssignNext(ids, partners, strong, old(nextObjectNumber), i);
        if c.id !in strong {
          PartnerCounted(incoming, previous, strong, counts, groups, c);
          var candidates := GetOr(groups, c.semantic, []);
          if counts[c.semantic] == 1 && |candidates| == 1 {
            result := result[c.id := candidates[0]];
          } else {
            var id := AllocateId();
            result := result[c.id := id];
          }
        }
      }
      assert ids[..|incoming|] == ids && partners[..|incoming|] == partners;
    }

    method RewriteObjects(incoming: seq<WebObject>, ids: map<Id, Id>) returns (stable: seq<WebObject>)
      requires DistinctIds(incoming) && ids.Keys == IdSet(incoming) && Injective(ids)
      ensures stable == Rewritten(incoming, ids)
    {
      stable := [];
      for i := 0 to |incoming|
        invariant stable == Rewritten(incoming[..i], ids)
      {
        RewrittenStep(incoming, ids, i);
        stable := Put(stable, RenameObject(incoming[i], ids));
      }
      assert incoming[..|incoming|] == incoming;
    }

    /** Gives every rewritten object its version and collects the update records. */
    method AssignVersions(base: seq<WebObject>, rewritten: seq<WebObject>)
      returns (objects: seq<WebObject>, updates: seq<ObjectUpdate>)
      ensures objects == Reversioned(base, rewritten)
      ensures updates == StepUpdates(base, objects)
    {
      hide ChangedFields, Find;
      objects, updates := [], [];
      for i := 0 to |rewritten|
        invariant objects == Reversioned(base, rewritten[..i])
        invariant updates == StepUpdates(base, objects)
      {
        var item := rewritten[i];
        var prior := Find(base, item.id);
        ReversionedAppend(base, rewritten, i);
        StepUpdatesAppend(base, objects, Versioned(prior, item));
        StepUpdateEarly(base, item);
        var fields := if prior.Some? then ChangedFields(prior.value, item) else [];
        if prior.None? {
          objects := objects + [item.(version := 1)];
        } else if fields != [] {
          objects := objects + [item.(version := prior.value.version + 1)];
          updates := updates + [ObjectUpdate(item.id, prior.value.version, prior.value.version + 1, fields)];
        } else {
          objects := objects + [item.(version := prior.value.version)];
        }
      }
      assert rewritten[..|rewritten|] == rewritten;
    }

    method RememberRevision(s: Snapshot)
      requires historyLimit >= 1 && |history| <= historyLimit
      modifies this`current, this`history
      ensures current == Some(s) && history == Remember(old(history), s, historyLimit)
    {
      current := Some(s);
      history := Forget(history, s.revision) + [s];
      ghost var entries := history;
      while |history| > historyLimit
        invariant |history| <= |entries| && history == entries[|entries| - |history|..]
        invariant |history| < |entries| ==> |history| >= historyLimit
        invariant current == Some(s)
        decreases |history|
      {
        history := history[1..];
      }
      assert entries[0..] == entries;
    }

    /** Identities, objects with their versions, and update records of an observation. */
    method Observe(c: Compilation) returns (ids: map<Id, Id>, objects: seq<WebObject>, updates: seq<ObjectUpdate>)
      requires Valid(State())
      modifies this`nextObjectNumber
      ensures Matching(ids, nextObjectNumber) == Matched(old(State()), c)
      ensures objects == Reversioned(if SameDocument(old(State()), c) then CurrentObjects(old(State())) else [],
                                     Rewritten(FullObjects(c.objects), ids))
      ensures updates == Updated(current, ContinuesDocument(current, c), objects)
    {
      var incoming := FullObjects(c.objects);
      var base, known := [], [];
      if current.Some? && current.value.document.documentId == c.document.documentId {
        base := current.value.objects;
        known := Candidates(base, current.value.provenance);
        KeysRankedOf(base, current.value.provenance);
        CandidatesShape(base, current.value.provenance);
      }
      CandidatesShape(incoming, c.provenance);
      ids := ReconcileIds(Candidates(incoming, c.provenance), known);
      assert Matching(ids, nextObjectNumber) == Matched(old(State()), c);
      var rewritten := RewriteObjects(incoming, ids);
      objects, updates := AssignVersions(base, rewritten);
      NoPriorNoUpdates(objects);
    }

    /** Stores the snapshot of an observation and derives its change set. */
    method Commit(c: Compilation, ids: map<Id, Id>, objects: seq<WebObject>, updates: seq<ObjectUpdate>)
      returns (snapshot: Snapshot, changes: ChangeSet)
      requires Injective(ids) && historyLimit >= 1 && |history| <= historyLimit
      requires updates == Updated(current, ContinuesDocument(current, c), objects)
      modifies this`current, this`history
      ensures Outcome(State(), snapshot, changes)
        == Finish(historyLimit, old(current), old(history), c, Matching(ids, nextObjectNumber), objects)
    {
      var previous := current;
      var same := previous.Some? && previous.value.document.documentId == c.document.documentId;
      var document := RewrittenDocument(c.document, ids);
      var added := Without(objects, ObjectsOf(previous));
      var removed := if same then Without(ObjectsOf(previous), objects) else [];
      var invalidated := if same then [] else ObjectsOf(previous);
      var documentChanged := DocumentChanged(previous, document);
      var previousRevision := RevisionOf(previous);
      var meaningful := !same || added != [] || removed != [] || updates != [] || documentChanged != [];
      var revision := if meaningful then previousRevision + 1 else previousRevision;
      snapshot := Snapshot(document, Relocated(c.outline, ids), Relocated(c.regions, ids), revision, objects,
                           StableProvenance(c.provenance, ids));
      changes := ChangeSet(previousRevision, revision, documentChanged, Summaries(added), updates, Ids(removed),
                           Ids(invalidated));
      RememberRevision(snapshot);
    }

    method Update(c: Compilation) returns (snapshot: Snapshot, changes: ChangeSet)
      requires Valid(State())
      modifies this
      ensures Valid(State())
      ensures Outcome(State(), snapshot, changes) == RegistryModel.Update(old(State()), c)
    {
      var ids, objects, updates := Observe(c);
      assert Injective(Matched(old(State()), c).ids);
      snapshot, changes := Commit(c, ids, objects, updates);
      UpdateValid(old(State()), c);
    }

    /** The snapshot remembered under a revision. */
    method FindRevision(revision: nat) returns (baseline: Option<Snapshot>)
      ensures baseline == Lookup(history, revision)
      ensures baseline.Some? ==> baseline.value in history && baseline.value.revision == revision
    {
      for i := 0 to |history|
        invariant Lookup(history, revision) == Lookup(history[i..], revision)
      {
        assert history[i..][1..] == history[i + 1..];
        if history[i].revision == revision {
          return Some(history[i]);
        }
      }
      baseline := None;
    }

    /** Summaries of the objects that are new. */
    static method DiffAdded(before: seq<WebObject>, after: seq<WebObject>) returns (added: seq<Summary>)
      ensures added == Summaries(Without(after, before))
    {
      hide Summarize, Find;
      added := [];
      for i := 0 to |after|
        invariant added == Summaries(Without(after[..i], before))
      {
        assert after[..i + 1][..i] == after[..i];
        var prior := Find(before, after[i].id);
        if prior.None? {
          SummariesAppend(Without(after[..i], before), after[i]);
          added := added + [Summarize(after[i])];
        }
      }
      assert after[..|after|] == after;
    }

    /** Records of the objects that have another version now. */
    static method DiffUpdated(before: seq<WebObject>, after: seq<WebObject>) returns (updated: seq<ObjectUpdate>)
      ensures updated == DiffUpdates(before, after)
    {
      hide ChangedFields, Find;
      updated := [];
      for i := 0 to |after|
        invariant updated == DiffUpdates(before, after[..i])
      {
        assert after[..i + 1][..i] == after[..i];
        var prior := Find(before, after[i].id);
        if prior.Some? && after[i].version != prior.value.version {
          updated := updated + [ObjectUpdate(after[i].id, prior.value.version, after[i].version, ChangedFields(prior.value, after[i]))];
        }
      }
      assert after[..|after|] == after;
    }

    /** The ids of the objects that are gone. */
    static method DiffGone(before: seq<WebObject>, after: seq<WebObject>) returns (gone: seq<Id>)
      ensures gone == Ids(Without(before, after))
    {
      hide Find;
      gone := [];
      for i := 0 to |before|
        invariant gone == Ids(Without(before[..i], after))
      {
        assert before[..i + 1][..i] == before[..i];
        var kept := Find(after, before[i].id);
        if kept.None? {
          IdsAppend(Without(before[..i], after), before[i]);
          gone := gone + [before[i].id];
        }
      }
      assert before[..|before|] == before;
    }

    static method DiffSnapshots(baseline: Snapshot, latest: Snapshot) returns (changes: ChangeSet)
      ensures changes == Diff(baseline, latest)
    {
      hide ChangedDocumentFields, Without, Summaries, DiffUpdates, Ids;
      var added := DiffAdded(baseline.objects, latest.objects);
      var updated := DiffUpdated(baseline.objects, latest.objects);
      var removed, invalidated: seq<Id> := [], [];
      if baseline.document.documentId == latest.document.documentId {
        removed := DiffGone(baseline.objects, latest.objects);
      } else {
        invalidated := Ids(baseline.objects);
      }
      changes := ChangeSet(baseline.revision, latest.revision, ChangedDocumentFields(baseline.document, latest.document),
                           added, updated, removed, invalidated);
    }

    method ChangesSince(revision: nat) returns (answer: Result<ChangeSet, RevisionError>)
      ensures answer == RegistryModel.ChangesSince(State(), revision)
    {
      hide Diff, ChangedDocumentFields, Summaries, Lookup;
      if current.None? {
        return if revision == 0 then Ok(NoChange(0)) else Err(RevisionUnavailable(revision));
      }
      var latest := current.value;
      if revision == latest.revision {
        return Ok(NoChange(revision));
      }
      if revision == 0 {
        return Ok(ChangeSet(0, latest.revision, ChangedDocumentFields(BLANK_DOCUMENT, latest.document),
                            Summaries(latest.objects), [], [], []));
      }
      var baseline := FindRevision(revision);
      if baseline.None? {
        return Err(RevisionUnavailable(revision));
      }
      var changes := DiffSnapshots(baseline.value, latest);
      answer := Ok(changes);
    }

    /** The current object with an id, if there is one. */
    method Require(id: Id) returns (item: Option<WebObject>)
      requires Valid(State())
      ensures item == Find(CurrentObjects(State()), id)
      ensures forall o :: o in CurrentObjects(State()) && o.id == id ==> item == Some(o)
    {
      item := if current.None? then None else Find(current.value.objects, id);
      forall o | o in CurrentObjects(State()) && o.id == id ensures item == Some(o) {
        FindExact(CurrentObjects(State()), o);
      }
    }

    method Clear()
      modifies this
      ensures State() == Registry(historyLimit, 1, None, [])
    {
      nextObjectNumber := 1;
      current := None;
      history := [];
    }
  }
}
