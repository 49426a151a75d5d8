/** Runs in which the registry is also cleared: a page that turns out to be disallowed clears it while
    the session goes on. Between two clears everything said about runs of updates holds; across a
    clear ids, versions and revisions start over. */
module RegistryClears {
  import opened Prelude
  import opened WebObjects
  import opened IdentityMatching
  import opened RegistryModel
  import opened RegistryStep
  import opened RegistryRuns
  import opened SemanticOperations

  datatype Event = Observed(page: Compilation) | Cleared

  /** The registry after the first k events. */
  ghost function AfterEvents(limit: nat, events: seq<Event>, k: nat): (r: Registry)
    requires limit >= 2 && k <= |events|
    ensures Valid(r) && r.limit == limit
  {
    if k == 0 || events[k - 1].Cleared? then Empty(limit)
    else
      var before := AfterEvents(limit, events, k - 1);
      UpdateSound(before, events[k - 1].page);
      Update(before, events[k - 1].page).registry
  }

  ghost function Seen(limit: nat, events: seq<Event>, k: nat): View
    requires limit >= 2 && k <= |events|
  {
    ViewOf(AfterEvents(limit, events, k))
  }

  ghost predicate NoClear(events: seq<Event>, i: nat, k: nat)
    requires i <= k <= |events|
  {
    forall t :: i <= t < k ==> events[t].Observed?
  }

  // ---------------------------------------------------------------------------
  // Between two clears
  // ---------------------------------------------------------------------------

  /** The pages observed since the last clear among the first k events. */
  function Since(events: seq<Event>, k: nat): seq<Compilation>
    requires k <= |events|
  {
    if k == 0 || events[k - 1].Cleared? then [] else Since(events, k - 1) + [events[k - 1].page]
  }

  lemma {:induction false} AfterPrefix(limit: nat, inputs: seq<Compilation>, more: seq<Compilation>, k: nat)
    requires limit >= 2 && k <= |inputs|
    ensures After(limit, inputs + more, k) == After(limit, inputs, k)
  {
    hide Update, Valid;
    if k > 0 {
      AfterPrefix(limit, inputs, more, k - 1);
      assert (inputs + more)[k - 1] == inputs[k - 1];
    }
  }

  lemma {:induction false} SinceReaches(limit: nat, events: seq<Event>, k: nat)
    requires limit >= 2 && k <= |events|
    ensures AfterEvents(limit, events, k) == After(limit, Since(events, k), |Since(events, k)|)
  {
    hide Update, Valid;
    if k > 0 && events[k - 1].Observed? {
      var before := Since(events, k - 1);
      SinceReaches(limit, events, k - 1);
      AfterPrefix(limit, before, [events[k - 1].page], |before|);
    }
  }

  lemma {:induction false} SinceGrows(events: seq<Event>, i: nat, k: nat)
    requires i <= k <= |events| && NoClear(events, i, k)
    ensures Since(events, i) <= Since(events, k) && |Since(events, k)| == |Since(events, i)| + (k - i)
  {
    if i < k {
      SinceGrows(events, i, k - 1);
    }
  }

  /** Between clears the registry goes through the states of a run of updates: `at` is how many of
      its updates came before event i. */
  lemma StretchIsARun(limit: nat, events: seq<Event>, i: nat, k: nat) returns (inputs: seq<Compilation>, at: nat)
    requires limit >= 2 && i <= k <= |events| && NoClear(events, i, k)
    ensures at + (k - i) == |inputs|
    ensures forall t: nat :: i <= t <= k ==> AfterEvents(limit, events, t) == After(limit, inputs, at + (t - i))
  {
    hide AfterEvents, After, Since;
    inputs, at := Since(events, k), |Since(events, i)|;
    SinceGrows(events, i, k);
    forall t: nat | i <= t <= k ensures AfterEvents(limit, events, t) == After(limit, inputs, at + (t - i)) {
      SinceReaches(limit, events, t);
      SinceGrows(events, i, t);
      SinceGrows(events, t, k);
      var front := Since(events, t);
      AfterPrefix(limit, front, inputs[|front|..], |front|);
      assert front + inputs[|front|..] == inputs;
    }
  }

  /** Between clears an id that left never comes back, and none survives a change of document. */
  lemma IdsNeverReturn(limit: nat, events: seq<Event>, i: nat, j: nat, k: nat)
    requires limit >= 2 && i < j <= k <= |events| && NoClear(events, i, k)
    ensures var a, b, c := Seen(limit, events, i), Seen(limit, events, j), Seen(limit, events, k);
      && (forall id :: id in a.table && id !in b.table ==> id !in c.table)
      && (DocumentReplaced(Seen(limit, events, j - 1), b) ==> a.table.Keys !! c.table.Keys)
  {
    hide AfterEvents, After, ViewOf, DocumentReplaced;
    var inputs, at := StretchIsARun(limit, events, i, k);
    IdentityLifetimes(limit, inputs, at, at + (j - i), at + (k - i));
  }

  /** Between clears a version or a revision stands for one content. */
  lemma VersionsStandForContent(limit: nat, events: seq<Event>, i: nat, k: nat)
    requires limit >= 2 && i <= k <= |events| && NoClear(events, i, k)
    ensures var a, b := Seen(limit, events, i), Seen(limit, events, k);
      && (forall id :: id in a.table && id in b.table && a.table[id].version == b.table[id].version ==>
            SameContent(a.table[id], b.table[id]))
      && (a.revision == b.revision ==>
            && a.document == b.document && a.table.Keys == b.table.Keys
            && (forall id :: id in a.table ==> SameContent(a.table[id], b.table[id])))
  {
    hide AfterEvents, After, ViewOf, SameContent;
    var inputs, at := StretchIsARun(limit, events, i, k);
    VersionsSound(limit, inputs, at, at + (k - i));
  }

  /** A plan accepted without a clear since its expectations were seen acts on what was seen. */
  lemma AcceptedPlanIsAsSeen(limit: nat, events: seq<Event>, i: nat, n: nat, request: Request)
    requires limit >= 2 && i <= n <= |events| && NoClear(events, i, n)
    requires Plan(AfterEvents(limit, events, n), request).Ok?
    ensures var target := Plan(AfterEvents(limit, events, n), request).value;
      target.id == request.target && AsSeen(Seen(limit, events, i), request, target)
  {
    hide AfterEvents, After, ViewOf, AsSeen, Plan;
    var inputs, at := StretchIsARun(limit, events, i, n);
    AcceptedPlanIsCurrent(limit, inputs, at, at + (n - i), request);
  }

  /** Without a clear since then, a plan for an object that changed or left is refused. */
  lemma OutdatedPlanIsRefused(limit: nat, events: seq<Event>, i: nat, n: nat, request: Request)
    requires limit >= 2 && i <= n <= |events| && NoClear(events, i, n)
    requires var seen := Seen(limit, events, i);
      && request.target in seen.table
      && request.expectedObjectVersion == Some(seen.table[request.target].version)
      && Stale(seen, Seen(limit, events, n), request.target)
    ensures Plan(AfterEvents(limit, events, n), request).Err?
  {
    hide AfterEvents, After, ViewOf, Plan, Stale;
    var inputs, at := StretchIsARun(limit, events, i, n);
    StalePlanIsRefused(limit, inputs, at, at + (n - i), request);
  }

  // ---------------------------------------------------------------------------
  // After a clear
  // ---------------------------------------------------------------------------

  lemma {:induction false} NothingFree(keys: seq<StrongKey>, used: set<Id>)
    ensures FirstFree(keys, [], used) == None
  {
    if keys != [] {
      NothingFree(keys[1..], used);
      assert Owners([], keys[0]) == {};
    }
  }

  lemma {:induction false} NothingStrong(incoming: seq<Candidate>)
    ensures StrongPass(incoming, []) == map[]
  {
    if incoming != [] {
      NothingStrong(incoming[..|incoming| - 1]);
      var none: map<Id, Id> := map[];
      NothingFree(incoming[|incoming| - 1].strong, none.Values);
    }
  }

  lemma NoPartner(c: Candidate, incoming: seq<Candidate>)
    ensures SemanticMatch(c, incoming, [], map[]) == None
  {
    var strong: map<Id, Id> := map[];
    assert Lookalikes([], strong.Values, c.semantic) == {};
    forall id ensures Lookalikes([], strong.Values, c.semantic) != {id} {
      assert id in {id};
    }
  }

  /** The ids have the numbers from `next` on, in order. */
  ghost predicate Numbered(m: Matching, ids: seq<Id>, next: nat) {
    && m.next == next + |ids| && m.ids.Keys == Elements(ids)
    && forall i :: 0 <= i < |ids| ==> ids[i] in m.ids && m.ids[ids[i]] == Allocated(next + i)
  }

  lemma OneMoreNumber(m: Matching, ids: seq<Id>, next: nat)
    requires ids != [] && Distinct(ids) && Numbered(m, ids[..|ids| - 1], next)
    ensures Numbered(Matching(m.ids[ids[|ids| - 1] := Allocated(m.next)], m.next + 1), ids, next)
    ensures ids[|ids| - 1] !in m.ids
  {
    var n := |ids| - 1;
    assert ids == ids[..n] + [ids[n]];
    assert Elements(ids) == Elements(ids[..n]) + {ids[n]};
    forall i | 0 <= i < n ensures ids[..n][i] == ids[i] && ids[i] != ids[n] {
    }
  }

  /** Without anything to match, numbers are handed out in order. */
  lemma {:induction false} NumberedInOrder(ids: seq<Id>, partners: seq<Option<Id>>, next: nat)
    requires |ids| == |partners| && Distinct(ids) && forall i :: 0 <= i < |ids| ==> partners[i] == None
    ensures Numbered(Assign(ids, partners, map[], next), ids, next)
  {
    hide Numbered;
    if ids == [] {
      assert Numbered(Matching(map[], next), [], next) by { NoneNumbered(next); }
    } else {
      var n := |ids| - 1;
      NumberedInOrder(ids[..n], partners[..n], next);
      OneMoreNumber(Assign(ids[..n], partners[..n], map[], next), ids, next);
    }
  }

  lemma NoneNumbered(next: nat)
    ensures Numbered(Matching(map[], next), [], next)
  {
    assert Elements<Id>([]) == {};
  }

  lemma FirstReconciled(cs: seq<Candidate>)
    requires DistinctCandidates(cs)
    ensures Numbered(Reconcile(cs, [], 1), IdsOf(cs), 1)
  {
    hide Numbered, Assign, StrongPass, SemanticMatch;
    NothingStrong(cs);
    forall i | 0 <= i < |cs| ensures Partners(cs, [], map[])[i] == None {
      NoPartner(cs[i], cs);
    }
    NumberedInOrder(IdsOf(cs), Partners(cs, [], map[]), 1);
  }

  lemma FirstMatching(limit: nat, c: Compilation)
    requires limit >= 2
    ensures Numbered(Matched(Empty(limit), c), Ids(FullObjects(c.objects)), 1)
  {
    hide Reconcile, StrongKeys, SemanticKeyOf, FullObjects, Numbered;
    var incoming := FullObjects(c.objects);
    CandidatesShape(incoming, c.provenance);
    FirstReconciled(Candidates(incoming, c.provenance));
    assert IdsOf(Candidates(incoming, c.provenance)) == Ids(incoming);
  }

  lemma FirstObjects(limit: nat, c: Compilation)
    requires limit >= 2
    ensures var objects, incoming := Update(Empty(limit), c).snapshot.objects, FullObjects(c.objects);
      && |objects| == |incoming|
      && forall i :: 0 <= i < |incoming| ==>
           && objects[i] == RenameObject(incoming[i], Matched(Empty(limit), c).ids).(version := 1)
           && objects[i].id == Allocated(1 + i)
  {
    hide Matched, FullObjects, RenameRelations, WellFormed, MeaningfulChange, StepChanges, Remember, RewrittenDocument, StableProvenance,
      Relocated, Numbered;
    FirstMatching(limit, c);
    var incoming := FullObjects(c.objects);
    NumbersOf(Matched(Empty(limit), c), incoming);
  }

  lemma NumbersOf(m: Matching, incoming: seq<WebObject>)
    requires Numbered(m, Ids(incoming), 1)
    ensures forall i :: 0 <= i < |incoming| ==> MapId(incoming[i].id, m.ids) == Allocated(1 + i)
  {
    forall i | 0 <= i < |incoming| ensures MapId(incoming[i].id, m.ids) == Allocated(1 + i) {
      assert Ids(incoming)[i] == incoming[i].id;
    }
  }

  /** The first page after the start or a clear: its objects are numbered from 1 in order, at version
      1 of revision 1, whatever page it is. */
  lemma FirstPage(limit: nat, c: Compilation)
    requires limit >= 2
    ensures var u, incoming := Update(Empty(limit), c), FullObjects(c.objects);
      && u.snapshot.revision == 1 && |u.snapshot.objects| == |incoming|
      && forall i :: 0 <= i < |incoming| ==>
           && u.snapshot.objects[i] == RenameObject(incoming[i], Matched(Empty(limit), c).ids).(version := 1)
           && u.snapshot.objects[i].id == Allocated(1 + i)
  {
    hide Update, Matched, FullObjects, RenameObject, Describes, WellFormed;
    FirstObjects(limit, c);
    UpdateSound(Empty(limit), c);
  }

  /** What a request expects of the object it names, dropped. */
  function Expecting(request: Request): Request {
    request.(expectedObjectVersion := None, expectedDocumentRevision := None)
  }

  /** What an Agent would ask for after seeing object i of the first page. */
  function AskFor(i: nat, operation: string): Request {
    Request(Allocated(1 + i), operation, Some(1), Some(1))
  }

  lemma FirstView(limit: nat, c: Compilation, i: nat)
    requires limit >= 2 && i < |FullObjects(c.objects)|
    ensures var r := Update(Empty(limit), c).registry;
      && Revision(r) == 1
      && Find(CurrentObjects(r), Allocated(1 + i)) == Some(Update(Empty(limit), c).snapshot.objects[i])
      && Update(Empty(limit), c).snapshot.objects[i].version == 1
  {
    FirstPage(limit, c);
    UpdateSound(Empty(limit), c);
    hide Update, FullObjects, DistinctIds;
    var s := Update(Empty(limit), c).snapshot;
    UpdatedDistinct(limit, c);
    FindExact(s.objects, s.objects[i]);
  }

  lemma UpdatedDistinct(limit: nat, c: Compilation)
    requires limit >= 2
    ensures DistinctIds(Update(Empty(limit), c).snapshot.objects)
  {
    hide Update;
    UpdateObjects(Empty(limit), c);
  }

  /** Across a clear expectations check nothing: what was seen at some place of the first page before
      it names, at the same version and revision, whatever stands at that place of the first page
      after it. */
  lemma ClearForgets(limit: nat, a: Compilation, b: Compilation, i: nat, operation: string)
    requires limit >= 2 && i < |FullObjects(a.objects)| && i < |FullObjects(b.objects)|
    ensures var events := [Observed(a), Cleared, Observed(b)];
      var seen, now, request := Seen(limit, events, 1), AfterEvents(limit, events, 3), AskFor(i, operation);
      && request.target in seen.table && request.expectedObjectVersion == Some(seen.table[request.target].version)
      && request.expectedDocumentRevision == Some(seen.revision)
      && Plan(now, request) == Plan(now, Expecting(request))
  {
    hide Update, FullObjects;
    var events := [Observed(a), Cleared, Observed(b)];
    assert AfterEvents(limit, events, 0) == Empty(limit) == AfterEvents(limit, events, 2);
    FirstView(limit, a, i);
    FirstView(limit, b, i);
  }

  // ---------------------------------------------------------------------------
  // Such a plan, and what it hits
  // ---------------------------------------------------------------------------

  const VISIBLE := ObjectState(true, true, false, None, None, None, None, None, false, None, None)
  const UNRELATED := Relations(None, [], None, [], [], [], [], [], None, None, None, [], [], [], [], [])

  function Lone(category: string): WebObject {
    WebObject(Named("x"), 0, category, "button", "", ["click"], "", "", NoValue, VISIBLE, UNRELATED,
              Observable(true, false, None, None), "", None, "", Security("", false, false, None), None)
  }

  function LonePage(category: string): Compilation {
    Compilation(BLANK_DOCUMENT, [], [], [Full(Lone(category))], map[])
  }

  lemma LoneObject(category: string)
    ensures FullObjects(LonePage(category).objects) == [Lone(category)]
  {
    var objects := LonePage(category).objects;
    assert objects[..0] == [];
    assert FullObjects(objects[..0]) == [];
  }

  lemma LoneSeen(limit: nat, category: string)
    requires limit >= 2
    ensures var r := Update(Empty(limit), LonePage(category)).registry;
      && Revision(r) == 1 && Find(CurrentObjects(r), Allocated(1)).Some?
      && var o := Find(CurrentObjects(r), Allocated(1)).value;
         o.category == category && o.version == 1 && o.capabilities == ["click"] && o.state == VISIBLE
  {
    hide Update, Matched, RenameRelations;
    LoneObject(category);
    FirstPage(limit, LonePage(category));
    FirstView(limit, LonePage(category), 0);
  }

  /** A plan made before a clear is accepted after it, on an object with another meaning. */
  lemma OutdatedPlanAccepted(limit: nat) returns (events: seq<Event>, request: Request)
    requires limit >= 2
    ensures |events| == 3 && events[1].Cleared?
    ensures var seen := Seen(limit, events, 1);
      && request.target in seen.table && request.expectedObjectVersion == Some(seen.table[request.target].version)
      && request.expectedDocumentRevision == Some(seen.revision)
      && Stale(seen, Seen(limit, events, 3), request.target)
      && Plan(AfterEvents(limit, events, 3), request).Ok?
      && !SameContent(seen.table[request.target], Plan(AfterEvents(limit, events, 3), request).value)
  {
    hide Update;
    events, request := [Observed(LonePage("link")), Cleared, Observed(LonePage("button"))], AskFor(0, "click");
    assert AfterEvents(limit, events, 0) == Empty(limit) == AfterEvents(limit, events, 2);
    LoneSeen(limit, "link");
    LoneSeen(limit, "button");
    var before, after := Seen(limit, events, 1).table[Allocated(1)], Seen(limit, events, 3).table[Allocated(1)];
    assert before.category == "link" && after.category == "button";
  }
}
