/** Matching the objects of a new observation against the previous snapshot: first by
    strong identity keys, then by semantic keys that are unique on both sides. */
module IdentityMatching {
  import opened Prelude
  import opened TextWords
  import opened WebObjects

  datatype Provenance = Provenance(
    engineFrameId: Option<string>,
    backendNodeId: Option<int>,
    axNodeId: Option<string>,
    legacyId: Option<string>)

  datatype StrongKey =
    | DocumentKey(origin: string)
    | EngineFrameKey(engineFrame: string)
    | BackendKey(frame: string, node: int)
    | AxKey(frame: string, ax: string)
    | LegacyKey(frame: string, legacy: string)

  datatype ParentKey = ParentKey(category: string, role: string, name: string)

  datatype SemanticKey = SemanticKey(
    category: string, role: string, name: string, origin: string, frame: string,
    parent: ParentKey, lifetime: string)

  /** All the matching looks at: an id with its strong keys and its semantic key. */
  datatype Candidate = Candidate(id: Id, strong: seq<StrongKey>, semantic: SemanticKey)

  /** Python truthiness of an optional string. */
  predicate Truthy(s: Option<string>) {
    s.Some? && s.value != ""
  }

  predicate LegacyIdIsStable(value: string) {
    "el_" <= value || "frame_" <= value || "dialog_" <= value
  }

  function GetText(s: Option<string>): string {
    if s.Some? then s.value else ""
  }

  function FrameOf(o: WebObject): string {
    GetText(o.frameId)
  }

  function Rank(key: StrongKey): nat {
    match key
    case DocumentKey(_) => 0
    case EngineFrameKey(_) => 1
    case BackendKey(_, _) => 2
    case AxKey(_, _) => 3
    case LegacyKey(_, _) => 4
  }

  ghost predicate Ranked(keys: seq<StrongKey>, bound: nat) {
    && (forall i :: 0 <= i < |keys| ==> Rank(keys[i]) < bound)
    && (forall i, j :: 0 <= i < j < |keys| ==> Rank(keys[i]) < Rank(keys[j]))
  }

  /** Appends the key of one kind after the keys of earlier kinds. */
  function AppendIf(keys: seq<StrongKey>, condition: bool, key: StrongKey): (r: seq<StrongKey>)
    requires Ranked(keys, Rank(key))
    ensures Ranked(r, Rank(key) + 1)
  {
    if condition then keys + [key] else keys
  }

  /** The keys the provenance gives, after those of the object itself. */
  function ProvenanceKeys(document: seq<StrongKey>, frame: string, p: Provenance): (keys: seq<StrongKey>)
    requires Ranked(document, 1)
    ensures Ranked(keys, 5)
  {
    hide Ranked;
    var engine := AppendIf(document, Truthy(p.engineFrameId), EngineFrameKey(GetText(p.engineFrameId)));
    var backend := AppendIf(engine, p.backendNodeId.Some?, BackendKey(frame, if p.backendNodeId.Some? then p.backendNodeId.value else 0));
    var ax := AppendIf(backend, Truthy(p.axNodeId), AxKey(frame, GetText(p.axNodeId)));
    AppendIf(ax, Truthy(p.legacyId) && LegacyIdIsStable(p.legacyId.value), LegacyKey(frame, GetText(p.legacyId)))
  }

  function StrongKeys(o: WebObject, p: Option<Provenance>): (keys: seq<StrongKey>)
    ensures Ranked(keys, 5)
  {
    var document := AppendIf([], o.role == "document", DocumentKey(o.origin));
    if p.None? then document else ProvenanceKeys(document, FrameOf(o), p.value)
  }

  /** The listed parent of an object. */
  function ListedParent(o: WebObject, objects: seq<WebObject>): Option<WebObject> {
    if o.relations.parent.Some? then Find(objects, o.relations.parent.value) else None
  }

  function ParentKeyOf(parent: Option<WebObject>): ParentKey {
    match parent
    case None => ParentKey("", "", "")
    case Some(p) => ParentKey(p.category, p.role, Norm(p.name))
  }

  function ParentOf(o: WebObject, objects: seq<WebObject>): ParentKey {
    ParentKeyOf(ListedParent(o, objects))
  }

  function SemanticKeyOf(o: WebObject, objects: seq<WebObject>): SemanticKey {
    SemanticKey(o.category, o.role, Norm(o.name), o.origin, FrameOf(o), ParentOf(o, objects), o.lifetime)
  }

  lemma AppendMember(keys: seq<StrongKey>, condition: bool, key: StrongKey, k: StrongKey)
    requires Ranked(keys, Rank(key))
    ensures k in AppendIf(keys, condition, key) <==> k in keys || (condition && k == key)
  {
  }

  lemma ProvenanceMember(document: seq<StrongKey>, frame: string, p: Provenance, k: StrongKey)
    requires Ranked(document, 1)
    ensures k in ProvenanceKeys(document, frame, p) <==>
      || k in document
      || (Truthy(p.engineFrameId) && k == EngineFrameKey(p.engineFrameId.value))
      || (p.backendNodeId.Some? && k == BackendKey(frame, p.backendNodeId.value))
      || (Truthy(p.axNodeId) && k == AxKey(frame, p.axNodeId.value))
      || (Truthy(p.legacyId) && LegacyIdIsStable(p.legacyId.value) && k == LegacyKey(frame, p.legacyId.value))
  {
    hide Ranked, AppendIf, LegacyIdIsStable;
    var engineKey := EngineFrameKey(GetText(p.engineFrameId));
    var backendKey := BackendKey(frame, if p.backendNodeId.Some? then p.backendNodeId.value else 0);
    var axKey, legacyKey := AxKey(frame, GetText(p.axNodeId)), LegacyKey(frame, GetText(p.legacyId));
    var engine := AppendIf(document, Truthy(p.engineFrameId), engineKey);
    var backend := AppendIf(engine, p.backendNodeId.Some?, backendKey);
    var ax := AppendIf(backend, Truthy(p.axNodeId), axKey);
    AppendMember(document, Truthy(p.engineFrameId), engineKey, k);
    AppendMember(engine, p.backendNodeId.Some?, backendKey, k);
    AppendMember(backend, Truthy(p.axNodeId), axKey, k);
    AppendMember(ax, Truthy(p.legacyId) && LegacyIdIsStable(p.legacyId.value), legacyKey, k);
  }

  /** Which strong keys an object has: the origin of a document, and what its provenance gives, where
      empty texts and legacy ids without a stable prefix give nothing. */
  lemma StrongKeysExact(o: WebObject, p: Option<Provenance>, key: StrongKey)
    ensures key in StrongKeys(o, p) <==>
      match key
      case DocumentKey(origin) => o.role == "document" && origin == o.origin
      case EngineFrameKey(frame) => p.Some? && frame != "" && p.value.engineFrameId == Some(frame)
      case BackendKey(frame, node) => p.Some? && frame == FrameOf(o) && p.value.backendNodeId == Some(node)
      case AxKey(frame, ax) => p.Some? && frame == FrameOf(o) && ax != "" && p.value.axNodeId == Some(ax)
      case LegacyKey(frame, legacy) =>
        && p.Some? && frame == FrameOf(o) && p.value.legacyId == Some(legacy)
        && ("el_" <= legacy || "frame_" <= legacy || "dialog_" <= legacy)
  {
    hide AppendIf, ProvenanceKeys;
    AppendMember([], o.role == "document", DocumentKey(o.origin), key);
    if p.Some? {
      ProvenanceMember(AppendIf([], o.role == "document", DocumentKey(o.origin)), FrameOf(o), p.value, key);
    }
  }

  /** What a semantic key takes from an object or from its parent; an unlisted one looks empty. */
  predicate LooksAlike(a: Option<WebObject>, b: Option<WebObject>) {
    match (a, b)
    case (None, None) => true
    case (Some(x), None) => x.category == "" && x.role == "" && Words(x.name) == []
    case (None, Some(y)) => y.category == "" && y.role == "" && Words(y.name) == []
    case (Some(x), Some(y)) => x.category == y.category && x.role == y.role && Words(x.name) == Words(y.name)
  }

  lemma NoWordsExactly(s: string)
    ensures Norm(s) == "" <==> Words(s) == []
  {
    hide Norm;
    NormJoins(s);
    if Words(s) != [] {
      assert IsWord(Words(s)[0]);
    }
  }

  lemma ParentsEqualExactly(a: Option<WebObject>, b: Option<WebObject>)
    ensures ParentKeyOf(a) == ParentKeyOf(b) <==> LooksAlike(a, b)
  {
    hide Norm, Words;
    NoWordsExactly(if a.Some? then a.value.name else "");
    NoWordsExactly(if b.Some? then b.value.name else "");
    NormEqualExactly(if a.Some? then a.value.name else "", if b.Some? then b.value.name else "");
  }

  /** Two objects share their semantic key exactly when they and their listed parents look alike and
      their origins, frames and lifetimes are equal. */
  lemma SemanticKeysEqualExactly(a: WebObject, listA: seq<WebObject>, b: WebObject, listB: seq<WebObject>)
    ensures SemanticKeyOf(a, listA) == SemanticKeyOf(b, listB) <==>
      && LooksAlike(Some(a), Some(b)) && LooksAlike(ListedParent(a, listA), ListedParent(b, listB))
      && a.origin == b.origin && FrameOf(a) == FrameOf(b) && a.lifetime == b.lifetime
  {
    hide Norm, Words, Find;
    NormEqualExactly(a.name, b.name);
    ParentsEqualExactly(ListedParent(a, listA), ListedParent(b, listB));
  }

  function CandidateOf(o: WebObject, objects: seq<WebObject>, provenance: map<Id, Provenance>): Candidate {
    Candidate(o.id, StrongKeys(o, Get(provenance, o.id)), SemanticKeyOf(o, objects))
  }

  function Candidates(objects: seq<WebObject>, provenance: map<Id, Provenance>): (r: seq<Candidate>)
    ensures |r| == |objects|
    ensures forall i :: 0 <= i < |objects| ==> r[i] == CandidateOf(objects[i], objects, provenance)
  {
    seq(|objects|, i requires 0 <= i < |objects| => CandidateOf(objects[i], objects, provenance))
  }

  function CandidateIds(cs: seq<Candidate>): set<Id> {
    set c | c in cs :: c.id
  }

  ghost predicate DistinctCandidates(cs: seq<Candidate>) {
    forall i, j :: 0 <= i < j < |cs| ==> cs[i].id != cs[j].id
  }

  // ---------------------------------------------------------------------------
  // Specification of the two passes
  // ---------------------------------------------------------------------------

  function Owners(previous: seq<Candidate>, key: StrongKey): set<Id> {
    set c | c in previous && key in c.strong :: c.id
  }

  /** The previous id a strong key identifies: its owner when there is exactly one. */
  ghost function StrongMatch(previous: seq<Candidate>, key: StrongKey): (r: Option<Id>)
    ensures r.Some? <==> exists id :: Owners(previous, key) == {id}
    ensures r.Some? ==> Owners(previous, key) == {r.value}
  {
    if exists id :: Owners(previous, key) == {id}
    then var id :| Owners(previous, key) == {id}; Some(id)
    else None
  }

  /** The first key, in order, that identifies a previous id not yet taken. */
  ghost function FirstFree(keys: seq<StrongKey>, previous: seq<Candidate>, used: set<Id>): Option<Id> {
    if keys == [] then None
    else
      var hit := StrongMatch(previous, keys[0]);
      if hit.Some? && hit.value !in used then hit else FirstFree(keys[1..], previous, used)
  }

  /** Result of the greedy strong pass over a prefix of the incoming objects. */
  ghost function StrongPass(incoming: seq<Candidate>, previous: seq<Candidate>): map<Id, Id> {
    if incoming == [] then map[]
    else
      var m := StrongPass(incoming[..|incoming| - 1], previous);
      var last := incoming[|incoming| - 1];
      match FirstFree(last.strong, previous, m.Values)
      case None => m
      case Some(id) => m[last.id := id]
  }

  /** Ids with a given semantic key among the candidates outside `taken`. */
  function Lookalikes(cs: seq<Candidate>, taken: set<Id>, key: SemanticKey): set<Id> {
    set c | c in cs && c.id !in taken && c.semantic == key :: c.id
  }

  /** The semantic partner of an incoming object the strong pass left over. */
  ghost function SemanticMatch(c: Candidate, incoming: seq<Candidate>, previous: seq<Candidate>, strong: map<Id, Id>)
    : (r: Option<Id>)
    ensures r.Some? <==>
      && Lookalikes(incoming, strong.Keys, c.semantic) == {c.id}
      && exists id :: Lookalikes(previous, strong.Values, c.semantic) == {id}
    ensures r.Some? ==> Lookalikes(previous, strong.Values, c.semantic) == {r.value}
  {
    if Lookalikes(incoming, strong.Keys, c.semantic) == {c.id}
       && exists id :: Lookalikes(previous, strong.Values, c.semantic) == {id}
    then var id :| Lookalikes(previous, strong.Values, c.semantic) == {id}; Some(id)
    else None
  }

  datatype Matching = Matching(ids: map<Id, Id>, next: nat)

  /** The semantic partner of every incoming object. */
  ghost function Partners(incoming: seq<Candidate>, previous: seq<Candidate>, strong: map<Id, Id>): (r: seq<Option<Id>>)
    ensures |r| == |incoming|
    ensures forall i :: 0 <= i < |incoming| ==> r[i] == SemanticMatch(incoming[i], incoming, previous, strong)
  {
    seq(|incoming|, i requires 0 <= i < |incoming| => SemanticMatch(incoming[i], incoming, previous, strong))
  }

  function AssignOne(before: Matching, id: Id, partner: Option<Id>, strong: map<Id, Id>): Matching {
    if id in strong then before
    else match partner
      case Some(p) => before.(ids := before.ids[id := p])
      case None => Matching(before.ids[id := Allocated(before.next)], before.next + 1)
  }

  /** The second pass over some incoming ids with known partners; leftovers get fresh numbers. */
  function Assign(ids: seq<Id>, partners: seq<Option<Id>>, strong: map<Id, Id>, next: nat): Matching
    requires |ids| == |partners|
  {
    if ids == [] then Matching(strong, next)
    else
      var n := |ids| - 1;
      AssignOne(Assign(ids[..n], partners[..n], strong, next), ids[n], partners[n], strong)
  }

  function IdsOf(cs: seq<Candidate>): (ids: seq<Id>)
    ensures |ids| == |cs|
    ensures forall i :: 0 <= i < |cs| ==> ids[i] == cs[i].id
  {
    seq(|cs|, i requires 0 <= i < |cs| => cs[i].id)
  }

  ghost function Reconcile(incoming: seq<Candidate>, previous: seq<Candidate>, next: nat): Matching {
    var strong := StrongPass(incoming, previous);
    Assign(IdsOf(incoming), Partners(incoming, previous, strong), strong, next)
  }

  // ---------------------------------------------------------------------------
  // Total, injective, and every result is previous or fresh
  // ---------------------------------------------------------------------------

  lemma {:induction false} FirstFreeIsPrevious(keys: seq<StrongKey>, previous: seq<Candidate>, used: set<Id>)
    ensures FirstFree(keys, previous, used).Some? ==>
              var id := FirstFree(keys, previous, used).value;
              id in CandidateIds(previous) && id !in used
  {
    if keys != [] {
      FirstFreeIsPrevious(keys[1..], previous, used);
      var hit := StrongMatch(previous, keys[0]);
      if hit.Some? {
        assert hit.value in Owners(previous, keys[0]);
      }
    }
  }

  lemma {:induction false} StrongPassInjective(incoming: seq<Candidate>, previous: seq<Candidate>)
    requires DistinctCandidates(incoming)
    ensures Injective(StrongPass(incoming, previous))
    ensures StrongPass(incoming, previous).Keys <= CandidateIds(incoming)
    ensures StrongPass(incoming, previous).Values <= CandidateIds(previous)
  {
    if incoming != [] {
      var front := incoming[..|incoming| - 1];
      var last := incoming[|incoming| - 1];
      StrongPassInjective(front, previous);
      assert incoming == front + [last];
      FirstFreeIsPrevious(last.strong, previous, StrongPass(front, previous).Values);
    }
  }

  ghost predicate BelowNext(ids: set<Id>, next: nat) {
    forall id :: id in ids ==> id.Allocated? && id.number < next
  }

  /** Partners are previous ids outside the strong matches, and no two share one. */
  ghost predicate GoodPartners(ids: seq<Id>, partners: seq<Option<Id>>, strong: map<Id, Id>, previous: set<Id>) {
    && |ids| == |partners|
    && (forall i :: 0 <= i < |ids| && ids[i] !in strong && partners[i].Some? ==>
          partners[i].value in previous && partners[i].value !in strong.Values)
    && (forall i, j :: 0 <= i < j < |ids| && ids[i] !in strong && ids[j] !in strong && partners[i].Some? ==>
          partners[i] != partners[j])
  }

  /** The assignment ids[i] received: its strong match, its partner, or a fresh number. */
  ghost predicate Assigned(m: Matching, id: Id, partner: Option<Id>, strong: map<Id, Id>, next: nat) {
    && id in m.ids
    && if id in strong then m.ids[id] == strong[id]
       else match partner
         case Some(p) => m.ids[id] == p
         case None => m.ids[id].Allocated? && next <= m.ids[id].number < m.next
  }

  ghost predicate AssignInvariant(m: Matching, ids: seq<Id>, partners: seq<Option<Id>>, strong: map<Id, Id>, next: nat)
    requires |ids| == |partners|
  {
    && next <= m.next
    && m.ids.Keys == strong.Keys + Elements(ids)
    && Injective(m.ids)
    && (forall id :: id in strong.Keys ==> Assigned(m, id, None, strong, next))
    && (forall i :: 0 <= i < |ids| ==> Assigned(m, ids[i], partners[i], strong, next))
  }

  lemma {:induction false} AssignSound(ids: seq<Id>, partners: seq<Option<Id>>, strong: map<Id, Id>, next: nat,
                                       previous: set<Id>)
    requires GoodPartners(ids, partners, strong, previous) && Distinct(ids)
    requires Injective(strong) && strong.Values <= previous && BelowNext(previous, next)
    ensures AssignInvariant(Assign(ids, partners, strong, next), ids, partners, strong, next)
  {
    hide AssignInvariant, AssignOne, Injective, BelowNext;
    if ids == [] {
      NothingAssigned(strong, next);
    } else {
      var n := |ids| - 1;
      AssignSound(ids[..n], partners[..n], strong, next, previous);
      var before := Assign(ids[..n], partners[..n], strong, next);
      assert ids == ids[..n] + [ids[n]];
      if ids[n] !in strong {
        NewValueDiffers(before, ids, partners, strong, next, previous);
        AssignStep(before, ids, partners, strong, next);
      } else {
        AssignSkip(before, ids, partners, strong, next);
      }
    }
  }

  lemma NothingAssigned(strong: map<Id, Id>, next: nat)
    requires Injective(strong)
    ensures AssignInvariant(Assign([], [], strong, next), [], [], strong, next)
  {
    assert Elements<Id>([]) == {};
  }

  lemma AssignSkip(before: Matching, ids: seq<Id>, partners: seq<Option<Id>>, strong: map<Id, Id>, next: nat)
    requires ids != [] && |ids| == |partners|
    requires var n := |ids| - 1; ids[n] in strong && AssignInvariant(before, ids[..n], partners[..n], strong, next)
    ensures var n := |ids| - 1;
      AssignInvariant(AssignOne(before, ids[n], partners[n], strong), ids, partners, strong, next)
  {
    var n := |ids| - 1;
    assert ids == ids[..n] + [ids[n]];
    forall i | 0 <= i < |ids| ensures Assigned(before, ids[i], partners[i], strong, next) {
      if i < n {
        assert Assigned(before, ids[..n][i], partners[..n][i], strong, next);
      } else {
        assert Assigned(before, ids[n], None, strong, next);
      }
    }
  }

  lemma NewValueDiffers(before: Matching, ids: seq<Id>, partners: seq<Option<Id>>, strong: map<Id, Id>, next: nat,
                        previous: set<Id>)
    requires ids != [] && GoodPartners(ids, partners, strong, previous)
    requires strong.Values <= previous && BelowNext(previous, next)
    requires var n := |ids| - 1; ids[n] !in strong && AssignInvariant(before, ids[..n], partners[..n], strong, next)
    ensures var n := |ids| - 1;
      AssignOne(before, ids[n], partners[n], strong).ids[ids[n]] !in before.ids.Values
  {
    var n := |ids| - 1;
    var value := AssignOne(before, ids[n], partners[n], strong).ids[ids[n]];
    forall id | id in before.ids
      ensures before.ids[id] != value
    {
      if id in strong {
        assert Assigned(before, id, None, strong, next);
        assert strong[id] in strong.Values;
      } else {
        var k :| 0 <= k < n && ids[..n][k] == id;
        assert Assigned(before, ids[..n][k], partners[..n][k], strong, next);
      }
    }
  }

  lemma AssignStep(before: Matching, ids: seq<Id>, partners: seq<Option<Id>>, strong: map<Id, Id>, next: nat)
    requires ids != [] && |ids| == |partners| && Distinct(ids)
    requires var n := |ids| - 1;
      && ids[n] !in strong
      && AssignInvariant(before, ids[..n], partners[..n], strong, next)
      && AssignOne(before, ids[n], partners[n], strong).ids[ids[n]] !in before.ids.Values
    ensures var n := |ids| - 1;
      AssignInvariant(AssignOne(before, ids[n], partners[n], strong), ids, partners, strong, next)
  {
    var n := |ids| - 1;
    var m := AssignOne(before, ids[n], partners[n], strong);
    assert ids == ids[..n] + [ids[n]];
    forall i | 0 <= i < |ids|
      ensures Assigned(m, ids[i], partners[i], strong, next)
    {
      if i < n {
        assert Assigned(before, ids[..n][i], partners[..n][i], strong, next);
      }
    }
    assert Elements(ids) == Elements(ids[..n]) + {ids[n]};
    forall id | id in strong.Keys
      ensures Assigned(m, id, None, strong, next)
    {
      assert Assigned(before, id, None, strong, next);
    }
  }

  lemma SemanticMatchesDiffer(a: Candidate, b: Candidate, incoming: seq<Candidate>, previous: seq<Candidate>,
                              strong: map<Id, Id>)
    requires a in incoming && b in incoming && a.id != b.id && DistinctCandidates(previous)
    requires a.id !in strong && b.id !in strong
    requires SemanticMatch(a, incoming, previous, strong).Some?
    ensures SemanticMatch(a, incoming, previous, strong) != SemanticMatch(b, incoming, previous, strong)
  {
    if a.semantic != b.semantic && SemanticMatch(b, incoming, previous, strong).Some? {
      assert SemanticMatch(a, incoming, previous, strong).value in Lookalikes(previous, strong.Values, a.semantic);
      assert SemanticMatch(b, incoming, previous, strong).value in Lookalikes(previous, strong.Values, b.semantic);
    }
  }

  lemma PartnersGood(incoming: seq<Candidate>, previous: seq<Candidate>, strong: map<Id, Id>)
    requires DistinctCandidates(incoming) && DistinctCandidates(previous)
    ensures GoodPartners(IdsOf(incoming), Partners(incoming, previous, strong), strong, CandidateIds(previous))
  {
    var partners := Partners(incoming, previous, strong);
    forall i | 0 <= i < |incoming| && partners[i].Some?
      ensures partners[i].value in CandidateIds(previous) && partners[i].value !in strong.Values
    {
      assert partners[i].value in Lookalikes(previous, strong.Values, incoming[i].semantic);
    }
    forall i, j | 0 <= i < j < |incoming| && incoming[i].id !in strong && incoming[j].id !in strong && partners[i].Some?
      ensures partners[i] != partners[j]
    {
      SemanticMatchesDiffer(incoming[i], incoming[j], incoming, previous, strong);
    }
  }

  /** What one incoming object is assigned: a previous id or a number never allocated before. */
  lemma ReconciledId(incoming: seq<Candidate>, previous: seq<Candidate>, next: nat, k: nat)
    requires DistinctCandidates(incoming) && DistinctCandidates(previous) && k < |incoming|
    requires BelowNext(CandidateIds(previous), next)
    ensures var m := Reconcile(incoming, previous, next);
      && incoming[k].id in m.ids
      && (|| m.ids[incoming[k].id] in CandidateIds(previous)
          || (m.ids[incoming[k].id].Allocated? && next <= m.ids[incoming[k].id].number < m.next))
  {
    hide StrongPass, Partners, Assign, GoodPartners, BelowNext;
    var strong := StrongPass(incoming, previous);
    var partners := Partners(incoming, previous, strong);
    StrongPassInjective(incoming, previous);
    PartnersGood(incoming, previous, strong);
    AssignSound(IdsOf(incoming), partners, strong, next, CandidateIds(previous));
    assert Assigned(Reconcile(incoming, previous, next), IdsOf(incoming)[k], partners[k], strong, next);
    if incoming[k].id in strong {
      assert strong[incoming[k].id] in strong.Values;
    }
  }

  /** Reconciliation is total and injective, and each result is a previous id or a number
      never allocated before. */
  lemma ReconcileSound(incoming: seq<Candidate>, previous: seq<Candidate>, next: nat)
    requires DistinctCandidates(incoming) && DistinctCandidates(previous)
    requires BelowNext(CandidateIds(previous), next)
    ensures var m := Reconcile(incoming, previous, next);
      && next <= m.next
      && m.ids.Keys == CandidateIds(incoming)
      && Injective(m.ids)
      && (forall id :: id in m.ids ==>
            || m.ids[id] in CandidateIds(previous)
            || (m.ids[id].Allocated? && next <= m.ids[id].number < m.next))
  {
    hide StrongPass, Partners, Assign, GoodPartners, BelowNext;
    var strong := StrongPass(incoming, previous);
    var partners := Partners(incoming, previous, strong);
    StrongPassInjective(incoming, previous);
    PartnersGood(incoming, previous, strong);
    AssignSound(IdsOf(incoming), partners, strong, next, CandidateIds(previous));
    var m := Reconcile(incoming, previous, next);
    assert Elements(IdsOf(incoming)) == CandidateIds(incoming);
    forall id | id in m.ids
      ensures m.ids[id] in CandidateIds(previous)
           || (m.ids[id].Allocated? && next <= m.ids[id].number < m.next)
    {
      var k :| 0 <= k < |incoming| && incoming[k].id == id;
      ReconciledId(incoming, previous, next, k);
    }
  }
}
