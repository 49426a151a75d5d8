/** The page model the registry works on: objects, their relations, and the comparison
    that decides which changes are meaningful. */
module WebObjects {
  import opened Prelude
  import opened TextWords

  datatype RouteKind = TabId | ObjectId

  /** Registry identities are "obj_<n>"; a Routed identity is the keyed digest under which a
      session-local one is published, free of collisions; every other identifier text is Named.
      Incoming transient ids range over all of them, so they may collide with stable ones. */
  datatype Id =
    | Allocated(number: nat)
    | Named(text: string)
    | Routed(kind: RouteKind, session: nat, generation: nat, local: Id)

  datatype Relations = Relations(
    parent: Option<Id>,
    children: seq<Id>,
    belongsTo: Option<Id>,
    labelledBy: seq<Id>,
    describedBy: seq<Id>,
    controls: seq<Id>,
    controlledBy: seq<Id>,
    owns: seq<Id>,
    ownedBy: Option<Id>,
    form: Option<Id>,
    submitControl: Option<Id>,
    fields: seq<Id>,
    items: seq<Id>,
    rows: seq<Id>,
    cells: seq<Id>,
    headers: seq<Id>)

  datatype ObjectState = ObjectState(
    visible: bool,
    enabled: bool,
    focused: bool,
    selected: Option<bool>,
    checked: Option<bool>,
    expanded: Option<bool>,
    required: Option<bool>,
    readonly: Option<bool>,
    busy: bool,
    invalid: Option<bool>,
    pressed: Option<bool>)

  datatype Observable = Observable(
    inspectable: bool,
    rangeReadable: bool,
    itemCount: Option<nat>,
    visibleRange: Option<(nat, nat)>)

  datatype Security = Security(
    contentTrust: string,
    crossOrigin: bool,
    protectedInput: bool,
    protectedKind: Option<string>)

  datatype Value = NoValue | Scalar(text: string) | ScalarList(items: seq<string>)

  datatype WebObject = WebObject(
    id: Id,
    version: nat,
    category: string,
    role: string,
    name: string,
    capabilities: seq<string>,
    description: string,
    text: string,
    value: Value,
    state: ObjectState,
    relations: Relations,
    observable: Observable,
    origin: string,
    frameId: Option<string>,
    lifetime: string,
    security: Security,
    opaqueReason: Option<string>)

  datatype Summary = Summary(
    id: Id,
    category: string,
    role: string,
    name: string,
    capabilities: seq<string>,
    version: nat,
    stateSummary: seq<string>)

  /** What a compiled page may list: full objects, or summaries which the registry skips. */
  datatype Projection = Full(item: WebObject) | Brief(summary: Summary)

  // ---------------------------------------------------------------------------
  // Meaningful content and changed fields
  // ---------------------------------------------------------------------------

  /** Everything a change must show up in: all fields but the id, the version and the busy
      flag, with the three prose fields normalised. */
  function Meaningful(o: WebObject): WebObject {
    o.(id := Named(""), version := 0, state := o.state.(busy := false),
       name := Norm(o.name), description := Norm(o.description), text := Norm(o.text))
  }

  /** Nothing a reader would notice tells the objects apart: all fields are equal but the id, the
      version and the busy flag, and the three prose fields consist of the same words. */
  predicate SameContent(a: WebObject, b: WebObject) {
    && b == a.(id := b.id, version := b.version, state := a.state.(busy := b.state.busy),
               name := b.name, description := b.description, text := b.text)
    && Words(a.name) == Words(b.name) && Words(a.description) == Words(b.description) && Words(a.text) == Words(b.text)
  }

  lemma SameContentExact(a: WebObject, b: WebObject)
    ensures SameContent(a, b) <==> Meaningful(a) == Meaningful(b)
  {
    hide Norm, Words;
    NormEqualExactly(a.name, b.name);
    NormEqualExactly(a.description, b.description);
    NormEqualExactly(a.text, b.text);
  }

  function Flag(changed: bool, field: string): seq<string> {
    if changed then [field] else []
  }

  function ChangedObservable(a: Observable, b: Observable): seq<string> {
    Flag(a.inspectable != b.inspectable, "observable.inspectable")
    + Flag(a.itemCount != b.itemCount, "observable.item_count")
    + Flag(a.rangeReadable != b.rangeReadable, "observable.range_readable")
    + Flag(a.visibleRange != b.visibleRange, "observable.visible_range")
  }

  function ChangedRelations(a: Relations, b: Relations): seq<string> {
    Flag(a.belongsTo != b.belongsTo, "relations.belongs_to")
    + Flag(a.cells != b.cells, "relations.cells")
    + Flag(a.children != b.children, "relations.children")
    + Flag(a.controlledBy != b.controlledBy, "relations.controlled_by")
    + Flag(a.controls != b.controls, "relations.controls")
    + Flag(a.describedBy != b.describedBy, "relations.described_by")
    + Flag(a.fields != b.fields, "relations.fields")
    + Flag(a.form != b.form, "relations.form")
    + Flag(a.headers != b.headers, "relations.headers")
    + Flag(a.items != b.items, "relations.items")
    + Flag(a.labelledBy != b.labelledBy, "relations.labelled_by")
    + Flag(a.ownedBy != b.ownedBy, "relations.owned_by")
    + Flag(a.owns != b.owns, "relations.owns")
    + Flag(a.parent != b.parent, "relations.parent")
    + Flag(a.rows != b.rows, "relations.rows")
    + Flag(a.submitControl != b.submitControl, "relations.submit_control")
  }

  function ChangedSecurity(a: Security, b: Security): seq<string> {
    Flag(a.contentTrust != b.contentTrust, "security.content_trust")
    + Flag(a.crossOrigin != b.crossOrigin, "security.cross_origin")
    + Flag(a.protectedInput != b.protectedInput, "security.protected_input")
    + Flag(a.protectedKind != b.protectedKind, "security.protected_kind")
  }

  function ChangedState(a: ObjectState, b: ObjectState): seq<string> {
    Flag(a.checked != b.checked, "state.checked")
    + Flag(a.enabled != b.enabled, "state.enabled")
    + Flag(a.expanded != b.expanded, "state.expanded")
    + Flag(a.focused != b.focused, "state.focused")
    + Flag(a.invalid != b.invalid, "state.invalid")
    + Flag(a.pressed != b.pressed, "state.pressed")
    + Flag(a.readonly != b.readonly, "state.readonly")
    + Flag(a.required != b.required, "state.required")
    + Flag(a.selected != b.selected, "state.selected")
    + Flag(a.visible != b.visible, "state.visible")
  }

  /** Dotted names of the fields that differ, in sorted order. */
  function ChangedFields(a: WebObject, b: WebObject): seq<string> {
    Flag(a.capabilities != b.capabilities, "capabilities")
    + Flag(a.category != b.category, "category")
    + Flag(Norm(a.description) != Norm(b.description), "description")
    + Flag(a.frameId != b.frameId, "frame_id")
    + Flag(a.lifetime != b.lifetime, "lifetime")
    + Flag(Norm(a.name) != Norm(b.name), "name")
    + ChangedObservable(a.observable, b.observable)
    + Flag(a.opaqueReason != b.opaqueReason, "opaque_reason")
    + Flag(a.origin != b.origin, "origin")
    + ChangedRelations(a.relations, b.relations)
    + Flag(a.role != b.role, "role")
    + ChangedSecurity(a.security, b.security)
    + ChangedState(a.state, b.state)
    + Flag(Norm(a.text) != Norm(b.text), "text")
    + Flag(a.value != b.value, "value")
  }

  lemma ChangedRelationsExact(a: Relations, b: Relations)
    ensures ChangedRelations(a, b) == [] <==> a == b
  {
    assert |ChangedRelations(a, b)| == 0 <==> a == b;
  }

  lemma ChangedStateExact(a: ObjectState, b: ObjectState)
    ensures ChangedState(a, b) == [] <==> a.(busy := false) == b.(busy := false)
  {
    assert |ChangedState(a, b)| == 0 <==> a.(busy := false) == b.(busy := false);
  }

  lemma ChangedObservableExact(a: Observable, b: Observable)
    ensures ChangedObservable(a, b) == [] <==> a == b
  {
    assert |ChangedObservable(a, b)| == 0 <==> a == b;
  }

  lemma ChangedSecurityExact(a: Security, b: Security)
    ensures ChangedSecurity(a, b) == [] <==> a == b
  {
    assert |ChangedSecurity(a, b)| == 0 <==> a == b;
  }

  /** A prose field whose words changed is reported by name. */
  lemma ProseReported(a: WebObject, b: WebObject)
    ensures Words(a.name) != Words(b.name) ==> "name" in ChangedFields(a, b)
    ensures Words(a.description) != Words(b.description) ==> "description" in ChangedFields(a, b)
    ensures Words(a.text) != Words(b.text) ==> "text" in ChangedFields(a, b)
  {
    hide Norm, Words, ChangedObservable, ChangedRelations, ChangedSecurity, ChangedState;
    NormEqualExactly(a.name, b.name);
    NormEqualExactly(a.description, b.description);
    NormEqualExactly(a.text, b.text);
  }

  /** So is every other field of the object itself that changed. */
  lemma FieldsReported(a: WebObject, b: WebObject)
    ensures a.capabilities != b.capabilities ==> "capabilities" in ChangedFields(a, b)
    ensures a.category != b.category ==> "category" in ChangedFields(a, b)
    ensures a.role != b.role ==> "role" in ChangedFields(a, b)
    ensures a.value != b.value ==> "value" in ChangedFields(a, b)
    ensures a.origin != b.origin ==> "origin" in ChangedFields(a, b)
    ensures a.frameId != b.frameId ==> "frame_id" in ChangedFields(a, b)
    ensures a.lifetime != b.lifetime ==> "lifetime" in ChangedFields(a, b)
    ensures a.opaqueReason != b.opaqueReason ==> "opaque_reason" in ChangedFields(a, b)
  {
    hide Norm, ChangedObservable, ChangedRelations, ChangedSecurity, ChangedState;
  }

  lemma StateReported(a: ObjectState, b: ObjectState)
    ensures a.checked != b.checked ==> "state.checked" in ChangedState(a, b)
    ensures a.enabled != b.enabled ==> "state.enabled" in ChangedState(a, b)
    ensures a.expanded != b.expanded ==> "state.expanded" in ChangedState(a, b)
    ensures a.focused != b.focused ==> "state.focused" in ChangedState(a, b)
    ensures a.invalid != b.invalid ==> "state.invalid" in ChangedState(a, b)
    ensures a.pressed != b.pressed ==> "state.pressed" in ChangedState(a, b)
    ensures a.readonly != b.readonly ==> "state.readonly" in ChangedState(a, b)
    ensures a.required != b.required ==> "state.required" in ChangedState(a, b)
    ensures a.selected != b.selected ==> "state.selected" in ChangedState(a, b)
    ensures a.visible != b.visible ==> "state.visible" in ChangedState(a, b)
  {
  }

  /** And every field of its records. */
  lemma NestedReported(a: WebObject, b: WebObject, field: string)
    ensures field in ChangedRelations(a.relations, b.relations) ==> field in ChangedFields(a, b)
    ensures field in ChangedState(a.state, b.state) ==> field in ChangedFields(a, b)
    ensures field in ChangedSecurity(a.security, b.security) ==> field in ChangedFields(a, b)
    ensures field in ChangedObservable(a.observable, b.observable) ==> field in ChangedFields(a, b)
  {
    hide Norm, ChangedObservable, ChangedRelations, ChangedSecurity, ChangedState, Flag;
  }

  predicate SameMeaning(a: WebObject, b: WebObject) {
    && a.capabilities == b.capabilities && a.category == b.category && Norm(a.description) == Norm(b.description)
    && a.frameId == b.frameId && a.lifetime == b.lifetime && Norm(a.name) == Norm(b.name)
    && ChangedObservable(a.observable, b.observable) == [] && a.opaqueReason == b.opaqueReason && a.origin == b.origin
    && ChangedRelations(a.relations, b.relations) == [] && a.role == b.role && ChangedSecurity(a.security, b.security) == []
    && ChangedState(a.state, b.state) == [] && Norm(a.text) == Norm(b.text) && a.value == b.value
  }

  lemma NoFieldReported(a: WebObject, b: WebObject)
    ensures ChangedFields(a, b) == [] <==> SameMeaning(a, b)
  {
    assert |ChangedFields(a, b)| == 0 <==> SameMeaning(a, b);
  }

  /** No field is reported exactly when the meaningful contents coincide. */
  lemma ChangedFieldsExact(a: WebObject, b: WebObject)
    ensures ChangedFields(a, b) == [] <==> Meaningful(a) == Meaningful(b)
  {
    NoFieldReported(a, b);
    ChangedRelationsExact(a.relations, b.relations);
    ChangedStateExact(a.state, b.state);
    ChangedObservableExact(a.observable, b.observable);
    ChangedSecurityExact(a.security, b.security);
  }

  function StateSummary(s: ObjectState): seq<string> {
    Flag(s.visible, "visible")
    + Flag(s.enabled, "enabled")
    + Flag(s.focused, "focused")
    + Flag(s.selected == Some(true), "selected")
    + Flag(s.checked == Some(true), "checked")
    + Flag(s.expanded == Some(true), "expanded")
    + Flag(s.expanded == Some(false), "collapsed")
  }

  /** What a summary says about a state, and when. */
  lemma StateSummaryExact(s: ObjectState)
    ensures forall word :: word in StateSummary(s) <==>
      || (word == "visible" && s.visible) || (word == "enabled" && s.enabled) || (word == "focused" && s.focused)
      || (word == "selected" && s.selected == Some(true)) || (word == "checked" && s.checked == Some(true))
      || (word == "expanded" && s.expanded == Some(true)) || (word == "collapsed" && s.expanded == Some(false))
  {
  }

  function Summarize(o: WebObject): Summary {
    Summary(o.id, o.category, o.role, o.name, o.capabilities, o.version, StateSummary(o.state))
  }

  // ---------------------------------------------------------------------------
  // Ordered collections of objects (a Python dict keyed by object id)
  // ---------------------------------------------------------------------------

  function Ids(objects: seq<WebObject>): (ids: seq<Id>)
    ensures |ids| == |objects|
    ensures forall i :: 0 <= i < |objects| ==> ids[i] == objects[i].id
  {
    seq(|objects|, i requires 0 <= i < |objects| => objects[i].id)
  }

  function IdSet(objects: seq<WebObject>): set<Id> {
    set o | o in objects :: o.id
  }

  ghost predicate DistinctIds(objects: seq<WebObject>) {
    forall i, j :: 0 <= i < j < |objects| ==> objects[i].id != objects[j].id
  }

  function Find(objects: seq<WebObject>, id: Id): (r: Option<WebObject>)
    ensures r.Some? ==> r.value in objects && r.value.id == id
    ensures r.None? <==> id !in IdSet(objects)
  {
    if objects == [] then None
    else if objects[0].id == id then Some(objects[0])
    else Find(objects[1..], id)
  }

  /** The dict view of an ordered collection. */
  function Table(objects: seq<WebObject>): (t: map<Id, WebObject>)
    ensures t.Keys == IdSet(objects)
    ensures forall id :: id in t ==> Some(t[id]) == Find(objects, id)
  {
    map id | id in IdSet(objects) :: Find(objects, id).value
  }

  lemma {:induction false} FindExact(objects: seq<WebObject>, o: WebObject)
    requires DistinctIds(objects) && o in objects
    ensures Find(objects, o.id) == Some(o)
  {
    if objects[0] != o {
      assert o in objects[1..];
      var k :| 0 < k < |objects| && objects[k] == o;
      assert objects[0].id != objects[k].id;
      FindExact(objects[1..], o);
    }
  }

  /** Overwrites the entry with o's id in place, or appends o. */
  function Put(objects: seq<WebObject>, o: WebObject): (r: seq<WebObject>)
    requires DistinctIds(objects)
    ensures DistinctIds(r)
    ensures IdSet(r) == IdSet(objects) + {o.id}
    ensures forall x :: x in r <==> x == o || (x in objects && x.id != o.id)
  {
    if objects == [] then [o]
    else if objects[0].id == o.id then
      assert objects == [objects[0]] + objects[1..];
      [o] + objects[1..]
    else
      assert objects == [objects[0]] + objects[1..];
      [objects[0]] + Put(objects[1..], o)
  }

  /** The dict {item.id: item for item in projections if it is full}. */
  function FullObjects(projections: seq<Projection>): (r: seq<WebObject>)
    ensures DistinctIds(r)
  {
    if projections == [] then []
    else
      var front := FullObjects(projections[..|projections| - 1]);
      match projections[|projections| - 1]
      case Brief(_) => front
      case Full(item) => Put(front, item)
  }

  // ---------------------------------------------------------------------------
  // Renaming
  // ---------------------------------------------------------------------------

  function MapId(id: Id, m: map<Id, Id>): Id {
    if id in m then m[id] else id
  }

  function MapOption(id: Option<Id>, m: map<Id, Id>): Option<Id> {
    match id
    case None => None
    case Some(value) => Some(MapId(value, m))
  }

  function MapList(ids: seq<Id>, m: map<Id, Id>): (r: seq<Id>)
    ensures |r| == |ids|
    ensures forall i :: 0 <= i < |ids| ==> r[i] == MapId(ids[i], m)
  {
    seq(|ids|, i requires 0 <= i < |ids| => MapId(ids[i], m))
  }

  function RenameRelations(r: Relations, m: map<Id, Id>): Relations {
    Relations(
      MapOption(r.parent, m),
      MapList(r.children, m),
      MapOption(r.belongsTo, m),
      MapList(r.labelledBy, m),
      MapList(r.describedBy, m),
      MapList(r.controls, m),
      MapList(r.controlledBy, m),
      MapList(r.owns, m),
      MapOption(r.ownedBy, m),
      MapOption(r.form, m),
      MapOption(r.submitControl, m),
      MapList(r.fields, m),
      MapList(r.items, m),
      MapList(r.rows, m),
      MapList(r.cells, m),
      MapList(r.headers, m))
  }

  function RenameObject(o: WebObject, m: map<Id, Id>): WebObject {
    o.(id := MapId(o.id, m), relations := RenameRelations(o.relations, m))
  }

  /** All ids a relation record mentions. */
  function Mentions(r: Relations): set<Id> {
    OptionSet(r.parent) + Elements(r.children) + OptionSet(r.belongsTo) + Elements(r.labelledBy)
    + Elements(r.describedBy) + Elements(r.controls) + Elements(r.controlledBy) + Elements(r.owns)
    + OptionSet(r.ownedBy) + OptionSet(r.form) + OptionSet(r.submitControl) + Elements(r.fields)
    + Elements(r.items) + Elements(r.rows) + Elements(r.cells) + Elements(r.headers)
  }

  function OptionSet(id: Option<Id>): set<Id> {
    if id.Some? then {id.value} else {}
  }

  // ---------------------------------------------------------------------------
  // Relation by relation
  // ---------------------------------------------------------------------------

  datatype RelationName =
    | Parent | Children | BelongsTo | LabelledBy | DescribedBy | Controls | ControlledBy | Owns | OwnedBy
    | FormOf | SubmitControl | Fields | Items | Rows | Cells | Headers

  function OptionList(id: Option<Id>): seq<Id> {
    if id.Some? then [id.value] else []
  }

  /** The ids an object is related to under one name. */
  function Related(r: Relations, name: RelationName): seq<Id> {
    match name
    case Parent => OptionList(r.parent)
    case Children => r.children
    case BelongsTo => OptionList(r.belongsTo)
    case LabelledBy => r.labelledBy
    case DescribedBy => r.describedBy
    case Controls => r.controls
    case ControlledBy => r.controlledBy
    case Owns => r.owns
    case OwnedBy => OptionList(r.ownedBy)
    case FormOf => OptionList(r.form)
    case SubmitControl => OptionList(r.submitControl)
    case Fields => r.fields
    case Items => r.items
    case Rows => r.rows
    case Cells => r.cells
    case Headers => r.headers
  }

  /** Renaming keeps every relation under its name and renames its ids in order. */
  lemma RenamesEachRelation(r: Relations, m: map<Id, Id>, name: RelationName)
    ensures Related(RenameRelations(r, m), name) == MapList(Related(r, name), m)
  {
  }

  /** Whatever an object is related to is mentioned. */
  lemma RelatedMentioned(r: Relations, name: RelationName)
    ensures Elements(Related(r, name)) <= Mentions(r)
  {
  }

  /** The name under which a change of the relation is reported. */
  function FieldName(name: RelationName): string {
    match name
    case Parent => "relations.parent"
    case Children => "relations.children"
    case BelongsTo => "relations.belongs_to"
    case LabelledBy => "relations.labelled_by"
    case DescribedBy => "relations.described_by"
    case Controls => "relations.controls"
    case ControlledBy => "relations.controlled_by"
    case Owns => "relations.owns"
    case OwnedBy => "relations.owned_by"
    case FormOf => "relations.form"
    case SubmitControl => "relations.submit_control"
    case Fields => "relations.fields"
    case Items => "relations.items"
    case Rows => "relations.rows"
    case Cells => "relations.cells"
    case Headers => "relations.headers"
  }

  lemma RelationReported(a: Relations, b: Relations, name: RelationName)
    requires Related(a, name) != Related(b, name)
    ensures FieldName(name) in ChangedRelations(a, b)
  {
  }

  lemma MapListInverse(ids: seq<Id>, m: map<Id, Id>, back: map<Id, Id>)
    requires forall id :: id in ids ==> MapId(MapId(id, m), back) == id
    ensures MapList(MapList(ids, m), back) == ids
  {
  }

  /** Renaming there and back is the identity on every relation whose mentions come back. */
  lemma RenameInverse(r: Relations, m: map<Id, Id>, back: map<Id, Id>)
    requires forall id :: id in Mentions(r) ==> MapId(MapId(id, m), back) == id
    ensures RenameRelations(RenameRelations(r, m), back) == r
  {
    hide MapList;
    MapListInverse(r.children, m, back);
    MapListInverse(r.labelledBy, m, back);
    MapListInverse(r.describedBy, m, back);
    MapListInverse(r.controls, m, back);
    MapListInverse(r.controlledBy, m, back);
    MapListInverse(r.owns, m, back);
    MapListInverse(r.fields, m, back);
    MapListInverse(r.items, m, back);
    MapListInverse(r.rows, m, back);
    MapListInverse(r.cells, m, back);
    MapListInverse(r.headers, m, back);
  }

  /** Every id of `source` is renamed into `target`. */
  ghost predicate MapsInto(m: map<Id, Id>, source: set<Id>, target: set<Id>) {
    forall id :: id in source ==> MapId(id, m) in target
  }

  lemma ListInside(ids: seq<Id>, m: map<Id, Id>, source: set<Id>, target: set<Id>)
    requires Elements(ids) <= source && MapsInto(m, source, target)
    ensures Elements(MapList(ids, m)) <= target
  {
    var mapped := MapList(ids, m);
    forall id | id in mapped ensures id in target {
      var i :| 0 <= i < |mapped| && mapped[i] == id;
      assert ids[i] in Elements(ids);
    }
  }

  /** A renamed record mentions renamed ids only. */
  lemma MentionsInside(r: Relations, m: map<Id, Id>, source: set<Id>, target: set<Id>)
    requires Mentions(r) <= source && MapsInto(m, source, target)
    ensures Mentions(RenameRelations(r, m)) <= target
  {
    hide MapList, Elements;
    ListInside(r.children, m, source, target);
    ListInside(r.labelledBy, m, source, target);
    ListInside(r.describedBy, m, source, target);
    ListInside(r.controls, m, source, target);
    ListInside(r.controlledBy, m, source, target);
    ListInside(r.owns, m, source, target);
    ListInside(r.fields, m, source, target);
    ListInside(r.items, m, source, target);
    ListInside(r.rows, m, source, target);
    ListInside(r.cells, m, source, target);
    ListInside(r.headers, m, source, target);
  }
}
