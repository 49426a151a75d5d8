/** The checks every semantic operation passes before it is translated into browser actions. */
module SemanticOperations {
  import opened Prelude
  import opened WebObjects
  import opened RegistryModel
  import opened RegistryStep
  import opened RegistryRuns

  datatype Request = Request(
    target: Id,
    operation: string,
    expectedObjectVersion: Option<nat>,
    expectedDocumentRevision: Option<nat>)

  datatype PlanError =
    | DocumentRevisionConflict
    | ObjectNotFound
    | ObjectVersionConflict
    | OperationNotSupported
    | OperationTemporarilyUnavailable

  /** The target of a request whose checks all pass, or the first check that fails. */
  function Plan(r: Registry, request: Request): Result<WebObject, PlanError> {
    if request.expectedDocumentRevision.Some? && request.expectedDocumentRevision.value != Revision(r)
    then Err(DocumentRevisionConflict)
    else match Find(CurrentObjects(r), request.target)
      case None => Err(ObjectNotFound)
      case Some(target) =>
        if request.expectedObjectVersion.Some? && request.expectedObjectVersion.value != target.version
        then Err(ObjectVersionConflict)
        else if request.operation !in target.capabilities then Err(OperationNotSupported)
        else if request.operation == "request_human_takeover" then Ok(target)
        else if !target.state.visible || !target.state.enabled then Err(OperationTemporarilyUnavailable)
        else Ok(target)
  }

  /** A plan is accepted exactly when the expected revision, if any, is the current one, the target is
      listed at the expected version, if any, and offers the operation; and, unless a person is to
      take over, it is visible and enabled. The plan then acts on the listed object. */
  lemma AcceptedExactly(r: Registry, request: Request)
    ensures var listed := Table(CurrentObjects(r));
      && (Plan(r, request).Ok? <==>
           && (request.expectedDocumentRevision.None? || request.expectedDocumentRevision == Some(Revision(r)))
           && request.target in listed
           && (request.expectedObjectVersion.None? || request.expectedObjectVersion == Some(listed[request.target].version))
           && request.operation in listed[request.target].capabilities
           && (request.operation == "request_human_takeover"
               || (listed[request.target].state.visible && listed[request.target].state.enabled)))
      && (Plan(r, request).Ok? ==> Plan(r, request).value == listed[request.target])
  {
    assert Find(CurrentObjects(r), request.target).Some? <==> request.target in Table(CurrentObjects(r));
  }

  /** The target has the content it had when the version or the revision the request expects was seen. */
  ghost predicate AsSeen(seen: View, request: Request, target: WebObject) {
    && (request.target in seen.table && request.expectedObjectVersion == Some(seen.table[request.target].version) ==>
          SameContent(seen.table[request.target], target))
    && (request.expectedDocumentRevision == Some(seen.revision) ==>
          request.target in seen.table && SameContent(seen.table[request.target], target))
  }

  lemma AcceptedIsLater(r: Registry, seen: View, request: Request)
    requires Later(seen, ViewOf(r)) && Plan(r, request).Ok?
    requires forall id :: id in seen.table && id in ViewOf(r).table && SameVersions(seen.table, ViewOf(r).table) ==>
               Meaningful(seen.table[id]) == Meaningful(ViewOf(r).table[id])
    ensures AsSeen(seen, request, Plan(r, request).value)
    ensures Plan(r, request).value.id == request.target
    ensures request.target in ViewOf(r).table && Plan(r, request).value == ViewOf(r).table[request.target]
  {
    hide SameContent;
    if request.target in seen.table {
      SameContentExact(seen.table[request.target], Plan(r, request).value);
    }
  }

  /** An accepted plan acts on an object with the content it had when its version, or
      the document revision, was observed, at whatever earlier point of the run that was. */
  lemma AcceptedPlanIsCurrent(limit: nat, inputs: seq<Compilation>, i: nat, n: nat, request: Request)
    requires limit >= 2 && i <= n <= |inputs|
    requires Plan(After(limit, inputs, n), request).Ok?
    ensures var target := Plan(After(limit, inputs, n), request).value;
      && target.id == request.target
      && AsSeen(Views(limit, inputs)[i], request, target)
  {
    ViewsRun(limit, inputs);
    RunLater(Views(limit, inputs), Changes(limit, inputs), i, n);
    AcceptedIsLater(After(limit, inputs, n), Views(limit, inputs)[i], request);
  }

  /** An object that left the page, or changed its content, since it was seen. */
  ghost predicate Stale(seen: View, now: View, id: Id) {
    id !in now.table || (id in seen.table && !SameContent(seen.table[id], now.table[id]))
  }

  lemma StaleIsRefused(r: Registry, seen: View, request: Request)
    requires Later(seen, ViewOf(r)) && Stale(seen, ViewOf(r), request.target)
    requires request.target in seen.table && request.expectedObjectVersion == Some(seen.table[request.target].version)
    ensures Plan(r, request).Err?
  {
    hide SameContent;
    if request.target in ViewOf(r).table {
      SameContentExact(seen.table[request.target], ViewOf(r).table[request.target]);
    }
  }

  /** Once an object changed its content, or left the page, a plan that expects its old version is refused. */
  lemma StalePlanIsRefused(limit: nat, inputs: seq<Compilation>, i: nat, n: nat, request: Request)
    requires limit >= 2 && i <= n <= |inputs|
    requires var seen := Views(limit, inputs)[i];
      && request.target in seen.table
      && request.expectedObjectVersion == Some(seen.table[request.target].version)
      && Stale(seen, Views(limit, inputs)[n], request.target)
    ensures Plan(After(limit, inputs, n), request).Err?
  {
    ViewsRun(limit, inputs);
    RunLater(Views(limit, inputs), Changes(limit, inputs), i, n);
    StaleIsRefused(After(limit, inputs, n), Views(limit, inputs)[i], request);
  }
}
