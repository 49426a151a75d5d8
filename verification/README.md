# WebFA runtime: a verified model

This project models the parts of the WebFA browser runtime in which many steps have to fit together, and proves
what those steps keep. Pure step functions say what one operation does; classes with the source's fields and loops
are proved to do exactly that; whole-run lemmas are about every sequence of steps.

| files | what they model |
|---|---|
| `TextWords`, `WebObjects`, `IdentityMatching`, `Reobservation`, `RegistryModel`, `RegistryStep`, `RegistryRuns`, `RegistryHistory`, `RegistryStability`, `RegistryGraph`, `RegistryClears`, `ObjectRegistry` | stable object identity: two-pass matching of page observations, renaming of relations, versions, revisions, the bounded history behind changes_since |
| `SemanticOperations` | the optimistic-concurrency checks in front of every semantic operation |
| `RuntimeOwnership`, `RuntimeJoining` | several clients sharing one auto-started Runtime through a locked metadata file, with crashes, PID reuse, spurious probes and identities that cannot be read |
| `Assurances`, `PaymentBroker`, `PaymentAuthority`, `PaymentRuns`, `PaymentLimits` | financial policies over a usage log pruned in place, with authorizations in flight |
| `SessionManager`, `SessionRouting`, `Routes`, `RouteProjection`, `GlobalRouteRegistry`, `SupervisorModel`, `SupervisorInvariant`, `SupervisorRuns`, `SupervisorAccess`, `SupervisorAdmission`, `SupervisorGrants`, `SupervisorTabs`, `RuntimeSupervisor` | sessions, connections, grants, write leases and public routes under one supervisor, with sessions that die at any point of a call |
| `SafetyTemplates`, `SafetyContext`, `SafetyRuns`, `SafetyAssertions`, `SafetyOrder`, `SafetyUses` | safety contracts that grow with evidence, bounded uses, deadlines, origin scopes |
| `ProfileTree`, `ProfileClone`, `ProfileRefusals`, `ProfileRivals`, `ProfileFingerprint` | the pruned profile walk, the fingerprint stream, cloning |
| `Framing`, `BundleEncryption`, `BundleArchive`, `BundleInspection`, `BundleRestoring`, `BundleExport` | the encrypted profile bundle: frame, manifest, archive, inspection, export, restore |
| `DesktopRuntime`, `DesktopOutcomes` | the Desktop's child process lifecycle as an interleaved step system |
| `MonitorGateway`, `MonitorTokens`, `VisualFrames` | one-time monitor grants and frame packets |

Python dictionaries whose order matters are sequences with distinct keys. Fresh identifiers (uuid, tokens, process
identities) are numbers never used before. Clock readings are parameters; where a result needs the clock not to go
back, it says so. `dafny verify dfyconfig.toml` checks the whole project.

## What holds only under a condition

- Observing a page again is not always silent. It is exactly when every object has a strong key of its own or a
  semantic key unique among the rest (`RegistryStability.ReobservationExactCondition`).
- Ids, versions and revisions are only worth something between two clears of the registry. A page that turns out to be
  disallowed clears it while its session goes on (runtime.py:3214-3220), and numbering starts over. Without a clear in
  between everything holds (`RegistryClears.StretchIsARun`, `RegistryClears.AcceptedPlanIsAsSeen`); across one a plan
  can hit another object at the same id, version and revision (`RegistryClears.ClearForgets`,
  `RegistryClears.OutdatedPlanAccepted`).
- Object routes do not always name active sessions. After open_web or act_web returned, listing the tabs can crash
  the session; it is finalized, the failure is swallowed (runtime_supervisor.py:726-730), and the page is then
  published for a session that is gone. `SupervisorInvariant.ObjectRoutesActiveExactly` shows that this is the only
  way, `SupervisorRuns.ObjectRoutesOverRuns` says so for runs, `SupervisorRuns.DeathWhileListingHappens` is such a run.
- A shared Runtime can be stopped under a live client: a process whose identity cannot be read (process.py:631-642)
  counts as dead and its lease is dropped (`RuntimeOwnership.UnreadableClientIsStopped`).
  `RuntimeOwnership.SignalsExactly` is the exact condition of one close, and
  `RuntimeOwnership.ReadableRunStopsOnlyUnused` the guarantee while those identities can be read.
- The session index accepts a known session under another profile and then keeps both profiles' entries
  (`SessionManager.AddBijectionExactly`); the supervisor never adds a session twice.
- A clone of a profile whose kept siblings agree up to case can be rejected as a mismatch, because such siblings are
  sorted as the directory happened to list them (`ProfileClone.CaseRivalsBreakClone`,
  `ProfileRivals.CloneMatchesExactly`). No property of the digest but its length is needed for either direction.
- One fingerprint means one profile only up to the digest (`ProfileFingerprint.FingerprintExact`,
  `ProfileFingerprint.OneFileChanged`), hence for the contents that occur and do not collide
  (`ProfileFingerprint.FingerprintTellsProfiles`). Digests that notice a given change and digests that miss it both
  exist (`ProfileFingerprint.DigestsExist`).
- The daily and monthly limits of a policy hold exactly for one authorization at a time
  (`PaymentLimits.LimitsHoldExactly`). With k in flight spending exceeds them by up to k-1 times the largest amount the
  policy allows (`PaymentRuns.SpendBound`); for the daily limit, and for the monthly one of a policy without a daily
  limit, that much is spent in some run (`PaymentLimits.BoundIsReached`). Authorizations made with enforcement off are
  not held to the limits at all (`PaymentRuns.UnenforcedExceeds`).
- Contracts agree as sets whatever the order of evidence; as lists exactly when the undeclared dimensions first
  appeared in the same order (`SafetyOrder.ContractsEqualExactly`, `SafetyOrder.OrderShowsInLists`, with a
  concrete declaration in `SafetyOrder.OrderShows`).
- The status names of safety contexts are not final: an origin mismatch overwrites them
  (`SafetyRuns.BlockedStaysExactly`), and a scope extension lifts the step-up it leaves. So a context whose
  authorization was not granted can be used: only in that way (`SafetyRuns.UngrantedUse`), and exactly when it was
  declared with an origin scope and a deadline to come (`SafetyUses.UsableExactly`, `SafetyUses.UngrantedUseHappens`,
  with a concrete declaration in `SafetyUses.UngrantedUseExists`). Uses, deadlines and assertions are what the safety
  results rest on.
- Not every profile can be exported. Export inspects its own archive (profile_bundle.py:681), so a kept file whose path
  is not portable, such as a name with a colon, makes it fail (`BundleExport.ExportSucceedsExactly`); what is exported
  can always be read and restored (`BundleExport.ExportedCanBeRead`, `BundleExport.TransferRoundTrip`).

## Model

| member | source | states |
|---|---|---|
| IdentityMatching.ReconcileSound | packages/webfa-core/browser/object_registry.py:206-249 | Matching a page observation against the previous snapshot gives every incoming object an id, gives no id twice, and each id is either a previous one or a number never allocated before. |
| Reobservation.ReobservationExact | packages/webfa-core/browser/object_registry.py:206-249 | For the same page under any renaming and reordering of its transient ids, an object keeps its id if and only if it is recognizable (a strong key no other object has, or a semantic key unique among the objects without such a key); every other object gets a fresh number, and none is allocated when all are recognizable. |
| RegistryStep.UpdateSound | packages/webfa-core/browser/object_registry.py:61-156 | One update keeps the registry valid; its change set names exactly the ids that came, went and got a new version, with versions and changed fields as they are; the revision goes up by one exactly when the document, the id set or some meaning changed. |
| RegistryStep.UpdateDetails | packages/webfa-core/browser/object_registry.py:123-140 | The change set of an update lists a changed document field exactly when the document differs, reports lost objects as removed under the same document and as invalidated under another, and summarises each new object as it now is. |
| RegistryStep.MeaningfulExact | packages/webfa-core/browser/object_registry.py:112-120 | Within one document the test for a meaningful change holds exactly when the document, the id set or some version differs. |
| RegistryStep.RememberValid | packages/webfa-core/browser/object_registry.py:146-150 | Storing a snapshot and evicting the oldest keeps exactly the last `limit` consecutive revisions, ending in the current one, and adds nothing else. |
| RegistryRuns.IdentityLifetimes | packages/webfa-core/browser/object_registry.py:68-77 | Over every run of updates: an id that left the current snapshot never comes back, and no id survives a change of document. |
| RegistryRuns.VersionsSound | packages/webfa-core/browser/object_registry.py:85-121 | Over every run of updates: the same id with the same version means the same content, and the same revision means the same document and the same objects with the same content, at any distance. |
| RegistryRuns.ReplayExact | packages/webfa-core/browser/object_registry.py:123-139 | Replaying the change sets of single updates leads from the ids at any point of a run to the ids at any later point. |
| RegistryRuns.BumpedInRun | packages/webfa-core/browser/object_registry.py:85-97 | A surviving object has a later version exactly when some update in between reported it as updated. |
| RegistryHistory.AvailableExact | packages/webfa-core/browser/object_registry.py:180-199 | changes_since answers for revision 0 and for exactly the last `limit` revisions, from the snapshot of that very revision, and refuses every other. |
| RegistryHistory.ChangesSinceExact | packages/webfa-core/browser/object_registry.py:180-199 | For a revision seen at any earlier point of a run the bounded history answers exactly while it is 0 or among the last `limit`, and the answer agrees with replaying every update since: same resulting ids, an object is updated iff some step updated it, `from` and `to` versions strictly grow. |
| RegistryHistory.ChangesSinceDetails | packages/webfa-core/browser/object_registry.py:186-199 | That answer is also truthful about the document, about removed against invalidated, and about the summaries of new objects. |
| RegistryHistory.DiffDescribes | packages/webfa-core/browser/object_registry.py:454-490 | The diff of two snapshots of one run names exactly the ids added, lost and given a new version, with their versions and changed fields. |
| RegistryStability.ReobservationStable | packages/webfa-core/browser/object_registry.py:85-121 | If every relation stays inside the page and every object is recognizable, observing the page again under any renaming and order keeps every id, version and relation and the revision, and yields an empty change set. |
| RegistryStability.UnrecognizableLost | packages/webfa-core/browser/object_registry.py:238-248 | An object that is not recognizable loses its id on the next observation of the same page. |
| RegistryStability.ReobservationExactCondition | packages/webfa-core/browser/object_registry.py:206-249 | Observing a closed page again makes no new revision if and only if every object of it is recognizable. |
| RegistryGraph.UpdateRenamesPage | packages/webfa-core/browser/object_registry.py:251-303 | An update of a page whose ids all belong to its objects renames it by one injective map and changes nothing else: renaming the snapshot back gives the observation, all sixteen relations, outline, regions, takeover target and evidence included; and the snapshot mentions its own objects only. |
| WebObjects.MentionsInside | packages/webfa-core/browser/object_registry.py:260-276 | A renamed relation record mentions renamed ids only. |
| WebObjects.ChangedFieldsExact | packages/webfa-core/browser/object_registry.py:371-395 | No changed field is reported exactly when the two objects coincide once id, version and busy flag are ignored and text is normalised; TextWords.NormEqualExactly says which texts then count as equal. |
| TextWords.WordsExact | packages/webfa-core/browser/object_registry.py:503-504 | The words of a text are its maximal runs of characters that are not blank, from left to right and in lower case. |
| TextWords.NormJoins | packages/webfa-core/browser/object_registry.py:503-504 | Normalising a text joins exactly these words by single blanks. |
| TextWords.NormEqualExactly | packages/webfa-core/browser/object_registry.py:503-504 | Two texts compare equal if and only if they consist of the same words up to case. |
| TextWords.LowerExact | packages/webfa-core/browser/object_registry.py:503-504 | Lower-casing identifies an ASCII letter with its other case and nothing else, and keeps blanks and other characters apart. |
| WebObjects.SameContentExact | packages/webfa-core/browser/object_registry.py:361-368 | Two objects have the same meaningful content if and only if all fields but the id, the version and the busy flag are equal and name, description and text consist of the same words. |
| WebObjects.ProseReported | packages/webfa-core/browser/object_registry.py:371-384 | Another word in the name, the description or the text is reported as a change of that very field. |
| WebObjects.FieldsReported | packages/webfa-core/browser/object_registry.py:371-384 | So is every other changed field of the object itself. |
| WebObjects.StateReported | packages/webfa-core/browser/object_registry.py:371-384 | So is every changed state flag but the busy one. |
| WebObjects.RelationReported | packages/webfa-core/browser/object_registry.py:371-384 | So is each of the sixteen relations. |
| WebObjects.StateSummaryExact | packages/webfa-core/browser/object_registry.py:419-434 | Which words a summary says about a state, and when. |
| WebObjects.RenamesEachRelation | packages/webfa-core/browser/object_registry.py:251-278 | Renaming keeps each of the sixteen relations under its own name and renames its ids in order. |
| RegistryStep.KeptReportedExactly | packages/webfa-core/browser/object_registry.py:85-140 | An object an update keeps stays at its version, unreported, if and only if its content is the same; with other words in its name, say, it gets the next version and a record that names what changed. |
| IdentityMatching.StrongKeysExact | packages/webfa-core/browser/object_registry.py:328-348 | Which strong keys an object has: the origin of a document, and what its provenance gives; empty texts and legacy ids without a stable prefix give nothing. |
| IdentityMatching.SemanticKeysEqualExactly | packages/webfa-core/browser/object_registry.py:341-358 | Two objects share their semantic key if and only if they and their listed parents have equal categories, roles and words of the name, and their origins, frames and lifetimes are equal. |
| WebObjects.RenameInverse | packages/webfa-core/browser/object_registry.py:251-276 | Renaming all sixteen relations there and back is the identity wherever the mentioned ids come back. |
| RegistryModel.ChangedDocumentFieldsExact | packages/webfa-core/browser/object_registry.py:398-416 | No changed document field is reported exactly when the documents are equal. |
| RegistryModel.UpdateObjects | packages/webfa-core/browser/object_registry.py:85-97 | After an update ids are distinct, versions positive, a kept object keeps its version exactly when its meaning is unchanged and otherwise gets the next one, new ids are fresh, and documents share no ids. |
| ObjectRegistry.ObjectRegistry.constructor | packages/webfa-core/browser/object_registry.py:45-51 | A registry starts empty at revision 0 with object number 1. |
| ObjectRegistry.ObjectRegistry.AllocateId | packages/webfa-core/browser/object_registry.py:305-308 | Hands out the next object number and moves on by one. |
| ObjectRegistry.ObjectRegistry.StrongIdentityIndexes | packages/webfa-core/browser/object_registry.py:311-325 | The index holds exactly the strong keys that a single previous object has, with its id. |
| ObjectRegistry.ObjectRegistry.MatchStrong | packages/webfa-core/browser/object_registry.py:220-227 | The first pass: each incoming object, in order, takes the owner of its first key whose owner is still free. |
| ObjectRegistry.ObjectRegistry.CountSemantic | packages/webfa-core/browser/object_registry.py:229-232 | Counts, for each semantic key, the incoming objects not matched yet. |
| ObjectRegistry.ObjectRegistry.GroupSemantic | packages/webfa-core/browser/object_registry.py:233-236 | Groups the previous ids not taken yet by semantic key, in order. |
| ObjectRegistry.ObjectRegistry.ReconcileIds | packages/webfa-core/browser/object_registry.py:206-249 | Both passes together compute the matching that the identity results above are about, number for number. |
| ObjectRegistry.ObjectRegistry.RewriteObjects | packages/webfa-core/browser/object_registry.py:251-278 | Renames every object and every relation by the matching. |
| ObjectRegistry.ObjectRegistry.AssignVersions | packages/webfa-core/browser/object_registry.py:86-97 | Gives each object its version against the previous one and collects the update records. |
| ObjectRegistry.ObjectRegistry.RememberRevision | packages/webfa-core/browser/object_registry.py:146-150 | Stores the snapshot under its revision as the newest and evicts the oldest beyond the limit. |
| ObjectRegistry.ObjectRegistry.Update | packages/webfa-core/browser/object_registry.py:61-156 | The object refines the update step of the run results: whole new state, snapshot and change set, validity kept. What that step reports of an object is told word by word by RegistryStep.KeptReportedExactly. |
| ObjectRegistry.ObjectRegistry.FindRevision | packages/webfa-core/browser/object_registry.py:196-198 | The lookup in the history finds the snapshot remembered under a revision, or nothing. |
| ObjectRegistry.ObjectRegistry.DiffSnapshots | packages/webfa-core/browser/object_registry.py:454-490 | The loops over both snapshots collect the new, the reversioned and the lost objects into the change set the diff results are about. |
| ObjectRegistry.ObjectRegistry.ChangesSince | packages/webfa-core/browser/object_registry.py:180-199 | Lookup and diff, or everything as added for revision 0, or the refusal: the object answers as the run results say, and changes nothing. |
| ObjectRegistry.ObjectRegistry.Require | packages/webfa-core/browser/object_registry.py:164-170 | Finds the one current object with an id, or reports that there is none. |
| ObjectRegistry.ObjectRegistry.Clear | packages/webfa-core/browser/object_registry.py:201-204 | Back to the initial state. |
| SemanticOperations.AcceptedPlanIsCurrent | packages/webfa-core/browser/semantic_operations.py:205-243 | Over every run of updates: an accepted plan that expects an object version, or a document revision, acts on an object whose content is what it was when that version or revision was seen. |
| SemanticOperations.StalePlanIsRefused | packages/webfa-core/browser/semantic_operations.py:205-243 | Over every run of updates: once an object changed or left, a plan expecting its old version is refused. |
| SemanticOperations.AcceptedExactly | packages/webfa-core/browser/semantic_operations.py:205-243 | A plan is accepted if and only if the expected revision and object version, where given, are the current ones, the target is listed and offers the operation, and, unless a person is to take over, it is visible and enabled. |
| RegistryClears.StretchIsARun | packages/webfa-core/browser/object_registry.py:201-204 | With clears anywhere among the updates, the registry goes through the states of a run of updates between any two clears, so every result about such runs holds there. |
| RegistryClears.IdsNeverReturn | packages/webfa-core/browser/runtime.py:3207-3226 | Over every run with clears, as long as none comes in between: an id that left never comes back, and none survives a change of document. |
| RegistryClears.VersionsStandForContent | packages/webfa-core/browser/runtime.py:3207-3226 | Likewise a version of an id, and a revision, stands for one content. |
| RegistryClears.AcceptedPlanIsAsSeen | packages/webfa-core/browser/semantic_operations.py:205-243 | Over every run with clears: a plan accepted without a clear since its expectations were seen acts on what was seen. |
| RegistryClears.OutdatedPlanIsRefused | packages/webfa-core/browser/semantic_operations.py:205-243 | Likewise a plan for an object that changed or left since is refused. |
| RegistryClears.FirstPage | packages/webfa-core/browser/object_registry.py:61-156 | The first page after the start or a clear has its objects numbered from 1 in order, at version 1 of revision 1, whatever page it is. |
| RegistryClears.ClearForgets | packages/webfa-core/browser/object_registry.py:201-204 | So across a clear the expectations of a plan check nothing: made for any object of the first page before, it is answered for the object at that place of the first page after as if it expected nothing. |
| RegistryClears.OutdatedPlanAccepted | packages/webfa-core/browser/runtime.py:3214-3220 | There is a run in which a plan made before a clear is accepted after it, on an object of another meaning. |
| RuntimeOwnership.Endpoint.PruneLeases | apps/runtime/process.py:444-444 | Keeps, in order, exactly the leases whose client is seen alive under its recorded identity, without the given one. |
| RuntimeOwnership.Endpoint.EnsureRuntime | apps/runtime/process.py:164-297 | The locked section of ensure_runtime under the identities that can be read: no handle, a handle without a lease or one with a lease, each if and only if, said of the answer, the file and the identities; the file afterwards exactly, including a failed start and a client that cannot read its own identity. |
| RuntimeOwnership.RuntimeProcess.Close | apps/runtime/process.py:51-60 | Closing a handle: which process is signalled, what the file holds afterwards, when the handle counts as closed, also if termination fails. |
| RuntimeOwnership.StepKeepsInv | apps/runtime/process.py:503-561 | Every step of any client, crash, PID reuse, lost file, spurious probe or unreadable identity keeps: the live leases in the file are those of open managed handles of live clients on its instance, every such handle is in the file unless its identity once could not be read, and the file's process is the one started for that instance. |
| RuntimeOwnership.RunKeepsInv | apps/runtime/process.py:164-297 | That holds in every interleaving from the start. |
| RuntimeOwnership.SignalsExactly | apps/runtime/process.py:503-561 | A close signals a process if and only if the file still names the handle's instance, every other live client on it goes unnoticed (its identity cannot be read now, or could not once before), the recorded process is alive and can be identified, and the endpoint is silent or answers with that instance. |
| RuntimeOwnership.StopsOnlyUnusedRuntime | apps/runtime/process.py:503-571 | In every interleaving a close signals only the very process started for its own instance, while alive, and other live clients use that instance at most unnoticed. |
| RuntimeOwnership.ReadableRunStopsOnlyUnused | apps/runtime/process.py:503-571 | In every interleaving in which the identities of clients with open handles can be read, a close never signals a Runtime another live client has an open managed handle on. |
| RuntimeJoining.JoinsExactly | apps/runtime/process.py:164-297 | A client gets a lease if and only if it starts a Runtime, or the Runtime that answered is the recorded one and both its process and the client are identified, with no regard to other leases; it gets a handle without a lease if and only if the answer came from an unmanaged Runtime. What the file holds in each case. |
| RuntimeJoining.LeavesExactly | apps/runtime/process.py:503-571 | What a close leaves behind, with and without a signal and for each outcome of the termination. |
| RuntimeJoining.HandleOrigin | apps/runtime/process.py:164-297 | Over every run each handle goes back to one call, and has a lease exactly if that call started a Runtime or joined the recorded one. |
| RuntimeJoining.FoundRuntimeIsNotStopped | apps/runtime/process.py:503-571 | Over every run in which identities can be read: when a close signals, any other open handle of a live client on the instance was made by a call at which the file did not name the instance with a live process. So nobody who found a recorded Runtime is stopped under it. |
| RuntimeOwnership.UnreadableClientIsStopped | apps/runtime/process.py:564-642 | With one identity that cannot be read there is a run in which a Runtime in use is signalled. |
| PaymentBroker.PaymentInstrumentBroker.RegisterPolicy | packages/webfa-core/browser/payment_broker.py:102-106 | Stores the policy; existing usage is kept. |
| PaymentBroker.PaymentInstrumentBroker.RegisterInstrument | packages/webfa-core/browser/payment_broker.py:119-144 | Accepts an instrument exactly when it belongs to the broker's profile, its policy is known and it is not a locally stored card. |
| PaymentBroker.PaymentInstrumentBroker.RevokeInstrument | packages/webfa-core/browser/payment_broker.py:157-162 | Revokes a known instrument and changes no other. |
| PaymentBroker.PaymentInstrumentBroker.UsageTotals | packages/webfa-core/browser/payment_broker.py:475-488 | One loop sums the current UTC day and month and prunes the log in place to the current month. |
| PaymentBroker.PaymentInstrumentBroker.EvaluatePolicy | packages/webfa-core/browser/payment_broker.py:405-467 | Decides a payment against the policy and the log; the log is pruned only if the usage limits were consulted. |
| PaymentBroker.PaymentInstrumentBroker.AuthorizePolicy | packages/webfa-core/browser/payment_broker.py:269-306 | Which callers and policies are refused, and otherwise the decision, said of the policy and the totals; nothing is recorded. |
| PaymentBroker.PaymentInstrumentBroker.Authorize | packages/webfa-core/browser/payment_broker.py:164-267 | Which callers and instruments are refused; for the others the decision, said of the instrument, the policy and the day's and month's totals: allowed, stepped up or denied with which code, each exactly when; what is left of the log. |
| PaymentBroker.PaymentInstrumentBroker.RecordUse | packages/webfa-core/browser/payment_broker.py:308-361 | A use is recorded exactly for an allowed authorization presented by the authority it was issued to; the new log and totals. |
| PaymentBroker.DecidedExactly | packages/webfa-core/browser/payment_broker.py:405-467 | A payment is allowed, stepped up or denied exactly when; too little assurance turns a broken limit into a step-up, never a kind of payment the policy does not take. |
| PaymentBroker.CheckedExactly | packages/webfa-core/browser/payment_broker.py:373-403 | The instrument checks pass if and only if the instrument is not revoked, of a kind that is taken, of the caller's profile, open to agent and origin, both currencies agree and a shown label names it; which refusal is given otherwise. |
| PaymentBroker.NamesExactly | packages/webfa-core/browser/payment_broker.py:501-509 | A label names an instrument if and only if its lower-cased words, joined by single blanks, contain the last digits, or without such the brand and the display name. |
| PaymentBroker.UpperExactly | packages/webfa-core/browser/payment_broker.py:399-399 | Currencies are compared up to the case of ASCII letters. |
| PaymentBroker.PrunedExactly | packages/webfa-core/browser/payment_broker.py:405-467 | A log is pruned if and only if an evaluation gets as far as the limits of the day and the month. |
| PaymentAuthority.RevokedAuthorizesNothing | packages/webfa-core/browser/payment_broker.py:157-162 | Over every sequence of calls: from its revocation until it is registered again an instrument authorizes nothing. |
| PaymentAuthority.AllowedExactly | packages/webfa-core/browser/payment_broker.py:164-267 | Over every sequence of calls to a new broker: a use of an instrument is allowed if and only if the caller is bound to the session and the instrument, as last registered and not revoked since, covers the caller, currency and label, and, with enforcement, the policy admits the payment within the totals so far. |
| PaymentAuthority.TotalsAreSpent | packages/webfa-core/browser/payment_broker.py:475-488 | On a clock that does not go back these totals are exactly the amounts recorded under the policy on the calendar day and in the calendar month, however often the log was pruned. |
| PaymentBroker.RetainedTotals | packages/webfa-core/browser/payment_broker.py:475-488 | Pruning at one time changes no total at that or any later time. |
| PaymentRuns.PruningTransparent | packages/webfa-core/browser/payment_broker.py:475-488 | At every point of every run the pruned log gives every later total and decision exactly as the complete history of recorded uses would. |
| PaymentRuns.SpendBound | packages/webfa-core/browser/payment_broker.py:308-361 | With limits enforced and at most k authorizations outstanding, spent today plus outstanding never exceeds the daily limit plus k-1 times the largest amount the policy allows, in every reachable state and across day and month boundaries; likewise for the month. |
| PaymentRuns.OneAtATimeStaysWithinLimits | packages/webfa-core/browser/payment_broker.py:405-467 | With one authorization at a time the daily and monthly limits themselves are never exceeded. |
| PaymentLimits.LargestAllowedExactly | packages/webfa-core/browser/payment_broker.py:405-467 | That largest amount is exact: on an empty log a purchase is allowed if and only if it is no larger than every limit the policy sets. |
| PaymentLimits.BoundIsReached | packages/webfa-core/browser/payment_broker.py:164-361 | The bound cannot be lowered: for every well-formed policy that allows anything, and every k, an enforced run at one instant spends the daily limit (without one, the monthly limit) plus k-1 times that amount. |
| PaymentLimits.LimitsHoldExactly | packages/webfa-core/browser/payment_broker.py:405-467 | What is spent stays within the limits in all enforced runs if and only if at most one authorization is outstanding at a time, or the policy never allows a positive amount. |
| PaymentRuns.UnenforcedExceeds | packages/webfa-core/browser/payment_broker.py:221-248 | An authorization made with enforcement off is not covered: recording it exceeds any daily limit below its amount. |
| SessionManager.SessionManager.AddEntry | packages/webfa-core/browser/session_manager.py:49-57 | Adds or replaces a session exactly when its profile has no other one; whole new state, index and default included, and when the bijection survives. |
| SessionManager.SessionManager.RemoveEntry | packages/webfa-core/browser/session_manager.py:59-68 | Removes a session, its profile entry and the default it was, choosing the first remaining session. |
| SessionManager.OneSessionPerProfile | packages/webfa-core/browser/session_manager.py:49-68 | Two active sessions never share a profile. |
| SessionManager.AddBijectionExactly | packages/webfa-core/browser/session_manager.py:49-57 | Adding keeps sessions and profiles in bijection if and only if a session that is already there keeps its profile. |
| SessionManager.SessionsKept | packages/webfa-core/browser/session_manager.py:49-68 | Under that condition adding, and removing always, keep the bijection and a default set exactly while one is active. |
| SessionRouting.AgentConnectionRegistry.GetOrCreate | packages/webfa-core/browser/session_routing.py:57-90 | Drops expired contexts; creates or renews the connection if and only if it is named and not, unexpired, another agent's; what it then points at. Whole new state also on refusal. |
| SessionRouting.AgentConnectionRegistry.Bind | packages/webfa-core/browser/session_routing.py:97-111 | Makes a session the connection's current one and renews it. |
| SessionRouting.AgentConnectionRegistry.UnbindSession | packages/webfa-core/browser/session_routing.py:118-126 | Forgets a session in every connection, and as current session where it was. |
| SessionRouting.AgentConnectionRegistry.Release | packages/webfa-core/browser/session_routing.py:128-130 | Removes one connection and returns its context. |
| SessionRouting.AgentProfileGrantManager.AuthorizeProfile | packages/webfa-core/browser/session_routing.py:171-205 | Grants access if and only if the profile is ready and open to the agent, and renews it exactly when the agent's grant has not expired; the whole new state and the reason otherwise. |
| SessionRouting.AgentProfileGrantManager.Require | packages/webfa-core/browser/session_routing.py:207-236 | Goes ahead if and only if the profile is ready and open to the agent and the agent's grant has not expired, which is then renewed for its full time; the whole new state and the reason otherwise. |
| SessionRouting.AgentProfileGrantManager.Revoke | packages/webfa-core/browser/session_routing.py:238-242 | Drops exactly the grants of one connection. |
| SessionRouting.AgentSessionLeaseManager.AcquireLease | packages/webfa-core/browser/session_routing.py:293-334 | Goes ahead if and only if nobody else has an unexpired lease on the session; the lease is then the caller's for its full time, renewed or new. |
| SessionRouting.AgentSessionLeaseManager.RequireLease | packages/webfa-core/browser/session_routing.py:336-365 | Goes ahead if and only if the caller has an unexpired lease for just this claim, which is renewed; an expired one is dropped. |
| SessionRouting.AgentSessionLeaseManager.RenewOwned | packages/webfa-core/browser/session_routing.py:367-388 | Renews exactly an unexpired lease for just this claim; an error exactly on a binding mismatch. |
| SessionRouting.AgentSessionLeaseManager.ReleaseSession | packages/webfa-core/browser/session_routing.py:394-396 | Drops the lease of one session. |
| SessionRouting.AgentSessionLeaseManager.ReleaseConnection | packages/webfa-core/browser/session_routing.py:398-404 | Drops exactly the leases of one connection. |
| Routes.RouteRoundTrip | packages/webfa-core/browser/session_routing.py:663-733 | In every history of binds and invalidations a public id localizes to its local id exactly in its own session and generation while live, is refused elsewhere while live, and is handed on unchanged once its session is gone. |
| Routes.AfterInverse | packages/webfa-core/browser/session_routing.py:484-528 | The by-public and by-local maps stay mutually inverse under any history. |
| Routes.LiveExactly | packages/webfa-core/browser/session_routing.py:704-713 | A local id has a route exactly while it was bound and its session not invalidated since. |
| Routes.ProjectedIdsLocalize | packages/webfa-core/browser/session_routing.py:557-620 | Every id of a projected page, relations and change set included, localizes back to the id the session used. |
| Routes.PublishingInjective | packages/webfa-core/browser/session_routing.py:567-575 | The renaming used for a page keeps different ids different and the empty id empty. |
| RouteProjection.ProjectionReversible | packages/webfa-core/browser/session_routing.py:557-620 | Publishing a page loses nothing and touches nothing but object ids: renaming back gives the session's page, field by field. |
| RouteProjection.NothingLocalPublished | packages/webfa-core/browser/session_routing.py:557-620 | Every object id a published page mentions is a public one of its own session and generation, or empty. |
| RouteProjection.PublishedExactly | packages/webfa-core/browser/session_routing.py:557-620 | Publishing a page changes its ids and nothing else, field by field: outline, regions, objects with each of their sixteen relations, summaries, changes and the takeover target, each in its place. |
| GlobalRouteRegistry.GlobalRouteRegistry.BindTab | packages/webfa-core/browser/session_routing.py:484-501 | Routes a tab once and returns its route; the maps stay inverse. |
| GlobalRouteRegistry.GlobalRouteRegistry.BindObject | packages/webfa-core/browser/session_routing.py:503-520 | Routes an object once and returns its route; the maps stay inverse. |
| GlobalRouteRegistry.GlobalRouteRegistry.ResolveTab | packages/webfa-core/browser/session_routing.py:522-524 | Finds the live route of a public tab id. |
| GlobalRouteRegistry.GlobalRouteRegistry.RequireLocalObject | packages/webfa-core/browser/session_routing.py:715-733 | Localizes a public id, or refuses one of another session or generation. |
| GlobalRouteRegistry.GlobalRouteRegistry.ProjectWebState | packages/webfa-core/browser/session_routing.py:557-620 | Publishes a page field by field, and the result is the page under one injective renaming, with a route for exactly the ids it mentions. |
| GlobalRouteRegistry.GlobalRouteRegistry.InvalidateSession | packages/webfa-core/browser/session_routing.py:704-713 | Drops exactly the routes of one session from both maps. |
| SupervisorInvariant.FinalizeIsComplete | packages/webfa-core/browser/runtime_supervisor.py:798-821 | Finalizing a session removes it, its profile entry, its lease, every connection binding and every route to it, releases its lock exactly once, and doing it again changes nothing. |
| SupervisorInvariant.CloseAllReleasesEverything | packages/webfa-core/browser/runtime_supervisor.py:477-505 | Closing the supervisor leaves no session, lease or tab route and every lock released exactly once; closing again changes nothing. |
| SupervisorInvariant.EnsureKeepsInv | packages/webfa-core/browser/runtime_supervisor.py:637-714 | Ensuring a session, in each outcome of the launch, keeps the supervisor consistent and touches neither leases nor connections. |
| SupervisorInvariant.ObjectRoutesActiveExactly | packages/webfa-core/browser/runtime_supervisor.py:726-745 | Serving a call keeps every object route on an active session if and only if the session did not die while its tabs were listed after the operation returned. |
| SupervisorRuns.SupervisorConsistent | packages/webfa-core/browser/runtime_supervisor.py:453-505 | In every state reachable by any of the supervisor's calls (get_tabs and the compatibility facade included) sessions and profiles are in bijection, the default is an active session and set exactly while there is one, the lock of each active session is held and every other was released exactly once, and every lease, connection binding and tab route names an active session. |
| SupervisorRuns.WriteExclusion | packages/webfa-core/browser/runtime_supervisor.py:228-293 | If two different connections are let through open_web, act_web or switch_tab to write on one profile, the first one's lease ended in between, whatever other calls were made, get_tabs included: it had expired, its session was gone, or its connection was released. |
| SupervisorRuns.WriterHolds | packages/webfa-core/browser/runtime_supervisor.py:342-379 | Whoever is let through to write holds the session's lease, renewed to its full time, on an active session. |
| SupervisorRuns.TabsEntererHolds | packages/webfa-core/browser/runtime_supervisor.py:304-314 | A connection without a session that get_tabs lets in holds the lease of an active session for its full time. |
| SupervisorAccess.WritersAreGranted | packages/webfa-core/browser/runtime_supervisor.py:554-609 | Whoever is let through to write does so over the agent's own connection, is admitted by the profile as it is now (ready, bound agents), and holds a grant for it of that profile version with its full time. |
| SupervisorAccess.ObserversAreGranted | packages/webfa-core/browser/runtime_supervisor.py:530-552 | The same for observing, by the profile of the current session or the default one. |
| SupervisorAccess.ViewersAreGranted | packages/webfa-core/browser/runtime_supervisor.py:314-322 | The same for each session whose tabs get_tabs shows, by the profile of that session. |
| SupervisorAdmission.ActsExactly | packages/webfa-core/browser/runtime_supervisor.py:274-302 | act_web goes ahead if and only if the agent's connection, not expired, points at an active session, the profile as it is now admits the agent, the agent's grant for it and its lease on the session are running, and the target is of that session. |
| SupervisorAdmission.ObservesExactly | packages/webfa-core/browser/runtime_supervisor.py:530-552 | observe_web goes ahead if and only if the agent may connect and use the profile of the session its connection points at, or without one enter the default profile, and all named objects are of that session. |
| SupervisorAdmission.EntersExactly | packages/webfa-core/browser/runtime_supervisor.py:554-584 | Entering a profile goes ahead if and only if the connection is not another agent's, the profile admits the agent, the supervisor is open, and its session is active or launched now and, for writing, leased to nobody else. |
| SupervisorAdmission.SwitchesExactly | packages/webfa-core/browser/runtime_supervisor.py:342-379 | switch_tab goes ahead if and only if the agent may use the profile and lease the session the tab leads to, or, for a tab without a route, may write to its current session. |
| SupervisorAdmission.TabsExactly | packages/webfa-core/browser/runtime_supervisor.py:304-322 | get_tabs starts if and only if the agent may connect and, unless its connection has sessions, may enter the default profile for writing. |
| SupervisorAdmission.VisitsExactly | packages/webfa-core/browser/runtime_supervisor.py:314-338 | get_tabs passes over a session that is gone, and shows an active one if and only if the agent may use its profile and the tabs could be listed. |
| SupervisorAdmission.OpenedPoints | packages/webfa-core/browser/runtime_supervisor.py:554-584 | Whoever entered a session points at it for the time of the connection, and holds its lease for its full time if it entered for writing. |
| SupervisorGrants.GrantsTold | packages/webfa-core/browser/session_routing.py:171-242 | Over every run: who holds the grant for a profile over a connection, and until when, is told by the last call that gave or used it and by the releases since. |
| SupervisorGrants.EntitledExactly | packages/webfa-core/browser/session_routing.py:207-236 | Over every run: an agent may use a profile if and only if the profile admits it and it was given the grant by an enter, the connection was not released since, and the grant was given or used less than its time to live ago. |
| SupervisorGrants.LeaseTimes | packages/webfa-core/browser/session_routing.py:293-388 | Over every run each lease runs its full time from the move that last granted or renewed it. |
| SupervisorGrants.RightfulActsPassExactly | packages/webfa-core/browser/runtime_supervisor.py:274-302 | At any point of any run act_web goes ahead if and only if the agent's connection points at an active session, the agent is entitled to the profile, the session's lease is its own and was granted or renewed less than its time to live ago, and the target is of that session. |
| SupervisorGrants.RightfulObservationsPassExactly | packages/webfa-core/browser/runtime_supervisor.py:248-272 | The same for observe_web, without a lease. |
| SupervisorGrants.OpenedMayAct | packages/webfa-core/browser/runtime_supervisor.py:228-302 | Whoever opened a session may act on it, with nothing in between, for as long as connection, grant and lease last. |
| SupervisorTabs.ShownTabsLead | packages/webfa-core/browser/runtime_supervisor.py:314-335 | Every public tab id get_tabs answers with leads to the active session it was listed for, in its generation; sessions and earlier routes are left alone. |
| SupervisorTabs.TabsCallIsARun | packages/webfa-core/browser/runtime_supervisor.py:304-340 | A whole get_tabs call, whatever its visits meet, leads from a reachable state to a reachable one. |
| SupervisorRuns.LeaseEndsForAReason | packages/webfa-core/browser/session_routing.py:398-411 | A lease that is gone ended at one step of the run, for one of those three reasons. |
| SupervisorRuns.LeaseNeverChangesHands | packages/webfa-core/browser/session_routing.py:413-450 | The agent, connection, session, profile and generation of a lease id never change over a run. |
| SupervisorRuns.ObjectRoutesOverRuns | packages/webfa-core/browser/runtime_supervisor.py:772-796 | Over runs, object routes first leave the active sessions exactly at the first call whose session dies while its tabs are listed. |
| SupervisorRuns.DeathWhileListingHappens | packages/webfa-core/browser/runtime_supervisor.py:726-745 | And for every page with an id there is such a run: opened, crashed while listing, published for a session that is gone. |
| RuntimeSupervisor.BrowserRuntimeSupervisor.constructor | packages/webfa-core/browser/runtime_supervisor.py:44-79 | A supervisor over empty managers starts in the initial state of the runs. |
| RuntimeSupervisor.BrowserRuntimeSupervisor.Ensure | packages/webfa-core/browser/runtime_supervisor.py:637-714 | The state and answer of ensuring a session, for a busy lock, a failed launch, a launch whose recording fails, and success. |
| RuntimeSupervisor.BrowserRuntimeSupervisor.FinalizeSession | packages/webfa-core/browser/runtime_supervisor.py:798-821 | Brings all four managers and the lock to the finalized state; repeating it is a no-op. |
| RuntimeSupervisor.BrowserRuntimeSupervisor.OnSessionTerminal | packages/webfa-core/browser/runtime_supervisor.py:772-796 | The terminal callback finalizes once, even if closing the crashed runtime calls it again. |
| RuntimeSupervisor.BrowserRuntimeSupervisor.CloseSession | packages/webfa-core/browser/runtime_supervisor.py:453-461 | Closing finalizes once, whether or not the runtime notified before. |
| RuntimeSupervisor.BrowserRuntimeSupervisor.Close | packages/webfa-core/browser/runtime_supervisor.py:477-505 | Closes every session in order, once. |
| RuntimeSupervisor.BrowserRuntimeSupervisor.Enter | packages/webfa-core/browser/runtime_supervisor.py:554-584 | Grant, session, lease and binding in that order; the state left behind when one of them refuses. |
| RuntimeSupervisor.BrowserRuntimeSupervisor.CurrentEntryForWrite | packages/webfa-core/browser/runtime_supervisor.py:530-552 | The current session with grant and lease, or why not. |
| RuntimeSupervisor.BrowserRuntimeSupervisor.OpenWeb | packages/webfa-core/browser/runtime_supervisor.py:228-246 | A refused call leaves what its gate did; an accepted one is served and answers with the published page. |
| RuntimeSupervisor.BrowserRuntimeSupervisor.ObserveWeb | packages/webfa-core/browser/runtime_supervisor.py:248-272 | The same for observing: no lease needed, a held one renewed, foreign object ids refused. |
| RuntimeSupervisor.BrowserRuntimeSupervisor.ActWeb | packages/webfa-core/browser/runtime_supervisor.py:274-302 | The same for acting: grant, lease and a target of this session required, exactly as SupervisorGrants.RightfulActsPassExactly says; the answer is the page and the target under their public ids, with the operation's record as it was. |
| RuntimeSupervisor.BrowserRuntimeSupervisor.GetTabs | packages/webfa-core/browser/runtime_supervisor.py:304-340 | The gate, then the loop over the connection's sessions in order until one refuses or fails: whole new state and answer. |
| RuntimeSupervisor.BrowserRuntimeSupervisor.EnsureCompatRuntime | packages/webfa-core/browser/runtime_supervisor.py:716-724 | The gate of the compatibility facade: the default profile entered without a lease. |
| RuntimeSupervisor.BrowserRuntimeSupervisor.SwitchTab | packages/webfa-core/browser/runtime_supervisor.py:342-379 | The same for switching tabs, by route or within the current session. |
| RuntimeSupervisor.BrowserRuntimeSupervisor.Release | packages/webfa-core/browser/runtime_supervisor.py:381-389 | Releases a connection with its grants and leases. |
| SafetyTemplates.DeclaredRelief | packages/webfa-core/browser/safety_templates.py:155-209 | Which obligations of its kind a declared dimension is relieved of, and that it has no others. |
| SafetyTemplates.ObservedRelief | packages/webfa-core/browser/safety_templates.py:132-153 | Which obligations of its kind an observed dimension is relieved of, and that it has no others. |
| SafetyTemplates.Compile | packages/webfa-core/browser/safety_templates.py:57-94 | The loop over the sorted dimensions computes the contract the exactness results are about. |
| SafetyTemplates.CompiledExact | packages/webfa-core/browser/safety_templates.py:57-94 | A compiled contract has, without duplicates, exactly the declared dimensions in the fixed order, their obligations and their boundaries. |
| SafetyTemplates.SortedByRank | packages/webfa-core/browser/safety_templates.py:64-67 | Dimensions come out in the fixed order. |
| SafetyTemplates.ExtendWithObserved | packages/webfa-core/browser/safety_templates.py:96-130 | The loop over the fixed order computes the extension the exactness results are about. |
| SafetyTemplates.ExtendExact | packages/webfa-core/browser/safety_templates.py:96-130 | Extending yields exactly the declared and observed dimensions with their obligations and boundaries, and only appends. |
| SafetyContext.SafetyContextManager.Declare | packages/webfa-core/browser/safety_context.py:376-451 | Who may declare, and the context, contract, deadline, scope and active entry a declaration leaves. |
| SafetyContext.SafetyContextManager.Check | packages/webfa-core/browser/safety_context.py:550-592 | Expiry and use-up first, then the binding, then the origin scope, which turns any status into step-up. |
| SafetyContext.SafetyContextManager.Assert | packages/webfa-core/browser/safety_context.py:453-519 | The object refines the assertion step; when that records anything, and what is answered, is told by SafetyAssertions.AssertedExactly without naming it. |
| SafetyContext.SafetyContextManager.ApplyEvidence | packages/webfa-core/browser/safety_context.py:153-260 | What an accepted report adds to observations, evidence items, mismatches, assurance and contract, and when it is refused. |
| SafetyContext.SafetyContextManager.ExtendOriginScope | packages/webfa-core/browser/safety_context.py:286-335 | Adds an origin and leaves step-up; refused in the other final states. |
| SafetyContext.SafetyContextManager.Consume | packages/webfa-core/browser/safety_context.py:337-366 | Grants a use to a ready context and counts it down. |
| SafetyContext.SafetyContextManager.EvaluateExisting | packages/webfa-core/browser/safety_context.py:521-548 | Reports a context after the checks. |
| SafetyContext.SafetyContextManager.CurrentState | packages/webfa-core/browser/safety_context.py:124-151 | Reports the context active for a caller after the checks, if there is one. |
| SafetyRuns.UsesAreBounded | packages/webfa-core/browser/safety_context.py:337-366 | Over every run of one context granted uses number at most max_uses, the remaining count is exact, and ready means nothing is pending. |
| SafetyRuns.UsesAreSound | packages/webfa-core/browser/safety_context.py:550-592 | Every granted use is strictly before the deadline, by the bound agent, connection and profile, inside the origin scope if there is one, with every required obligation asserted as True. |
| SafetyAssertions.TurnedAwayExactly | packages/webfa-core/browser/safety_context.py:550-592 | Every operation turns away exactly the callers the context is not bound to, and then those from outside its origins; what is left of its status. |
| SafetyAssertions.DeclaredExactly | packages/webfa-core/browser/safety_context.py:376-451 | What a new context is for, how long and how often it can be used, and the status it starts with. |
| SafetyAssertions.AssertedExactly | packages/webfa-core/browser/safety_context.py:453-519 | Assertions are recorded if and only if the context is open to the caller and, for a declaration attested by the host, an attestation is given whose deadline, if any, lies after the call; otherwise nothing is recorded. What status and answer follow. |
| SafetyAssertions.UsedExactly | packages/webfa-core/browser/safety_context.py:337-366 | A use is granted if and only if the context is ready and open to the caller; it is taken off the remaining ones, and the last one consumes the context. |
| SafetyAssertions.LookedExactly | packages/webfa-core/browser/safety_context.py:521-548 | Looking at a context turns away as any call does, and tells everybody else the status that is left. |
| SafetyAssertions.EvidencedExactly | packages/webfa-core/browser/safety_context.py:153-260 | Evidence is taken in if and only if the context is open to the caller; the context is then settled again. |
| SafetyAssertions.SeverityExactly | packages/webfa-core/browser/safety_context.py:644-657 | How severe an undeclared dimension is, for whom. |
| SafetyAssertions.CodesExactly | packages/webfa-core/browser/safety_context.py:153-260 | A mismatch carries the codes of just the items of its report that speak for its dimension. |
| SafetyAssertions.ScopeExtendedExactly | packages/webfa-core/browser/safety_context.py:286-335 | An origin is added if and only if the bound caller asks in time and the context is neither blocked nor waiting for a takeover. |
| SafetyAssertions.UsesAreVouchedFor | packages/webfa-core/browser/safety_context.py:453-519 | Over every run: behind a granted use each obligation required by then was asserted as True by a call with whatever attestation the declaration demands in force, and was not asserted otherwise since. |
| SafetyRuns.ContractConfluence | packages/webfa-core/browser/safety_context.py:187-236 | Two runs of one declaration whose accepted reports observed the same dimensions have the same dimensions, obligations and boundaries as duplicate-free sets, whatever the order and grouping of the reports. |
| SafetyRuns.ContractOnlyGrows | packages/webfa-core/browser/safety_context.py:227-236 | Dimensions, obligations, boundaries and scope are only appended to and the minimum assurance never falls. |
| SafetyRuns.MismatchesExact | packages/webfa-core/browser/safety_context.py:187-226 | Over every run there is exactly one mismatch for each dimension observed but not declared, with the severity its principal calls for, and one evidence item per code. |
| SafetyOrder.DimensionsDetermineContract | packages/webfa-core/browser/safety_templates.py:96-130 | Over two runs of one declaration the contracts are equal if and only if their lists of dimensions are. |
| SafetyOrder.ContractsEqualExactly | packages/webfa-core/browser/safety_templates.py:110-118 | Two runs of one declaration have equal contracts, lists included, if and only if they showed the same undeclared dimensions in the same order of first appearance, those of one report in the fixed order. |
| SafetyOrder.OrderShowsInLists | packages/webfa-core/browser/safety_templates.py:110-118 | For every granted declaration without an origin scope, with uses and time left, and any two dimensions it does not declare, two reports in either order are two runs whose contracts agree as sets and differ as lists. |
| SafetyRuns.UngrantedUse | packages/webfa-core/browser/safety_context.py:575-592 | Over every run: a use of a context whose authorization was not granted comes only after an out-of-scope call of the bound caller and a later accepted scope extension. |
| SafetyUses.UngrantedUseHappens | packages/webfa-core/browser/safety_context.py:286-366 | And every such declaration with a scope, uses and time left has such a run: look in from a page outside the scope, have it admitted, assert what is required, use. |
| SafetyUses.UsableExactly | packages/webfa-core/browser/safety_context.py:376-451 | An accepted declaration can ever be used, by some calls on a clock that does not go back, if and only if its deadline has not passed and it was granted or has an origin scope. |
| SafetyRuns.BlockedStaysExactly | packages/webfa-core/browser/safety_context.py:575-592 | A blocked context with time and uses left stays blocked under a call exactly unless its own caller calls from outside the scope. |
| Assurances.MaxAssurance | packages/webfa-core/browser/safety_context.py:699-708 | The higher of two assurances by rank. |
| ProfileTree.ExclusionDownwardClosed | packages/webfa-core/browser/profile_storage.py:534-560 | Everything below an excluded path is excluded. |
| ProfileTree.PrunedWalkExact | packages/webfa-core/browser/profile_storage.py:501-531 | The walk that does not enter excluded directories visits each entry outside them once and truthfully, and what it does not mark is exactly what is not excluded. |
| ProfileTree.SortUnique | packages/webfa-core/browser/profile_storage.py:505-509 | Names that differ up to case can be sorted in one way only. |
| ProfileTree.SameWalk | packages/webfa-core/browser/profile_storage.py:501-531 | Walking a disk that holds the kept part of another gives the other's kept visits in the same order, however either was listed, if kept siblings differ up to case. |
| ProfileClone.TakeSnapshot | packages/webfa-core/browser/profile_storage.py:436-486 | The loop's counters and stream, or the first entry that stops it. |
| ProfileClone.CopyStorage | packages/webfa-core/browser/profile_storage.py:489-498 | Copying produces exactly the kept part of the tree, or stops at the first link or special entry. |
| ProfileClone.ProfileStorage.CloneFrom | packages/webfa-core/browser/profile_storage.py:251-294 | A clone succeeds only with exactly the kept part and the source's snapshot, otherwise leaves the target as it was and no staging; each reason to refuse, in order; and success whenever none applies and kept siblings differ up to case. |
| ProfileClone.CloneFaithful | packages/webfa-core/browser/profile_storage.py:272-290 | The snapshot of the copy agrees with that of the source in file count, bytes and fingerprint. |
| ProfileClone.StreamUnique | packages/webfa-core/browser/profile_storage.py:444-486 | The tagged, NUL-separated fingerprint stream is uniquely decodable: equal streams come from equal entry lists. |
| ProfileFingerprint.FingerprintExact | packages/webfa-core/browser/profile_storage.py:436-486 | Two profiles whose kept siblings differ up to case have one fingerprint exactly when their kept parts have the same paths and at each the same size, modification time and digest; nothing is asked of the digest but its length. |
| ProfileFingerprint.FingerprintTellsProfiles | packages/webfa-core/browser/profile_storage.py:436-486 | If no two contents at one path of both collide, one fingerprint means the same kept part. |
| ProfileFingerprint.OneFileChanged | packages/webfa-core/browser/profile_storage.py:470-486 | A changed content is noticed exactly when its digest changes. |
| ProfileClone.CloneFilesExact | packages/webfa-core/browser/profile_storage.py:240-249 | The files iterated over are exactly those not excluded. |
| ProfileClone.CaseRivalsBreakClone | packages/webfa-core/browser/profile_storage.py:501-531 | A profile with two files that agree up to case has two fingerprints, depending on how its directory is listed. |
| ProfileRivals.CloneMatchesExactly | packages/webfa-core/browser/profile_storage.py:272-290 | A clone is certain to match its source if and only if the siblings it keeps differ up to case. |
| ProfileRefusals.ExcludedExactly | packages/webfa-core/browser/profile_storage.py:534-556 | What is kept, in any case of letters: the file local state, and of default everything but the named children and, in its network directory, the named files. |
| ProfileRefusals.FoldExactly | packages/webfa-core/browser/profile_storage.py:534-556 | Names are compared up to the case of ASCII letters. |
| ProfileRefusals.BeforeExactly | packages/webfa-core/browser/profile_storage.py:508-509 | Siblings are taken in dictionary order: up to where they agree, the first ends or has the smaller character. |
| ProfileRefusals.FailsExactly | packages/webfa-core/browser/profile_storage.py:436-486 | A snapshot fails if and only if something other than files and directories lies in a directory that is walked, or a kept file changed while it was hashed. |
| ProfileRefusals.RefusedExactly | packages/webfa-core/browser/profile_storage.py:251-270 | A clone goes ahead if and only if the snapshot does not fail, the fingerprint is the expected one, the target is empty, and there is room for the kept files and the larger of 64 MiB and a twentieth of them. |
| BundleEncryption.EncryptBundle | packages/webfa-core/browser/profile_bundle.py:1010-1059 | Encrypting in chunks of any size gives the one framed file, or the first limit it breaks. |
| BundleEncryption.DecryptBundle | packages/webfa-core/browser/profile_bundle.py:1062-1146 | Decrypting in chunks of any size, with every check in order. |
| BundleEncryption.DecryptInvertsEncrypt | packages/webfa-core/browser/profile_bundle.py:1010-1146 | Decrypting what was encrypted returns the plaintext, however either side's reads split the file. |
| BundleEncryption.OpensExactly | packages/webfa-core/browser/profile_bundle.py:1062-1146 | A file opens to a plaintext if and only if it is the frame of that plaintext under a sound header: nothing else in it is free. |
| Framing.PackUnique | packages/webfa-core/browser/profile_bundle.py:1079-1084 | A four-byte length has one packed form, and packing undoes reading. |
| BundleArchive.NameRoundTrip | packages/webfa-core/browser/profile_bundle.py:1240-1285 | The member name of a path is accepted, and then stands for that path, if and only if the path is portable. |
| BundleArchive.MemberNameUnique | packages/webfa-core/browser/profile_bundle.py:712-714 | Different paths get different member names. |
| BundleArchive.BuildManifest | packages/webfa-core/browser/profile_bundle.py:705-736 | The manifest of the files, or the error when their number or size is not the snapshot's or the manifest breaks its schema. |
| BundleArchive.WriteBundle | packages/webfa-core/browser/profile_bundle.py:881-907 | The archive is the manifest followed by one stored member per file, or the error for an oversized manifest. |
| BundleArchive.InspectBundle | packages/webfa-core/browser/profile_bundle.py:910-1007 | Inspection returns the manifest of a consistent archive, or the first thing wrong with it, in the code's order. |
| BundleArchive.WrittenPassesInspection | packages/webfa-core/browser/profile_bundle.py:910-1007 | Inspection accepts an archive written from a profile's files within the limits if and only if every path is portable, and then gives back its manifest; otherwise it refuses the format. |
| BundleInspection.ValidatesExactly | packages/webfa-core/browser/profile_bundle.py:1240-1270 | A member name is accepted, for one path, if and only if it lies under profile/, is short enough, holds no backslash or NUL, and its components but the empty ones and single dots are portable and none is a double dot. |
| BundleInspection.PortableExactly | packages/webfa-core/browser/profile_bundle.py:1261-1270 | A component is refused exactly for a wildcard or separator, a dot or blank at its end, or a device name before its first dot. |
| BundleInspection.InspectedExactly | packages/webfa-core/browser/profile_bundle.py:910-1005 | Inspection accepts an archive, whoever made it, if and only if its members are within the limits, named differently, plain and safely named, and its manifest lists each of them once, with its size and digest, and nothing else. |
| BundleRestoring.RestoredExactly | packages/webfa-core/browser/profile_bundle.py:738-803 | Restoring an archive that passed inspection succeeds if and only if no member's path is another's or lies below it; the profile then holds exactly the members' files and the directories above them. |
| BundleArchive.RestoreTarget.RestoreFrom | packages/webfa-core/browser/profile_bundle.py:738-803 | Restoring into an empty profile by way of staging; any failure leaves the profile untouched and no staging. |
| BundleArchive.BundleRoundTrip | packages/webfa-core/browser/profile_bundle.py:738-803 | Restoring a written archive writes exactly the given files, path by path and byte by byte, and only the directories they lie in besides. |
| BundleArchive.ProfileRoundTrip | packages/webfa-core/browser/profile_bundle.py:705-803 | From profile files to restored files: for portable names within the limits the manifest has the snapshot's figures, the archive passes inspection, and the restored profile holds exactly the kept files with their contents. |
| BundleExport.ExportArchive | packages/webfa-core/browser/profile_bundle.py:675-687 | The manifest is built, the archive written from a second walk, inspected, and its manifest compared, in that order, with the first error that comes up. |
| BundleExport.ExportIsManifest | packages/webfa-core/browser/profile_bundle.py:664-687 | Whatever changed between the two walks: an exported archive passes inspection with its manifest and holds as many files as the manifest says, each with a name, size and digest the first walk saw. |
| BundleExport.ComparisonNeverFails | packages/webfa-core/browser/profile_bundle.py:681-685 | The comparison after inspection never fails when the manifest reads back: a change between the walks is an error of inspection before. |
| BundleExport.ExportSucceedsExactly | packages/webfa-core/browser/profile_bundle.py:664-703 | A profile that does not change meanwhile is exported if and only if it is within the limits and every kept file has a portable path; a path that is not portable is refused as a format error, and nothing is exported. |
| BundleExport.ExportBundle | packages/webfa-core/browser/profile_bundle.py:664-703 | Export as a whole: the first error of building, inspecting or encrypting, or the encrypted file. |
| BundleExport.RestoreBundle | packages/webfa-core/browser/profile_bundle.py:590-604 | Restoring a file: the first error of decrypting, unpacking, inspecting or restoring, with the target profile untouched, or the restored profile. |
| BundleExport.ExportedCanBeRead | packages/webfa-core/browser/profile_bundle.py:664-703 | Every bundle that is exported can be read again under its passphrase and yields the archive and manifest it was made of. |
| BundleExport.TransferRoundTrip | packages/webfa-core/browser/profile_bundle.py:664-803 | From profile to encrypted file to profile: exactly when a file comes out, and that restoring it gives exactly the kept files, path by path and byte by byte. |
| DesktopRuntime.StepKeepsInv | apps/desktop/electron/runtimeProcess.ts:278-667 | Every step keeps the invariant, whatever the interleaving of calls, probe results, terminations, child events and re-entrant status callbacks. |
| DesktopRuntime.DesktopSafe | apps/desktop/electron/runtimeProcess.ts:278-667 | In every interleaving at most one launched process is not known to have ended and it is the one held; running implies a held child that answered under its own instance id; a control token is handed out only then and is that child's. |
| DesktopRuntime.OnlyCurrentSpawns | apps/desktop/electron/runtimeProcess.ts:325-366 | Only the lifecycle of the current generation launches a process, into an empty slot with no stop under way. |
| DesktopRuntime.OnlyCurrentRuns | apps/desktop/electron/runtimeProcess.ts:368-399 | Running is reached only by the current generation, for the child it launched, on a compatible probe with its instance id. |
| DesktopRuntime.NothingStaleAfterStop | apps/desktop/electron/runtimeProcess.ts:612-627 | After a stop no lifecycle begun before it launches anything or reaches running. |
| DesktopOutcomes.RunsExactly | apps/desktop/electron/runtimeProcess.ts:368-399 | The status becomes running if and only if the held child answers as itself to the current lifecycle; nothing else changes then. |
| DesktopOutcomes.SpawnsExactly | apps/desktop/electron/runtimeProcess.ts:325-366 | A process is launched if and only if the current lifecycle finds the endpoint free and the control token is long enough; it is then held, and the token is its own. |
| DesktopOutcomes.OthersAreReported | apps/desktop/electron/runtimeProcess.ts:325-366 | A Runtime somebody else runs on the endpoint is reported by its instance id and left alone. |
| DesktopOutcomes.StartsExactly | apps/desktop/electron/runtimeProcess.ts:278-318 | Start is refused if and only if a child is held or a start or stop is under way. |
| DesktopOutcomes.StopsExactly | apps/desktop/electron/runtimeProcess.ts:612-631 | Stop changes nothing if and only if another one is under way; without a child it is done at once. |
| DesktopOutcomes.SettlesExactly | apps/desktop/electron/runtimeProcess.ts:314-317 | A settled lifecycle goes, and the start promise with it exactly if that is its own. |
| DesktopOutcomes.LetsGoExactly | apps/desktop/electron/runtimeProcess.ts:524-663 | A held child is let go if and only if its termination was confirmed or its exit handled. |
| DesktopOutcomes.ExitsExactly | apps/desktop/electron/runtimeProcess.ts:543-566 | An exit is taken note of if and only if it is that of the held child and that is not being stopped. |
| DesktopOutcomes.StartReachesRunning | apps/desktop/electron/runtimeProcess.ts:278-399 | A start from rest, on a free endpoint with a child that comes up, ends with that child running and its control token handed out. |
| DesktopOutcomes.StopEnds | apps/desktop/electron/runtimeProcess.ts:612-663 | A stop ends with nothing held, the status stopped and no token once the termination is confirmed; unconfirmed it keeps the child and reports an error. |
| DesktopOutcomes.LateStartFails | apps/desktop/electron/runtimeProcess.ts:401-407 | A child that does not come up in time is terminated; what is left then, confirmed or not. |
| DesktopOutcomes.CollidingStartFails | apps/desktop/electron/runtimeProcess.ts:369-399 | So is one in whose place something else answers, reported as a collision. |
| DesktopOutcomes.ThrownStartReports | apps/desktop/electron/runtimeProcess.ts:569-600 | A probe that throws ends the lifecycle, with an error if it is the current one; what is held stays held. |
| DesktopOutcomes.OvertakenStartIsCleanedUp | apps/desktop/electron/runtimeProcess.ts:359-366 | A child stopped from within the callback of its own launch is terminated by the lifecycle that launched it, and leaves neither child nor token. |
| DesktopRuntime.RuntimeProcessManager.GetControlToken | apps/desktop/electron/runtimeProcess.ts:265-276 | The token is the held, probed child's, or none. |
| DesktopRuntime.RuntimeProcessManager.StartNow | apps/desktop/electron/runtimeProcess.ts:278-318 | Starts a lifecycle under a new generation, or nothing while a child, start or stop is there. |
| DesktopRuntime.RuntimeProcessManager.StopNow | apps/desktop/electron/runtimeProcess.ts:612-631 | Bumps the generation and begins stopping the held child, unless a stop is under way. |
| DesktopRuntime.RuntimeProcessManager.AfterFirstProbe | apps/desktop/electron/runtimeProcess.ts:325-366 | What the first probe leads to: stale, occupied, no usable token, failed launch, launched. |
| DesktopRuntime.RuntimeProcessManager.ResumeInterrupted | apps/desktop/electron/runtimeProcess.ts:359-366 | What a lifecycle or child event goes on with when the status callback it raised returns, whatever that callback did. |
| DesktopRuntime.RuntimeProcessManager.SettleLifecycle | apps/desktop/electron/runtimeProcess.ts:314-317 | A settled start clears the start promise only if it is still its own. |
| DesktopRuntime.RuntimeProcessManager.AfterPoll | apps/desktop/electron/runtimeProcess.ts:369-399 | What a startup probe leads to: stale, running, or failing the child. |
| DesktopRuntime.RuntimeProcessManager.AfterDeadline | apps/desktop/electron/runtimeProcess.ts:401-407 | The startup deadline fails the child if it is still current. |
| DesktopRuntime.RuntimeProcessManager.AfterCleanup | apps/desktop/electron/runtimeProcess.ts:602-610 | A termination after a failed start drops the child only when confirmed. |
| DesktopRuntime.RuntimeProcessManager.ContinueLifecycle | apps/desktop/electron/runtimeProcess.ts:569-600 | The status after cleanup, and ownership kept when termination was not confirmed. |
| DesktopRuntime.RuntimeProcessManager.AfterStop | apps/desktop/electron/runtimeProcess.ts:632-663 | A stop drops the child only when termination was confirmed and keeps ownership otherwise. |
| DesktopRuntime.RuntimeProcessManager.OnChildExit | apps/desktop/electron/runtimeProcess.ts:543-566 | Exit of the held child ends it; events of others or of a child being stopped are ignored. |
| DesktopRuntime.RuntimeProcessManager.OnChildError | apps/desktop/electron/runtimeProcess.ts:524-541 | The same for an error event. |
| MonitorGateway.AccessSafe | packages/webfa-core/browser/monitor_gateway.py:109-231 | In every reachable state the token index is one-to-one with the issued grants, active grants keep to their maximum and stored grants to one more than the history maximum. |
| MonitorGateway.TokenUsedOnce | packages/webfa-core/browser/monitor_gateway.py:144-168 | Over every run a token, once presented, never authenticates again. |
| MonitorTokens.TokenAcceptedExactly | packages/webfa-core/browser/monitor_gateway.py:144-168 | Over every run a presented token is accepted if and only if, since it was issued, it was not presented, its grant was not revoked, and neither any call in between nor this one came after its time. |
| MonitorTokens.TokenLasts | packages/webfa-core/browser/monitor_gateway.py:85-168 | Over every run a token stands for its grant, as issued, as long as nothing of that happened, and is spent from then on. |
| MonitorTokens.IssuedStands | packages/webfa-core/browser/monitor_gateway.py:85-142 | A token that was handed out stands for a new grant of what was requested. |
| MonitorGateway.RefreshedExactly | packages/webfa-core/browser/monitor_gateway.py:207-215 | A refresh leaves active exactly the grants that have time left, untouched. |
| MonitorGateway.IndexedTokensAuthenticate | packages/webfa-core/browser/monitor_gateway.py:154-156 | The second rejection in consume is unreachable. |
| MonitorGateway.PruneFacts | packages/webfa-core/browser/monitor_gateway.py:217-231 | Pruning removes terminal grants only, changes none that stay, and fits the history whenever the active grants alone do. |
| MonitorGateway.PrunesOldestFirst | packages/webfa-core/browser/monitor_gateway.py:220-231 | What pruning removes was issued before every terminal grant it keeps, or entered before it at the same time. |
| MonitorGateway.PruneDetermined | packages/webfa-core/browser/monitor_gateway.py:217-231 | Pruning has one outcome: whatever removes an oldest terminal grant at a time until the history fits ends alike. |
| MonitorGateway.MonitorAccessManager.IssueGrant | packages/webfa-core/browser/monitor_gateway.py:85-142 | A request is invalid exactly for a missing part of its binding, no permissions, takeover without frames or a time outside 30 to 3600 seconds; a valid one is refused if and only if as many grants as allowed are waiting or in use with time left; the grant and token it leaves otherwise. |
| MonitorGateway.MonitorAccessManager.ConsumeToken | packages/webfa-core/browser/monitor_gateway.py:144-168 | Serves a connection exactly once per live token; the token is gone afterwards in any case. |
| MonitorGateway.MonitorAccessManager.ReleaseConnection | packages/webfa-core/browser/monitor_gateway.py:170-179 | Closes a grant if and only if one in use by the connection has time left, and prunes. |
| MonitorGateway.MonitorAccessManager.RevokeGrant | packages/webfa-core/browser/monitor_gateway.py:181-192 | Revokes a grant and forgets its token, always so for one with time left, or reports that there is none. |
| MonitorGateway.MonitorAccessManager.Refresh | packages/webfa-core/browser/monitor_gateway.py:207-215 | Expires what is overdue with its tokens, then prunes to the history maximum. |
| MonitorGateway.MonitorAccessManager.PruneHistory | packages/webfa-core/browser/monitor_gateway.py:217-231 | The loop removes the oldest terminal grants one by one until the history fits. |
| VisualFrames.DecodeInvertsEncode | packages/webfa-core/browser/monitor_gateway.py:305-342 | A frame packet decodes to the frame it was encoded from. |
| VisualFrames.DecodesExactly | packages/webfa-core/browser/monitor_gateway.py:330-342 | A packet decodes to a frame if and only if it is the length, a header that reads as that frame's metadata, and the image. |

## Left out

- Text: case folding, case mapping and whitespace normalisation cover ASCII; names are not normalised to a Unicode
  form, and characters stand for bytes in file contents and frames.
- Libraries: JSON, SHA-256, scrypt, AES-GCM, zip and base64 are parameters with the laws used stated as preconditions
  (the manifest, header and zip codecs read back the one value written, the cipher undoes itself byte by byte, tags and
  digests have a fixed length; collisions are excluded in one result only, and there for the contents that occur). The
  profile fingerprint stands for the stream that is hashed.
- Public route ids stand for their inputs, that is, the keyed digest has no collisions.
- I/O: files, locks, sockets, processes, HTTP and the browser itself appear only through the outcomes of their calls.
- SemanticOperations.AcceptedPlanIsCurrent: covers the checks in front of the operations; how each operation is
  turned into browser actions and its argument errors is left out.
- WebObjects: frames, agent and safety fields of a page state are left out; they are not matched, renamed or versioned.
- ObjectRegistry.ObjectRegistry.constructor: a history limit below two is refused by the source and is a precondition here.
- MonitorGateway.MonitorAccessManager.constructor: a limit below one is refused by the source and is a precondition here.
- RuntimeOwnership.Endpoint.EnsureRuntime: URL parsing, the loopback check and metadata of a wrong schema are left out;
  a file that cannot be used counts as lost. A failed write of a joining client changes nothing and has no step of its own.
- RuntimeOwnership.StopsOnlyUnusedRuntime: the process group and the waiting inside termination are left out, and within
  one locked section a process is either identified each time or not at all; an identity read in another form than the
  recorded one counts as not read.
- PaymentBroker.PaymentInstrumentBroker.RecordUse: the supplied authority is given with its missing parts filled in.
- PaymentBroker.PaymentInstrumentBroker.Authorize: the amount is given parsed, as the method itself takes it; messages
  and evidence in decisions are left out, as is the listing of instruments.
- PaymentRuns.SpendBound: one fixed policy per run; replacing a policy while authorizations are in flight is left out.
- SessionRouting.AgentConnectionRegistry.GetOrCreate: ids are given trimmed, and an empty agent id already replaced.
- RuntimeSupervisor.BrowserRuntimeSupervisor.OpenWeb: which profile reference is looked up is the caller's parameter, the
  repository's answer is another; creating the default profile is left out.
- RuntimeSupervisor.BrowserRuntimeSupervisor.ActWeb: the safety records and data of an operation are one text handed on.
  A blank target is localized but not routed.
- SupervisorRuns.WriteExclusion: is about open_web, act_web and switch_tab; the compatibility facade (open, act,
  switch_tab) is part of the runs but reaches the browser without a lease. One gate is one step: a close from another
  thread inside a gate is not interleaved with it.
- RuntimeSupervisor.BrowserRuntimeSupervisor.GetTabs: the visits of one call are separate moves of the runs but one method
  here; session ids are ordered as numbers; titles, addresses and the active flag of tabs are left out, and a blank
  tab id is not routed.
- PaymentLimits.BoundIsReached: whether the monthly bound is reached under a daily limit depends on the days of the
  month and is left out.
- SupervisorAccess.WritersAreGranted: the profile is the one the repository answers with; that it is the one asked for is
  the repository's part.
- RouteProjection.NothingLocalPublished: covers object ids; dialogs, frames and authentication state keep their own ids.
- SupervisorRuns.SupervisorConsistent: a served page carries the session id of the session that served it.
- SafetyContext.SafetyContextManager.ApplyEvidence: an evidence item is its code and its dimension; instruction texts,
  template versions and messages are left out; one call reads the clock once.
- ProfileClone.ProfileStorage.CloneFrom: directories do not change while they are walked; files that change while they
  are hashed do appear. The default-profile migration, process locks and mutation leases are left out.
- BundleArchive.RestoreTarget.RestoreFrom: modification times of restored files are one clock reading.
- BundleExport.ExportBundle: previews, tokens, expiry and repeated checks of pending exports and restores, mutation leases,
  profile registration and its rollback are left out; one walk sees each file at one moment.
- DesktopRuntime.RuntimeProcessManager.StartNow: issue texts, pids, versions and output handling are left out.
- MonitorGateway.MonitorAccessManager.IssueGrant: tokens are looked up by themselves, names are given trimmed; the router
  that resolves bindings and the stream configuration are left out.
- Agent leases, human control, the local resource broker and the safety audit are left out: they repeat the leases and
  counters above in a simpler form.
