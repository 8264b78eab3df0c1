# SIG-UTI, the ICU bed-regulation dashboard, as a verified Dafny model

SIG-UTI is a web dashboard through which a hospital's regulation centre
(NIR) manages requests for intensive-care beds. It covers the whole path of
a request:

- a requesting physician files the request;
- a regulating physician classifies it into one of the five admission
  priorities of Resolution CFM nº 2.156/2016 of the Brazilian Federal
  Council of Medicine, then refuses, cancels or queues it;
- a queued request is assigned a free bed, then admitted or released;
- a separate workflow assesses patients already in ICU beds for discharge.

This project models the domain logic under the user interface, in Dafny,
and proves properties about it. The logic falls into five groups:

- **The two priority classifiers.** `MockData.CalculateCfmPriority` is the
  table the queue and the new-request form use.
  `EvaluationModal.EvaluatePriority` is the checklist of the evaluation
  dialog, which the regulator confirms. Each outcome of each table is
  characterised exactly, and the cases where the two tables agree and
  disagree are proved.
- **The request life cycle.**
  - `DocumentStore.Store` holds the four collections as maps from
    document id to record: requests, units, beds and discharge
    assessments.
  - Each write is one method. Paired writes (request plus bed, assessment
    plus bed) are one atomic method: both records change, or, when either
    document is missing, neither does.
  - The pure record transitions live in `RequestService`, `BedService` and
    `DischargeService`, and the store methods are stated in terms of them.
- **The bed inventory.** `BedService` and `DocumentStore.BedBatch` model
  the bulk creation loop. `StructureManager` models the administration
  screen, and `InformAvailability` models the availability report.
- **The discharge workflow.** The five-criteria assessment, the review
  step and the statistics.
- **Client-side selection.**
  - the priority sort and the priority-inversion guard of the bed board
    (`BedAvailability`);
  - the queue's search, filter and sort (`RequestQueue`);
  - the audit trail (`AuditPage`).

Each source file that changes state acts through methods with `modifies`
clauses:

- the store (`DocumentStore.Store`);
- the bed board (`BedAvailability.RegulationBoard`), whose fields are the
  selection, dialog and justification state;
- the new-request form's step, criteria and override state
  (`NewRequestForm.FormState`).

Pure code (sorting, filtering, decision tables, schemas) is written as
functions and predicates with lemmas.

The model treats these as parameters:

- The store's ids are minted from a counter (`Common.AutoId`); ids of
  different documents differ in length, so a minted id is always fresh.
- Times (`serverTimestamp`, `Timestamp.now`, `Date.now()`) are a natural
  number `now`.
- Lists delivered by subscriptions are either the store's own maps or a
  parameter. The pending and active lists are snapshots paired with their
  ids.

`Common` and `Sorting` hold the shared list machinery:

- `Filter`, with membership and subsequence lemmas;
- a counting lemma that is invariant under permutation;
- an ASCII case-folding substring test;
- `Sorting.SortBy`, a stable insertion sort. It is proved to be a
  permutation, sorted, and stable, in the sense that it keeps the input
  order within each group of equal keys. It models `Array.prototype.sort`
  when the comparator is `key(a) - key(b)`.

`JsParseInt` models JavaScript's `parseInt` as far as the bed-number editor
and the priority filter use it.

## Model

| member | source | states |
|---|---|---|
| Icu.PriorityTableIsComplete | src/types/icu.ts:12-48 | the priority table has exactly the keys 1..5 and each entry's level is its key |
| Icu.PriorityInfoOf | src/types/icu.ts:12-48 | the metadata of priority p has level p and is named "Prioridade p" |
| Icu.DenialCodesAreDistinct | src/types/icu.ts:106-115 | the denial-reason codes are pairwise distinct |
| Icu.DenialReasonsShape | src/types/icu.ts:107-114 | exactly six reasons are CFM-based, and the other two are CLINICAL_STABILITY and OTHER |
| MockData.CalculateCfmPriority | src/data/mockData.ts:193-229 | total over the criteria (result in 1..5); 5 iff not reversible, low recovery and not a donor (absent = no); 1, 2, 3 and 4 each characterised exactly by the criteria |
| MockData.FallbackIsReachable | src/data/mockData.ts:227-228 | the final `return 3` is reached by no support, low recovery, no limitation, and reversible or donor |
| MockData.MockRequests | src/data/mockData.ts:3-173 | there are five sample requests |
| MockData.SamplePriorities | src/data/mockData.ts:193-229 | the classifier's value on the four criteria combinations the samples use |
| MockData.MockRequestsAreConsistent | src/data/mockData.ts:3-173 | every sample stores the priority the classifier computes from its own criteria, and every sample is pending |
| EvaluationModal.EvaluatePriority | src/components/EvaluationModal.tsx:73-110 | palliative gives 5 with its reason whatever the answers; when not palliative, an unanswered question gives no priority and an empty reason; 5 iff palliative; the full table for answered questions |
| EvaluationModal.AgreesWhenRecoveryIsHigh | src/components/EvaluationModal.tsx:86-107 | with high recovery and no palliative flag, the checklist gives the same priority as the queue classifier |
| EvaluationModal.ClassifiersAgreement | src/components/EvaluationModal.tsx:86-107 | the two tables agree exactly when recovery is high, or the 5-rule does not fire and there is support or a limitation |
| EvaluationModal.ClassifiersDisagree | src/components/EvaluationModal.tsx:91-107 | no support, low recovery and no limitation: 4 in the checklist and 3 or 5 in the queue classifier |
| EvaluationModal.ConfirmWrite | src/components/EvaluationModal.tsx:126-146 | a confirm sets `waiting_bed` and the computed priority, stores total answers (unanswered as false) and logs `revised_priority`/`evaluated` with the previous and new priority |
| EvaluationModal.SecondGuardIsRedundant | src/components/EvaluationModal.tsx:113-123 | a computed priority implies palliative or all answered, so the second guard never fires |
| EvaluationModal.HandleConfirm | src/components/EvaluationModal.tsx:73-161 | writes exactly when a priority is computed and (palliative or all answered) and the request exists; the new record is the merge plus one audit entry; with the priority the calculation effect computed, it writes iff that priority exists and the request exists, and the stored priority is the checklist's |
| EvaluationModal.DiscardWrite | src/components/EvaluationModal.tsx:163-175 | a discard sets `canceled`, the exit reason and note, keeps the priority and appends one `discarded` entry |
| EvaluationModal.HandleDiscard | src/components/EvaluationModal.tsx:163-239 | for a reason the select offers (discharge, death, transfer, error), or none: writes exactly when a reason was chosen and the request exists |
| NewRequestForm.InitialSuggestionIsTwo | src/components/forms/NewRequestForm.tsx:56-63 | the initial criteria suggest priority 2 |
| NewRequestForm.FormTerminalRule | src/components/forms/NewRequestForm.tsx:56-61 | with no donor flag, the 5-rule fires iff not reversible and low recovery |
| NewRequestForm.FormState.constructor | src/components/forms/NewRequestForm.tsx:55-64 | step 1, the initial criteria, no override |
| NewRequestForm.FormState.EffectivePriority | src/components/forms/NewRequestForm.tsx:87 | the override when set, else the suggestion |
| NewRequestForm.FormState.ShowPalliativeWarning | src/components/forms/NewRequestForm.tsx:541 | shown iff the effective priority is 5 |
| NewRequestForm.FormState.ToCriteria | src/components/forms/NewRequestForm.tsx:253 | step 1 to 2 |
| NewRequestForm.FormState.BackToPatient | src/components/forms/NewRequestForm.tsx:432 | step 2 to 1 |
| NewRequestForm.FormState.ToConfirmation | src/components/forms/NewRequestForm.tsx:436 | step 2 to 3 |
| NewRequestForm.FormState.BackToCriteria | src/components/forms/NewRequestForm.tsx:560 | step 3 to 2 |
| NewRequestForm.FormState.ChangeCriterion | src/components/forms/NewRequestForm.tsx:81-84 | sets the criterion and clears the override, so the effective priority is the classifier's |
| NewRequestForm.FormState.OverridePriority | src/components/forms/NewRequestForm.tsx:486 | the chosen priority becomes the effective one |
| NewRequestForm.FormState.Submit | src/components/forms/NewRequestForm.tsx:86-92 | a submission is made iff the data passes both schemas; it carries the data, the current criteria and the effective priority |
| RequestTypes.ParseStatus | src/types/request.ts:6-12 | a parsed status is in the schema enum and prints back to the same name |
| RequestTypes.StatusSchemaAccepts | src/types/request.ts:6-12 | the schema accepts the name of exactly the five enum statuses |
| RequestTypes.RegulatedRequestsFailSchema | src/types/request.ts:6-12 | a record in `regulated` or `admitted` fails the request schema |
| RequestTypes.EmergencySectorIsListed | src/types/request.ts:68-75 | a valid emergency request comes from CEDUG or Centro Cirúrgico |
| RequestService.NewRequest | src/services/requestService.ts:18-22 | the stored record is `pending_review` with creation time now, and otherwise equals the input |
| RequestService.NewRequestIsPending | src/services/requestService.ts:18-22 | whatever status the input carried, a new record is pending review |
| RequestService.UpdatedFrame | src/components/EvaluationModal.tsx:136-146 | each of the seven patchable fields is set when the patch names it and kept when it does not; every other field (patient, details, creation time, SISREG id, clinical details, assignment, regulation justification) is unchanged; the history grows by exactly the stamped entry |
| RequestService.ApplyPatchIdempotent | src/components/EvaluationModal.tsx:136-146 | merging the same fields twice is merging them once |
| RequestService.PendingRequests | src/services/requestService.ts:30-44 | exactly the pending, timestamped records of the snapshot (as a multiset), newest first |
| RequestService.PendingRequestsMembers | src/services/requestService.ts:33 | a record is listed iff it is in the snapshot, pending review and timestamped |
| BedTypes.ParseBedStatus | src/types/bed.ts:5-12 | a parsed name prints back to itself |
| BedTypes.BedStatusNamesRoundTrip | src/types/bed.ts:5-12 | every bed status parses back from its name |
| BedService.NumbersToCreateMembers | src/services/bedService.ts:61-62 | a number is created iff it is in the range and not used by the unit |
| BedService.NumbersToCreateIncreasing | src/services/bedService.ts:61 | the created numbers are strictly increasing and within the range |
| BedService.NumbersToCreateBound | src/services/bedService.ts:59-72 | the count is at most end − start + 1, and zero for an empty range |
| BedService.NewBed | src/services/bedService.ts:64-71 | a created bed is closed with no patient, for the given unit, name and number |
| BedService.CreatedBedsShape | src/services/bedService.ts:61-74 | the batch holds one new bed per number under its own id, and nothing else |
| BedService.CreatedBedsAreNew | src/services/bedService.ts:64-71 | every bed of the batch is a new bed for one of the numbers |
| BedService.SecondRunCreatesNothing | src/services/bedService.ts:54-62 | repeating the call after a commit creates no bed |
| BedService.NoneLeftToCreate | src/services/bedService.ts:61-62 | when every number of the range is used, nothing is created |
| BedService.OtherUnitsDoNotBlock | src/services/bedService.ts:54-56 | a number used only by another unit is still created |
| BedService.WithStatus | src/services/bedService.ts:82-88 | only the status and update time change |
| BedService.RegulationReason | src/services/bedService.ts:102-115 | the audit reason is the justification or 'Regulação padrão'; the stored justification is null iff none (or empty) was given; the status is `regulated`, outside the schema enum |
| BedService.AssignThenCancel | src/services/bedService.ts:91-166 | assign then cancel leaves the bed clean and empty whatever it was, the request waiting with no assignment, and two more audit entries |
| DocumentStore.BedBatch | src/services/bedService.ts:58-74 | the loop builds exactly the new-bed batch for the numbers to create, and counts them |
| DocumentStore.Store.BulkCreateBeds | src/services/bedService.ts:50-80 | count and new beds as the loop computes them; old beds unchanged; nothing is written when the count is 0 |
| DocumentStore.Store.UpdateBedStatus | src/services/bedService.ts:82-88 | a present bed gets the status and time, nothing else changes; a missing bed changes nothing |
| DocumentStore.Store.AssignPatientToBed | src/services/bedService.ts:91-126 | both records change (regulated request, occupied bed) or, if either is missing, neither |
| DocumentStore.Store.ConfirmAdmission | src/services/bedService.ts:128-138 | a present request becomes `admitted` with one more audit entry; no bed is touched |
| DocumentStore.Store.CancelRegulation | src/services/bedService.ts:140-166 | both records change (request waiting, bed clean) or neither |
| DocumentStore.Store.AddRequest | src/services/requestService.ts:16-28 | a fresh id holds the pending new record; other collections unchanged |
| DocumentStore.Store.UpdateRequest | src/components/EvaluationModal.tsx:136-146 | a present request is replaced by its update; a missing one changes nothing |
| DocumentStore.Store.AddUnit | src/services/bedService.ts:26-31 | a fresh id holds the unit with its creation time |
| DocumentStore.Store.UpdateUnit | src/components/StructureManager.tsx:118 | a present unit gets the new name and description |
| DocumentStore.Store.DeleteUnit | src/components/StructureManager.tsx:146 | the unit is removed |
| DocumentStore.Store.DeleteBed | src/components/StructureManager.tsx:179 | the bed is removed |
| DocumentStore.Store.UpdateBedNumber | src/components/StructureManager.tsx:196 | a present bed gets the number, nothing else changes |
| DocumentStore.Store.AddDischargeAssessment | src/services/dischargeService.ts:21-27 | a fresh id holds the assessment with creation time and an empty review history |
| DocumentStore.Store.ConfirmDischarge | src/services/dischargeService.ts:40-58 | both records change (assessment discharged, bed clean and empty) or neither |
| DocumentStore.Store.ReviewDischarge | src/services/dischargeService.ts:60-86 | a present assessment gets its reviewed form |
| BedAvailability.SortRequests | src/components/BedAvailability.tsx:42-50 | a permutation, ascending by priority with missing as 99, and stable within equal priorities |
| BedAvailability.EvaluatedFirst | src/components/BedAvailability.tsx:44-46 | every request with a priority 1..5 comes before every request without one |
| BedAvailability.JustificationNeededIffBetterWaits | src/components/BedAvailability.tsx:94-105 | a choice needs a justification iff some waiting request has a strictly better priority, so the head and its ties never do |
| BedAvailability.RegulationBoard.constructor | src/components/BedAvailability.tsx:57-64 | no bed selected, both dialogs closed, no pending assignment, empty justification |
| BedAvailability.RegulationBoard.SetJustificationText | src/components/BedAvailability.tsx:265 | the typed text becomes the justification; nothing else changes |
| BedAvailability.RegulationBoard.HandleBedClick | src/components/BedAvailability.tsx:84-89 | only clean and discharge-confirmed beds are selected and open the dialog |
| BedAvailability.RegulationBoard.ExecuteAssignment | src/components/BedAvailability.tsx:108-122 | the store assignment; on success both dialogs close and the text and pending assignment are cleared |
| BedAvailability.RegulationBoard.HandleSelectPatient | src/components/BedAvailability.tsx:91-118 | nothing changes without a bed; an inversion defers the assignment and opens the justification, leaving the store alone; otherwise the assignment is made at once without justification, the request regulated and the bed occupied, and on success both dialogs close and the text and pending assignment are cleared, while on failure the board is as it was |
| BedAvailability.RegulationBoard.HandleJustificationConfirm | src/components/BedAvailability.tsx:108-132 | under 10 characters, or with no pending assignment, nothing changes; otherwise the pending assignment is made with the text, the request regulated and the bed occupied, and on success both dialogs close and the text and pending assignment are cleared, while on failure the board is as it was |
| BedAvailability.RegulationBoard.HandleStatusUpdate | src/components/BedAvailability.tsx:75-82 | the store's status update |
| BedAvailability.JustifiedAssignmentIsRecorded | src/components/BedAvailability.tsx:125-128 | an accepted justification is stored and becomes the audit reason |
| StructureManager.UnitFormIsStricter | src/components/StructureManager.tsx:64-67 | every name the form accepts is a valid unit name, but a one-character name is valid and refused |
| StructureManager.NewBedsFormYieldsValidBeds | src/components/StructureManager.tsx:70-77 | every bed a valid range form creates satisfies the bed schema |
| StructureManager.DeleteEmptyUnitKeepsReferences | src/components/StructureManager.tsx:134-146 | deleting a unit with no beds keeps every bed's unit in place |
| StructureManager.DeleteUnitWithBedsOrphans | src/components/StructureManager.tsx:134-143 | deleting a unit that has beds would leave a bed without its unit |
| StructureManager.CreatedBedsKeepReferences | src/components/StructureManager.tsx:162-165 | beds created for an existing unit refer to it |
| StructureManager.OnUnitSubmit | src/components/StructureManager.tsx:115-129 | an invalid name writes nothing; otherwise the edited unit is updated or a new one is added |
| StructureManager.HandleDeleteUnit | src/components/StructureManager.tsx:131-152 | refused iff a bed references the unit; otherwise the unit is removed; bed references stay valid |
| StructureManager.OnBedSubmit | src/components/StructureManager.tsx:160-174 | nothing for an invalid form or unknown unit; otherwise the bulk creation under that unit's name |
| StructureManager.HandleDeleteBed | src/components/StructureManager.tsx:176-185 | the bed is removed and bed references stay valid |
| StructureManager.HandleEditBedNumber | src/components/StructureManager.tsx:187-201 | cancelled, empty or NaN input writes nothing; otherwise only the bed number changes, to the parsed value |
| StructureManager.EditorCanBreakBedSchema | src/components/StructureManager.tsx:190-196 | the editor accepts "0", which gives a bed the schema rejects |
| JsParseInt.TrimStart | src/components/StructureManager.tsx:190 | the result is a suffix that does not start with white space |
| JsParseInt.LeadingDigits | src/components/StructureManager.tsx:190 | the longest prefix of digits of the radix |
| JsParseInt.NatToStringValue | src/components/StructureManager.tsx:188 | the decimal digits of n denote n |
| JsParseInt.ParseIntOfDecimal | src/components/StructureManager.tsx:188-190 | `parseInt` reads back `toString`, also with trailing non-digit text |
| JsParseInt.ParseIntOfNegative | src/components/StructureManager.tsx:190-196 | a minus sign gives the negated number, which the editor writes |
| JsParseInt.NoDigitIsNaN | src/components/StructureManager.tsx:191-194 | text with no leading digit is NaN |
| InformAvailability.ReportableStatusesAreBedStatuses | src/components/InformAvailabilityModal.tsx:32-37 | the four reportable statuses are exactly the bed statuses other than closed and occupied |
| InformAvailability.SelectableBeds | src/components/InformAvailabilityModal.tsx:72-80 | every offered bed is closed, occupied or in maintenance, and of the chosen unit when one is chosen |
| InformAvailability.SelectableBedsMembers | src/components/InformAvailabilityModal.tsx:72-80 | a bed is offered iff it is listed, of the chosen unit (or none chosen) and closed, occupied or in maintenance; order kept |
| InformAvailability.OnSubmit | src/components/InformAvailabilityModal.tsx:82-94 | a complete form writes only the chosen bed's status |
| InformAvailability.ReportEffect | src/components/BedAvailability.tsx:85-88 | a reported bed opens regulation iff reported clean or discharge-confirmed, and is offered again iff reported in maintenance |
| DischargeTypes.ParseDischargeStatus | src/types/discharge.ts:4-10 | a parsed name prints back to itself |
| DischargeTypes.DischargeStatusNamesRoundTrip | src/types/discharge.ts:4-10 | every discharge status parses back from its name |
| DischargeService.NewAssessment | src/services/dischargeService.ts:21-27 | creation time now, empty review history, all else as given |
| DischargeService.ActiveDischarges | src/services/dischargeService.ts:29-38 | every listed record is a candidate or at a barrier |
| DischargeService.ActiveDischargesMembers | src/services/dischargeService.ts:32 | a record is listed iff it is in the snapshot and a candidate or at a barrier; order kept |
| DischargeService.DischargedAssessment | src/services/dischargeService.ts:45-47 | only the status changes, to discharged, which leaves the active list |
| DischargeService.ReviewEffect | src/services/dischargeService.ts:60-86 | exactly one entry is appended, with the decision, the observation and the actor; the status becomes the decision iff it is candidate, barrier or mismatch |
| DischargeService.MismatchLeavesActiveList | src/services/dischargeService.ts:78-83 | a clinical-mismatch review removes the record from the active list |
| DischargeService.KeepUnderAnalysisChangesBarrier | src/services/dischargeService.ts:78-83 | the "keep under analysis" choice turns a barrier record into a candidate |
| DischargeService.Stats | src/services/dischargeService.ts:88-121 | eligible is the record count, and discharged + barrier ≤ eligible |
| DischargeService.StatusCountsBound | src/services/dischargeService.ts:102-107 | the discharged and barrier counts together never exceed the total |
| DischargeService.StatsOfAppend | src/services/dischargeService.ts:102-107 | one more record adds one to eligible and one to its own status count |
| DischargeAssessmentModal.ToAnswers | src/components/DischargeAssessmentModal.tsx:101-107 | every stored answer is true iff every form answer is yes |
| DischargeAssessmentModal.ToAssessment | src/components/DischargeAssessmentModal.tsx:80-108 | status candidate iff all yes, else not_candidate; unit name and bed number present iff found |
| DischargeAssessmentModal.SubmittedAssessment | src/components/DischargeAssessmentModal.tsx:71-122 | a submitted form is a valid assessment, active iff all yes, with the form's answers |
| DischargeAssessmentModal.OneNoIsNotCandidate | src/components/DischargeAssessmentModal.tsx:73-78 | a single no gives not_candidate, outside the active list |
| DischargeAssessmentModal.FilteredBeds | src/components/DischargeAssessmentModal.tsx:69 | every offered bed is of the chosen unit and occupied |
| DischargeAssessmentModal.FilteredBedsMembers | src/components/DischargeAssessmentModal.tsx:69 | a bed is offered iff listed, of the chosen unit and occupied |
| DischargeAssessmentModal.OnSubmit | src/components/DischargeAssessmentModal.tsx:71-122 | a valid form always adds one assessment, whatever the answers; an invalid one adds none |
| RefusalModal.RefusalWrite | src/components/RefusalModal.tsx:48-58 | any request becomes `refused_nir` with the reason, and one `refused` entry is appended |
| RefusalModal.OnSubmit | src/components/RefusalModal.tsx:35-58 | writes exactly when the reason has at least 10 characters and the request exists |
| RequestQueue.FilteredRequests | src/components/queue/RequestQueue.tsx:26-43 | a permutation of the matching pending requests, ascending by the chosen key, with ties in their filtered order |
| RequestQueue.FilteredRequestsMembers | src/components/queue/RequestQueue.tsx:27-36 | a request is shown iff it is in the input, matches the search and the priority filter, and is pending |
| RequestQueue.NoFilterShowsAllPending | src/components/queue/RequestQueue.tsx:27-36 | with an empty term and "all", exactly the pending requests are shown |
| RequestQueue.PriorityFilterSelects | src/components/queue/RequestQueue.tsx:33-34 | choosing priority p shows exactly the matching pending requests of priority p |
| RequestQueue.UrgentCount | src/components/queue/RequestQueue.tsx:45 | never more than the displayed count |
| RequestQueue.UrgentCountIgnoresOrder | src/components/queue/RequestQueue.tsx:38-45 | the urgent count is the same under both orders |
| RequestQueue.UrgentFirst | src/components/queue/RequestQueue.tsx:39-41 | under the priority order, urgent requests come first |
| AuditPage.RequestRows | src/pages/AuditPage.tsx:24-30 | one row per history entry, in order, each with its request's fields |
| AuditPage.AllRowsShape | src/pages/AuditPage.tsx:23-30 | the row count is the total history length, and each row is an entry of one request with that request's name, record, id and priority |
| AuditPage.EveryEntryHasARow | src/pages/AuditPage.tsx:23-30 | every history entry of every request has its row |
| AuditPage.AllAuditEntries | src/pages/AuditPage.tsx:23-31 | a permutation of all rows, newest date first, with rows of the same date in their collected order |
| AuditPage.AuditRowCount | src/pages/AuditPage.tsx:23-31 | the sorted list has one row per history entry |
| AuditPage.FilteredEntries | src/pages/AuditPage.tsx:33-38 | every kept row matches the term |
| AuditPage.FilteredEntriesShape | src/pages/AuditPage.tsx:33-38 | a row is kept iff it matches; the kept rows keep their order; an empty term keeps all |
| AuditPage.JustificationIsNotSearched | src/pages/AuditPage.tsx:33-38 | the justification never affects the search |
| AuditPage.SampleAuditTrail | src/pages/AuditPage.tsx:23-31 | built from the sample requests, the page has five rows |

## Where the code disagrees with itself

In each of the five points below, one part of the code contradicts
another: a label against what is written, or a schema against what a
service or a form stores. The model follows what the code does, and each
point is proved as a lemma so that it stays visible.

- **The two classifiers disagree when recovery is low.**
  - `EvaluationModal.ClassifiersAgreement` characterises exactly when the
    two tables agree.
  - `EvaluationModal.ClassifiersDisagree` gives the case with no support,
    low recovery and no limitation. The checklist says 4. The queue
    classifier says 3 or 5.
- **The bed service writes statuses the request schema rejects.**
  `regulated` and `admitted` are not in the request status enum.
  - The datatype `RequestTypes.RequestStatus` is widened to hold them.
  - `RequestTypes.InStatusEnum` marks the five enum values.
  - `RequestTypes.RegulatedRequestsFailSchema` proves that such records
    fail the schema. `BedService.RegulationReason` proves that assignment
    produces one.
- **The unit-name minimum differs.** The administration form asks for two
  characters; the unit type asks for one (`StructureManager.UnitFormIsStricter`).
- **"Keep under analysis" changes the status.** The review dialog labels
  one option "no status change", but it submits the decision `candidate`,
  which the service writes. A record at an administrative barrier
  therefore becomes a candidate again
  (`DischargeService.KeepUnderAnalysisChangesBarrier`).
- **The bed-number editor accepts any number `parseInt` yields.** That
  includes zero and negative numbers, which the bed schema rejects
  (`StructureManager.EditorCanBreakBedSchema`, `JsParseInt.ParseIntOfNegative`).

## Left out

- JavaScript numbers are modelled as Dafny `int` (unbounded integers).
  Fractional values are not modelled. `z.coerce.number().min(1)` in the
  bed-range form (src/components/StructureManager.tsx:70-77) accepts
  "1.5", and the loop at src/services/bedService.ts:61 would then number
  beds 1.5, 2.5, … . The fields concerned are `startNumber`/`endNumber`
  and `bedNumber` (src/types/bed.ts:25), `cfmPriority`
  (src/types/request.ts:35), and the patient's `age`, `sofa` and `apache`
  (src/components/forms/NewRequestForm.tsx:31-46). Here they are all
  integers.
- String lengths are counted in Unicode scalar values (Dafny's `|s|` on
  `seq<char>`), whereas zod's `.min(n)` and JavaScript's `.length` count
  UTF-16 code units, so characters outside the Basic Multilingual Plane
  (emoji) count once here and twice in the source. This concerns the
  10-character justification (src/components/BedAvailability.tsx:125),
  the refusal reason (src/components/RefusalModal.tsx:36), the
  new-request fields (src/components/forms/NewRequestForm.tsx:31-46), the
  unit name (src/components/StructureManager.tsx:65) and the discharge
  assessment fields (src/types/discharge.ts:21-26).

- BedAvailability.RegulationBoard.HandleJustificationConfirm: dialog closes
  driven by the dialog library are not modelled. Clicking the confirm action
  (src/components/BedAvailability.tsx:271-277), the cancel button or the
  overlay closes the justification dialog through `onOpenChange` even when
  the text is too short or the assignment fails; the model keeps
  `justificationOpen` as the handler's own code leaves it.
- Rendering, toasts, dialog animations, colour and label helpers, and the
  layout and page shells: presentation only.
- Subscriptions (`onSnapshot`): their lists are the store's current maps
  or a parameter. The time between a snapshot and a write is not
  modelled. For example, the "unit has beds" check reads the current
  beds.
- The order of a collection snapshot is a parameter. The pending
  subscription's tie-break on document id, among records created at the
  same time, is not modelled: ties keep the snapshot order. The store
  excludes records without `createdAt` from an `orderBy` query, and so
  does the model.
- Id generation and server timestamps are a counter and a `now`
  parameter. Batch failures for reasons other than a missing document
  (network, permissions) are not modelled.
- `arrayUnion` is modelled as append. Its de-duplication of equal entries
  is not modelled: entries differ by timestamp.
- `updateRequest`, `subscribeToWaitingRequests`, `updateUnit`,
  `deleteUnit`, `deleteBed` and `updateBed` are called by the core but
  are not part of this model's sources. Each is modelled as the plain
  document write its call implies:
  - `updateRequest`: merge the given fields and append one audit entry
    stamped `now`;
  - `updateUnit` and `updateBed`: merge;
  - `deleteUnit` and `deleteBed`: removal.
  The waiting list is a parameter.
- `addRequest` rethrows a failed write. The model has no failure for
  `addDoc`.
- DocumentStore.Store.AddRequest: returns the new id but does not model
  the rethrow.
- Common.ToLower: folds ASCII letters only. JavaScript's Unicode case
  mapping, and therefore accented capitals, are not modelled.
- JsParseInt.ParseInt: exact integers only. The loss of precision past
  2^53 and the `Infinity`/exponent forms are not modelled. White space is
  the ASCII set plus no-break space and the byte-order mark.
- zod and react-hook-form coercion: a number field that is not a number
  (NaN), and the difference between an absent field and a null one, are
  not modelled. Both are `None`.
- An absent `auditHistory` is treated as the empty list.
- The review dialog's loading effect (src/components/EvaluationModal.tsx:53-70)
  only copies a stored record into the form; the model takes the answers
  as parameters.
- Floating-point statistics and charts, and date formatting: not part of
  the domain logic.
- `prompt()` is modelled by its result, an optional string.
