# MaintAI: verified model of the approval-gated services and their numeric cores

MaintAI Studio trains maintenance models, registers the recommended one, and lets a human gate every
consequential action. Four services share one database and one external champion alias: approvals are
proposed and decided, a promotion executes an approved approval (external alias write first, then one
transaction that archives the old champion, installs the new one and writes the receipt), and a mock CMMS
turns an approved approval into a work order and a receipt. Beside them run the experiment service, which
feeds registration, and the candidate registry over an external version store.

The project models those services and proves what their design promises, and then does the same for the
numeric and textual cores they rest on: leakage-aware splitting, metric and cost ranking, drift indices, the
flatline check, the artifact cache and the number scanner that grounds copilot answers.

## How the model is laid out

| file | content |
|---|---|
| `Records.dfy`, `Wrappers.dfy` | rows of the business tables, payload JSON, result shapes |
| `ApprovalGate.dfy` | proposals, verdicts, the compare-and-swap transition, the decision trail |
| `Promotion.dfy` | payload validation, the retiring loop, the lifecycle table as a replay of the receipt log |
| `WorkOrders.dfy` | draft validation, the draft transaction, work orders against receipts |
| `Ledger.dfy` | the whole database: one invariant, one preservation lemma per transaction, the growth relation |
| `Protocol.dfy` | the interleaved machine: reads outside a transaction, the alias write and each transaction are single steps; any call may crash between steps |
| `Guarantees.dfy` | what holds in every reachable state and between any two of them |
| `AliasAgreement.dfy`, `Divergence.dfy` | exactly when the external alias agrees with the champion, what breaks and restores that, when an archived model comes back, and concrete reachable runs |
| `Services.dfy` | the services as imperative methods over a mutable store, proved to have the machine's effect |
| `Experiments.dfy`, `RunOutcomes.dfy` | experiment runs and registrations interleaved, the run as an imperative method, and which runs leave a recommendation behind |
| `Pipeline.dfy` | experiments and lifecycle joined by the registering transaction: from experiment to champion |
| `CandidateRegistry.dfy` | registration and demo deployment with a stop after any external write, plus the mutable service |
| `Split.dfy`, `Leakage.dfy`, `FoldSizes.dfy`, `EmptyTrain.dfy`, `SplitContract.dfy` | both passes of the split, their separation guarantees, when folds are empty, and all of it told from the columns of the request |
| `Selection.dfy`, `CostRanking.dfy`, `Sorting.dfy` | the metric ranking, the cost comparison, and stable sorting |
| `Drift.dfy`, `Flatline.dfy`, `ArtifactCache.dfy`, `Grounding.dfy` | the remaining cores |

A run is a sequence of (call, step) pairs; ids drawn by `new_id()`, the success of an external call and the
outcome of a row write are parameters of a step, so collisions and partial failures are ordinary outcomes.

## What the proofs show about the code

- The lifecycle table is, after every interleaving and crash, a replay of the promotion receipts in commit
  order, and each approval is executed at most once.
- `archived` is not terminal: a model comes back exactly when an undisturbed promotion of it goes through
  (`AliasAgreement.ArchivedComesBackIff`), and `Divergence.ArchivedComesBack` is a concrete run.
- The alias and the champion can disagree for good when two promotions of one name overlap:
  `Divergence.DivergenceIsReachable` is a concrete run with no call left open. Without overlap they can differ
  only between the alias write and its transaction. The exact condition, overlap or not, is that the alias still
  names the promoted version when the transaction commits (`AliasAgreement.CommitAgreesIff`, and
  `AliasAgreement.AgreementStep` for every other step). A promotion that goes through restores agreement; repeating
  an approval that already has a receipt changes nothing, because the receipt is returned before any alias write
  (`AliasAgreement.RepeatChangesNothing`, with a reachable instance in `Divergence.RepeatDoesNotRestore`).
- A failed experiment carries a recommendation exactly when its final commit was lost
  (`RunOutcomes.FailedCarriesRecommendationIff`); every other failure leaves it empty.
- Two overlapping registrations of one run insert two rows (`RunOutcomes.OverlappingRegistrationsInsertTwice`).
- Non-default split sizes can be accepted and yet leave no training row: `EmptyTrain.UsesUp` is the exact
  condition on the frame, the sizes and the seeded permutation, and
  `FoldSizes.LargeValidationSizeEmptiesTrain` an instance.
- The error counts survive a change of label order exactly when the positive label is recorded or the confusion
  matrix is symmetric (`Selection.RelabellingKeepsCounts`); `Selection.UnrecordedPositiveSwapsErrors` is an instance
  that does not.

## Model

| member | source | states |
|---|---|---|
| ApprovalGate.InsertKeeps | src/maintai/db/models.py:298-308 | inserting under the primary key and the pending index keeps one pending request per target and freezes every existing row |
| ApprovalGate.TransitionKeeps | src/maintai/db/approval_repository.py:118-166 | a transition that matches found a pending row at version 1, leaves it decided at version 2, and touches no other field or row |
| ApprovalGate.TransitionRecordsVerdict | src/maintai/db/approval_repository.py:137-144 | executors will use the human payload after a modification, the proposed one after an approval, nothing after a rejection; decider and reason are stored and every other row is untouched |
| ApprovalGate.SecondTransitionFails | src/maintai/db/approval_repository.py:146-160 | once one transition of an approval has matched, no later one matches, whatever version it expects |
| ApprovalGate.TransitionTrail | src/maintai/approvals/service.py:256-281 | a decision with its audit event keeps decision events and decided rows in one-to-one correspondence, with equal status and decider |
| Promotion.RequestPayload | src/maintai/application/lifecycle.py:196-201 | the payload a request proposes passes the validation that execution will apply to it |
| Promotion.ChampionsAre | src/maintai/application/lifecycle.py:292-306 | over distinct siblings with one champion the retiring loop archives that champion, unless it is the target, and nothing else |
| Promotion.ArchivedIsSuperseded | src/maintai/application/lifecycle.py:292-306 | the archived ids of a promotion are the previous receipt's target of that name when it differs, else none |
| Promotion.PromoteKeepsReplay | src/maintai/application/lifecycle.py:294-350 | the promotion transaction keeps the lifecycle table a replay of the receipts |
| Promotion.ReplayGivesOneChampion | src/maintai/application/lifecycle.py:294-319 | a replayed table has exactly the last target of a name as champion, and none for a name never promoted |
| WorkOrders.WorkOrderIffReceipt | src/maintai/cmms/service.py:262-316 | for a work-order approval, having a work order, having a receipt and the receipt naming that order go together |
| WorkOrders.DraftKeepsWorkOrders | src/maintai/cmms/service.py:267-304 | the draft transaction keeps work orders and draft receipts in one-to-one correspondence with frozen payloads |
| WorkOrders.DraftFailsOnlyOnReplay | src/maintai/cmms/service.py:305-315 | the draft transaction is refused exactly when the work order exists already or a drawn id is taken |
| WorkOrders.DraftCarriesPayload | src/maintai/cmms/service.py:267-278 | each column holds the payload value of its own key and is empty exactly when the payload has none |
| Ledger.ProposeKeeps | src/maintai/approvals/service.py:156-204 | a committed proposal keeps the database invariant and only adds |
| Ledger.DecideKeeps | src/maintai/approvals/service.py:256-281 | a committed decision keeps the database invariant and only adds |
| Ledger.RequestKeeps | src/maintai/application/lifecycle.py:202-242 | a committed promotion request, with or without a new challenger row, keeps the database invariant |
| Ledger.PromoteKeeps | src/maintai/application/lifecycle.py:294-350 | a committed promotion under an authorising approval keeps the database invariant and only adds |
| Ledger.DraftKeeps | src/maintai/cmms/service.py:285-304 | a committed draft keeps the database invariant and only adds |
| Protocol.ApplyKeeps | src/maintai/application/lifecycle.py:251-368 | any step of any call keeps the invariant of database, suspended calls and replies, and history only grows |
| Protocol.RunKeeps | src/maintai/application/lifecycle.py:251-368 | so does every run, with any number of calls, interleavings and crashes |
| Guarantees.LifecycleIsReplay | src/maintai/application/lifecycle.py:292-355 | champion iff target of the latest receipt of the name, archived iff targeted only earlier, challenger only if never targeted; each receipt archives exactly the previous target if different |
| Guarantees.OneChampionPerName | src/maintai/application/lifecycle.py:294-319 | at most one champion per name, and exactly one iff a promotion of the name has a receipt |
| Guarantees.ExecutionsAreAuthorised | src/maintai/application/lifecycle.py:113-153 | at most one receipt per approval; each promotion receipt belongs to an approved or modified promotion approval of that model, and the executed payload (the human's after a modification) holds the model's id and, where present, its name and version; every lifecycle row was asked for |
| Guarantees.ClearanceOutlivesTheWait | src/maintai/application/lifecycle.py:277-295 | a call validated before its alias write is still validated when it commits, however late |
| Guarantees.DecidedAtMostOnce | src/maintai/approvals/service.py:248-281 | with racing deciders and proposers: one pending request per target, version 1 iff pending and 2 otherwise, one decision event per decided approval and none for a pending one |
| Guarantees.ProposesIff | src/maintai/approvals/service.py:124-205 | an undisturbed proposal under an unused id enters iff its fields are acceptable and no request for the same action on the same entity is pending |
| Guarantees.DecidesTheVersionSeen | src/maintai/approvals/service.py:207-282 | an undisturbed decision takes effect iff it is valid, the approval is pending and a version it names is the stored one; the row then holds the verdict, and nothing else changes |
| Guarantees.HistoryIsAppendOnly | src/maintai/db/approval_repository.py:137-166 | requests and decided rows never change; models, work orders, receipts and audit events are only added |
| Guarantees.AuditMatchesReceipts | src/maintai/application/lifecycle.py:321-350 | the audit log and the receipts record the same executions in the same order |
| Guarantees.WorkOrdersMatchReceipts | src/maintai/cmms/service.py:262-316 | a work-order approval has a work order iff it has a receipt, and the row equals the frozen effective payload |
| Guarantees.WorkOrdersCarryTheirPayload | src/maintai/cmms/service.py:149-175 | in every reachable state each work order equals the frozen effective payload column by column, for the event the approval names |
| Guarantees.RepliesAgree | src/maintai/cmms/service.py:262-316 | all replies about one approval, by racing or repeated callers, name the same work order and receipt |
| Guarantees.BlockedDraftFindsItsWinner | src/maintai/cmms/service.py:305-315 | while a draft call sits after a unique violation, the work order exists unless one of its drawn ids is in use |
| Guarantees.DraftCommitSettles | src/maintai/cmms/service.py:284-316 | a draft whose commit step drew unused ids leaves its approval with a work order then and ever after, so the branch without one is unreachable |
| Guarantees.ExecutedAtMostOnce | src/maintai/application/lifecycle.py:270-368 | at most one caller is ever told that its own call executed an approval, and then a receipt exists |
| AliasAgreement.AliasInvReached | src/maintai/application/lifecycle.py:284-319 | the alias invariant of a name holds after every run without overlapping promotions of that name |
| AliasAgreement.AliasAgreesOutsideTheWindow | src/maintai/application/lifecycle.py:284-319 | without overlap the alias names the champion's version except between an alias write and its transaction, or after a stop there; inside, it names the version being promoted |
| AliasAgreement.NoOverlapNoConflict | src/maintai/application/lifecycle.py:320-355 | without overlap the transaction is refused only for a receipt id already in use |
| AliasAgreement.AttemptRestoresAgreement | src/maintai/application/lifecycle.py:284-319 | from any state, an undisturbed promotion of a model of the name under an unexecuted approval makes alias and champion agree |
| AliasAgreement.AttemptEffect | src/maintai/application/lifecycle.py:251-368 | the exact effect of an undisturbed promotion, for every approval: it goes through iff the actor is named, the version is a registry version, the approval authorises the model and has no receipt; then alias and champion agree, otherwise database, alias and agreement are unchanged |
| AliasAgreement.RepeatChangesNothing | src/maintai/application/lifecycle.py:270-275 | executing an approval that has a receipt changes nothing but the replies, so agreement is whatever it was |
| AliasAgreement.ArchivedComesBackIff | src/maintai/application/lifecycle.py:310-319 | an archived model becomes champion by an undisturbed promotion exactly when that promotion goes through |
| AliasAgreement.CommitAgreesIff | src/maintai/application/lifecycle.py:284-319 | at a commit, alias and champion agree afterwards iff just before the transaction the alias still names the version this call promotes |
| AliasAgreement.AgreementStep | src/maintai/application/lifecycle.py:284-319 | the exact condition at every step of every call, overlapping or not: a commit agrees iff the alias names its version, an alias write iff it names the champion's, and no other step changes agreement |
| AliasAgreement.AgreesIffSettled | src/maintai/application/lifecycle.py:284-319 | over whole runs: alias and champion agree iff the latest commit or alias write of the name met its condition |
| AliasAgreement.LastCommitDecides | src/maintai/application/lifecycle.py:284-319 | of two overlapping calls that both commit, agreement holds iff the alias names the version of the last one to commit |
| AliasAgreement.OverlapDiverges | src/maintai/application/lifecycle.py:284-319 | the diverging case of it: the later alias writer commits first, no call stays open, nothing is interrupted, and the alias is not the champion's |
| Divergence.GrantAuthorises | src/maintai/application/lifecycle.py:180-249 | with no promotion of that model pending, whatever else is, an undisturbed request and approval authorise it and leave every other approval alone |
| Divergence.TwoRequestsWait | src/maintai/db/models.py:298-308 | a concrete reachable state in which promotions of two different models are pending side by side |
| Divergence.DivergenceIsReachable | src/maintai/mlops/registry.py:251-259 | a concrete run from the empty database after which the alias disagrees with the champion |
| Divergence.RepeatDoesNotRestore | src/maintai/application/lifecycle.py:270-275 | a concrete reachable state with a receipt, no open call and disagreement, which repeating the executed approval never repairs |
| Divergence.ArchivedComesBack | src/maintai/application/lifecycle.py:310-319 | a concrete reachable run in which an archived model becomes champion again under a second approval granted before it was archived |
| Services.Store.CreateApproval | src/maintai/db/approval_repository.py:40-51 | inserts iff the id is unused and no pending row has the same action, entity type and entity id |
| Services.Store.TransitionApproval | src/maintai/db/approval_repository.py:118-171 | updates the stored row in place exactly when the guard matches, and reports whether it did |
| Services.Store.Propose | src/maintai/approvals/service.py:124-205 | accepted iff every field rule holds, the id is unused and no pending row has the same action, entity type and entity id; then a pending row at version 1 and its audit event, otherwise no change |
| Services.Store.Decide | src/maintai/approvals/service.py:207-282 | which decisions are invalid, rule by rule; a valid one succeeds iff the approval is pending at the expected version, and the row then holds the verdict; otherwise nothing changes |
| Services.Store.RequestPromotion | src/maintai/application/lifecycle.py:180-249 | granted iff the model exists, is not champion or archived, requester and ids are acceptable, the id is unused and no promotion of this model is pending; the row and payload written; a refused proposal takes the challenger row out again |
| Services.Store.RetireSiblings | src/maintai/application/lifecycle.py:296-306 | the loop over siblings archives in place and returns the specified list in order |
| Services.Store.CommitPromotionTx | src/maintai/application/lifecycle.py:292-350 | commits iff neither the receipt id nor the approval has a receipt; the whole new state, or a full rollback |
| Services.Store.ValidatePromotion | src/maintai/application/lifecycle.py:113-153 | for each refusal the exact condition over the columns, in the order of the checks, and acceptance iff action, entity, status and the effective payload's registered_model_id, name and version all fit the model |
| Services.Store.ExecutePromotion | src/maintai/application/lifecycle.py:251-368 | executes iff actor, model, version, registry and receipt ids allow it and the approval's columns and effective payload name this model; tables, alias and reply are those of the machine's steps, and an error leaves the tables alone |
| Services.Store.CommitDraftTx | src/maintai/cmms/service.py:285-304 | commits iff the approval has no work order or receipt and both drawn ids are unused; work order, receipt and audit event together, or none |
| Services.Store.CreateDraft | src/maintai/cmms/service.py:149-316 | which approvals are accepted, key by key with the allowlist and limits written out, and when the call creates, replays or fails; tables and reply are those of the machine's steps |
| Services.UndisturbedCallsKeepInvariant | src/maintai/application/lifecycle.py:251-368 | a whole sequential call keeps everything every run keeps |
| Experiments.ApplyKeeps | src/maintai/application/experiments.py:396-680 | any step of any run or registration keeps the invariant; terminal rows are frozen and history grows |
| Experiments.RunKeeps | src/maintai/application/experiments.py:396-680 | so does every interleaving |
| Experiments.EntersRunningAtMostOnce | src/maintai/application/experiments.py:396-415 | however many callers race, one run start per experiment, at most one terminal event, and each event iff the status |
| Experiments.TerminalRowsAreForever | src/maintai/application/experiments.py:398-403 | a succeeded or failed experiment keeps its row, recommendation included |
| Experiments.OneTrainerPerExperiment | src/maintai/application/experiments.py:396-421 | two calls never train one experiment, and the one that does finds it running |
| Experiments.SucceededHasItsRun | src/maintai/application/experiments.py:511-548 | whichever row writes failed, a succeeded experiment's recommended model and run have their model-run row |
| Experiments.RegisteredModelsStaySound | src/maintai/application/models.py:112-137 | every registered model points, then and ever after, to the recommended run of a succeeded experiment |
| Experiments.FailedCommitKeepsRecommendation | src/maintai/application/experiments.py:630-680 | from every call that reached packaging, a lost commit and a failure mark store the recommendation with the failed status |
| Experiments.PackagingIsReached | src/maintai/application/experiments.py:538-548 | a concrete run reaches the point from which that happens |
| RunOutcomes.FailedCarriesRecommendationIff | src/maintai/application/experiments.py:417-421 | a failed experiment carries a recommendation exactly when its call reached the final commit and that commit was lost; queued and running rows never carry one |
| RunOutcomes.FailureMarkStores | src/maintai/application/experiments.py:658-680 | what the failure mark stores can be told from whether the final commit was lost |
| RunOutcomes.OverlappingRegistrationsInsertTwice | src/maintai/application/models.py:174-212 | two registrations of one eligible run, each under the name it asked for or the model name, insert two rows if both look before either commits, and one if the second looks afterwards |
| RunOutcomes.RegistrationsAreAudited | src/maintai/application/models.py:207-227 | over every run each model run has as many registration events as registered rows |
| RunOutcomes.EligibleRunIsReached | src/maintai/application/experiments.py:630-656 | a concrete run reaches a succeeded experiment whose run is eligible and unregistered |
| Pipeline.RunKeeps | src/maintai/application/models.py:192-227 | joining both machines by the registering transaction keeps their invariants and links every lifecycle model to its registration row |
| Pipeline.ChampionsAreRecommendedAndApproved | src/maintai/application/lifecycle.py:113-153 | end to end: every champion is the recommended run of a succeeded experiment, and an approved or modified promotion approval of this very model, whose executed payload names it, has its receipt |
| Pipeline.ChampionIsReached | src/maintai/application/lifecycle.py:292-350 | a concrete run of the joined machines ends with a champion |
| Experiments.ExperimentService.Execute | src/maintai/application/experiments.py:388-421 | a queued experiment succeeds iff training and every log succeed, the recommended model is trained and its own row is kept under an unused id, and package and commit succeed; other models' row writes are free; the recommendation is that model with its logged run, and otherwise the status says failed or, if the mark is lost, running |
| Experiments.ExperimentService.RunTraining | src/maintai/application/experiments.py:423-656 | the training loop follows the machine's steps and finishes under exactly that condition on the collaborators' answers |
| Experiments.ExperimentService.StoreRow | src/maintai/application/experiments.py:511-536 | the row is stored unless the write failed or its id is used, and the name counts as persisted iff it was also read back |
| CandidateRegistry.RegisterRunKeepsVersions | src/maintai/mlops/registry.py:149-193 | however far the registry call gets, versions are only appended, a run gets at most one per name, and a returned version is its own |
| CandidateRegistry.RunKeeps | src/maintai/application/models.py:165-262 | every sequence of registrations and deployments, stopped anywhere and retried, keeps the registry invariant |
| CandidateRegistry.OneVersionPerNameAndRun | src/maintai/mlops/registry.py:169-189 | at most one external version per name and run, and each row carries its run's version |
| CandidateRegistry.OneCandidateOneDeployment | src/maintai/application/models.py:207-211 | per name at most one candidate and one deployed row, one row per model run, deployed iff the status says so |
| CandidateRegistry.DeployLeavesExactlyOne | src/maintai/application/models.py:230-262 | after a deployment exactly that row of its name is deployed; other names and all other columns are untouched |
| CandidateRegistry.RegistrationTakesOver | src/maintai/application/models.py:165-228 | a fresh registration is filed under the requested name, or the run's model name when none is given, becomes the one candidate of that name on both sides and reuses a version left by an interrupted call |
| CandidateRegistry.RegisteringAgain | src/maintai/application/models.py:174-185 | a registered run returns the same row if the requested name, or else the model name, is the row's; conflicts otherwise; and nothing changes |
| CandidateRegistry.RegistrationReplies | src/maintai/application/models.py:165-228 | for an unregistered run, the exact condition of every reply, in the order of the checks, and that nothing is written before the registry is reached |
| CandidateRegistry.ModelRegistryService.CallRegistry | src/maintai/mlops/registry.py:149-193 | each external write may be the last before an error |
| CandidateRegistry.ModelRegistryService.RegisterModel | src/maintai/application/models.py:165-228 | the whole new state and reply of a registration |
| CandidateRegistry.ModelRegistryService.DeployDemoModel | src/maintai/application/models.py:230-262 | the loop over siblings sets status and flag together |
| Split.HoldOutLeavesOne | src/maintai/data/split.py:95-102 | the held-out share is the size's share rounded up, never exceeds the pool, and takes all of it exactly when the remaining share is below one element |
| Split.OnePassPartitions | src/maintai/data/split.py:285-304 | for every strategy and scope, one pass puts each row of the scope in exactly one fold |
| Split.WhereOfTrain | src/maintai/data/split.py:251-252 | the train-scope mask selects exactly the train fold |
| Split.EveryRowInExactlyOneFold | src/maintai/data/split.py:215-282 | across both passes each row lands in exactly one of the three folds, each listed in strictly ascending order |
| Split.GroupTimeLoop | src/maintai/data/split.py:72-103 | the loop over assets computes the specified folds, fallback included |
| Split.FlatNonZero | src/maintai/data/split.py:79-79 | the true positions of a mask, ascending |
| Split.TrainScope | src/maintai/data/split.py:251-252 | the mask written from the train fold and read back |
| Split.RunSplit | src/maintai/data/split.py:215-282 | both passes with the mask between them, as the specification that `SplitContract` describes by columns and sizes; a failed second pass leaves train unchanged |
| Leakage.OnePassSeparates | src/maintai/data/split.py:72-139 | one pass keeps kept and held-out rows apart as its strategy promises |
| Leakage.FoldsAreSeparated | src/maintai/data/split.py:244-259 | train, validation and test are pairwise apart as the selected strategy promises; `SplitContract.FoldsFollowColumns` says the same by the columns requested |
| SplitContract.FoldsFollowColumns | src/maintai/data/split.py:48-62 | asset column only: no asset in two folds; asset and time: within each asset train is no later than validation and validation no later than test; time only: that order across the frame |
| SplitContract.EveryAssetIsTested | src/maintai/data/split.py:72-103 | with both columns each asset with several rows gives the test fold its rounded-up share and the others nothing |
| SplitContract.LibraryIsAsked | src/maintai/data/split.py:59-62 | without either column both passes come from the library, asked for a stratified split iff a classification target is named and for a random one otherwise |
| SplitContract.RefusedRequests | src/maintai/data/split.py:224-242 | for each refusal the exact condition over rows, sizes and columns, in the order of the checks |
| FoldSizes.AssetSharesInOnePass | src/maintai/data/split.py:90-100 | each asset with several rows gives up its share rounded up and at least one row; the others give up none |
| FoldSizes.OnePassSizes | src/maintai/data/split.py:95-139 | a pass always holds something out, and keeps nothing exactly when there is no room |
| FoldSizes.TrainerAcceptsIffRoomIsLeft | src/maintai/ml/train.py:50-57 | for any sizes the trainer accepts a returned split iff the second pass did not use up the train fold |
| EmptyTrain.TrainerAcceptsUnlessUsedUp | src/maintai/data/split.py:241-256 | the same as a condition on the frame, the sizes and the seeded permutation only, which a caller can check before splitting: row, asset or per-asset counts after the first share |
| EmptyTrain.LeftAfterFirst | src/maintai/data/split.py:90-103 | what the first pass leaves of each asset, and in all, from the row counts alone |
| EmptyTrain.AssetsLeft | src/maintai/data/split.py:117-125 | the first pass leaves as many assets as it did not draw |
| FoldSizes.DefaultSizesSatisfyTheTrainer | src/maintai/data/split.py:241-259 | with the default sizes every split by asset, by time or by both is accepted by the trainer |
| FoldSizes.LargeValidationSizeEmptiesTrain | src/maintai/data/split.py:248-256 | a permitted size pair returns a split with no train row |
| Selection.RankingFollowsTheRules | src/maintai/ml/recommend.py:29-82 | the ranking holds exactly the eligible evaluations, each as often as given, and none stands before one the rules prefer: lower "rmse", "mae" or "mse" or a higher value of any other metric, then other models before random_forest before xgboost, then latency, then name |
| Selection.BestIsUnbeaten | src/maintai/ml/recommend.py:14-41 | against the metric in force (the primary one, else "rmse" for regression and "f1" otherwise) no eligible evaluation has a better value, none as good is of a simpler kind, none as good and as simple is faster |
| Selection.RankingIgnoresInputOrder | src/maintai/ml/recommend.py:29-41 | with distinct names the input order does not matter |
| Sorting.TextLeIsLexicographic | src/maintai/ml/recommend.py:29-41 | the last tie-break compares names as a dictionary does |
| Selection.StricterRecallFiltersRanking | src/maintai/ml/recommend.py:56-67 | a stricter recall minimum keeps a subsequence of the former ranking |
| Selection.ErrorCountsReadTheMatrix | src/maintai/ml/cost.py:37-62 | the counts are the positives predicted negative and the negatives predicted positive, wherever the labels stand |
| Selection.RelabellingKeepsCounts | src/maintai/ml/cost.py:37-62 | the counts survive swapping the labels iff the positive label is recorded or the matrix is symmetric |
| Selection.UnrecordedPositiveSwapsErrors | src/maintai/ml/cost.py:57-62 | an evaluation without a positive label whose error counts swap with its labels |
| Selection.CompareCosts | src/maintai/ml/cost.py:75-161 | the row-appending loop computes the specified comparison, first error included |
| CostRanking.BestRowIsLeast | src/maintai/ml/cost.py:65-72 | the cost-best row is least in the cost order, in particular in cost, and the rows are exactly those built |
| CostRanking.TableIsComplete | src/maintai/ml/cost.py:65-161 | one row per successful evaluation with its two counts, its metric value and cost = misses x miss cost + false alarms x alarm cost, one name per failed one, rows ordered by cost, misses, false alarms, kind and name; the first row names the cheapest |
| CostRanking.ComparableIff | src/maintai/ml/cost.py:37-115 | a comparison succeeds iff the task and every successful evaluation are binary with a 2x2 matrix over two distinct labels that include a recorded positive one |
| CostRanking.ComparisonIgnoresInputOrder | src/maintai/ml/cost.py:103-131 | with distinct names the input order does not matter |
| CostRanking.DearerMissesNeverAddMisses | src/maintai/ml/cost.py:113-139 | a higher cost of misses never selects a model with more of them |
| CostRanking.ScalingCostsKeepsRanking | src/maintai/ml/cost.py:113-139 | one positive factor on both costs rescales the cost column and nothing else |
| CostRanking.MetricBestHasScoredRow | src/maintai/ml/cost.py:141-152 | the lookup of the metric-best row cannot fail, and finds a scored row when names are distinct |
| CostRanking.RelabellingKeepsComparison | src/maintai/ml/cost.py:75-161 | relabelling any chosen evaluations leaves the whole comparison unchanged when each meets that guard, and with distinct names only then |
| Drift.CoreEdgesSpanBaseline | src/maintai/monitoring/drift.py:96-99 | the core edges rise strictly and span exactly the baseline's range |
| Drift.QuantileInterpolates | src/maintai/monitoring/drift.py:96-97 | the quantile j/n is the order statistic at rank j(size - 1)/n, or divides the gap to the next one in proportion to the fraction of the rank |
| Drift.CoreEdgesAreQuantiles | src/maintai/monitoring/drift.py:96-97 | the core edges are those quantiles of the sorted baseline and no other points |
| Drift.EdgesAreInnerQuantiles | src/maintai/monitoring/drift.py:97-107 | the finite edges are the quantiles strictly inside the baseline range, with a point just outside in place of either end |
| Drift.BinIsInterval | src/maintai/monitoring/drift.py:101-109 | a value is counted in bin i iff it lies in the i-th half-open interval |
| Drift.HistogramConserves | src/maintai/monitoring/drift.py:108-109 | every value is counted exactly once |
| Drift.HistogramCounts | src/maintai/monitoring/drift.py:108-109 | each count is the number of values in its bin's interval |
| Drift.BaselineStaysInside | src/maintai/monitoring/drift.py:96-108 | baseline values never land in an overflow bin |
| Drift.PsiIsZeroIffEqual | src/maintai/monitoring/drift.py:113-113 | the stability index is non-negative, and zero iff the proportions agree |
| Drift.NumericPsiMeaning | src/maintai/monitoring/drift.py:85-113 | undefined exactly for an empty window or a constant baseline; otherwise non-negative, and zero iff the smoothed bin proportions agree |
| Drift.NumericPsiIsSum | src/maintai/monitoring/drift.py:108-113 | the index is the sum over the bins of (actual - expected) ln(actual / expected), from the smoothed shares of the values in each interval |
| Drift.CategoricalDriftMeaning | src/maintai/monitoring/drift.py:144-172 | both indices defined iff both windows hold a category; total variation lies in [0, 1] and is zero iff the shares agree |
| Drift.CategoricalDriftIsSum | src/maintai/monitoring/drift.py:144-172 | over each category of either window once, the index is that sum and the total variation half the sum of the share differences, from multiplicities |
| Drift.NewcomersAreProductionOnly | src/maintai/monitoring/drift.py:154-154 | the new categories are, once each and ascending, exactly those of production that the baseline lacks |
| Flatline.MaxFlatlineRun | src/maintai/data/quality.py:57-73 | a witness block has the returned length unless it is the floor of 1, and none is longer |
| ArtifactCache.HoldsTheMostRecentlyUsed | src/maintai/application/predictions.py:96-120 | the cache holds exactly the keys since whose last use fewer than 16 other keys were used, in order of last use |
| ArtifactCache.PlayIsTrimmedRecent | src/maintai/application/predictions.py:96-120 | trimming at every load equals trimming the unbounded order once |
| ArtifactCache.Cache.LoadDeployed | src/maintai/application/predictions.py:96-120 | the condition of each error over row, disk and model runs, and otherwise the package on disk, cached or not; only success counts as a use |
| ArtifactCache.Cache.EvictOverflow | src/maintai/application/predictions.py:118-119 | drops from the front until at most 16 entries remain |
| Grounding.MatchIsLongestNumber | src/maintai/agent/graph.py:223-223 | a match is the longest prefix of the number grammar at that place |
| Grounding.FindAllOverNewline | src/maintai/agent/graph.py:223-230 | the scan distributes over a newline |
| Grounding.NumbersOfJoin | src/maintai/agent/graph.py:212-220 | the numbers of the rendered evidence are those of its lines, in order |
| Grounding.RenderEvidence | src/maintai/agent/graph.py:212-220 | the line-appending loop, and which numbers its text contains |
| Grounding.BlocksInOrder | src/maintai/agent/graph.py:212-220 | the evidence text holds every source line followed by that result's data, in the order of the results and nothing else |
| Grounding.AnswerNumbersAreEvidenceNumbers | src/maintai/agent/graph.py:377-429 | for every provider reply the numbers of the answer are exactly the numbers of the evidence |
| Grounding.NarrativeIsKept | src/maintai/agent/graph.py:411-424 | the trimmed narrative opens the answer iff it is not blank and each of its numbers is in the evidence; otherwise a fixed heading does; the whole evidence follows either way |
| Records.StripTrims | src/maintai/agent/graph.py:412-412 | trimming removes white space at both ends, all of it, and nothing else |
| Records.DecimalReadsBack | src/maintai/application/lifecycle.py:124-134 | a version's numeral determines the version, so a payload that passes the version check names it |

## Left out

- Routers, UI, HTTP client, scripts, settings and the bearer gate: plumbing without rules of their own.
- scikit-learn, xgboost, SHAP, SciPy, MLflow, SQLAlchemy and joblib internals: external results are parameters or assumed contracts.
- Transactions: each `begin()` block is one atomic step, and a block that raises is taken to have been rolled back; a commit that succeeds and still raises is not modelled, except for the model-run rows.
- Row locks and isolation levels below the transaction: a step reads and writes one consistent database.
- Timestamps, audit payload contents and error wording: only event kind, actor, entity and count are kept.
- The surrogate ids of lifecycle rows: a model has at most one row, so the model id identifies it.
- Experiments: training, metrics, explanations and the plan snapshot are arbitrary inputs; only names, run ids, row writes and the recommended pair are kept.
- CandidateRegistry: its operations run one at a time; overlapping registrations of one run are covered by `RunOutcomes`. Its external versions are not joined to `Pipeline`, where the version of a registered model is any number.
- Split.OnePassPartitions: stratified and random splits are library functions assumed to partition their scope, and the seeded generator is any function that permutes its input.
- FoldSizes.DefaultSizesSatisfyTheTrainer: sizes are exact reals, so floating-point rounding before the ceiling is not modelled.
- Drift.NumericPsiMeaning: the outer edges are arbitrary points strictly outside the baseline range instead of adjacent floats, and of the logarithm only its sign around one is used.
- Grounding.MatchIsLongestNumber: ASCII digits and letters only.
- ArtifactCache.Cache.LoadDeployed: artifacts and rows are immutable during the history.
- Names and actors: whitespace trimming covers space, tab, newline and carriage return.
- `route_intent`, feedback, profiling, schema inference, leakage heuristics, replay and severity grading: keyword tables and thresholds that would only add easy members.
- Retraining deployments and maintenance actions: approvals of those actions exist in the gate, but no executor for them is modelled.
