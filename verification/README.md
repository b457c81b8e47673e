# A verified model of the video workflow backend

The backend turns a workflow definition into a run of AI calls, stored assets and rendered
videos, and publishes the result. This project models its three stateful parts in Dafny and
proves what they promise:

* **The workflow interpreter and its small languages** (`apps/api/workflow`): templates with
  `{{references}}`, conditions, prompt composition, the static validator, and
  `WorkflowRuntime.run`, which loops, branches, falls through, fails and keeps books.
* **The publication protocol** (`apps/api/publishing`, `apps/worker/tasks.py`): synchronous
  publishers, Celery workers, enqueuers and completion coordinators that race on one table and
  synchronise only through a conditional update and a unique key.
* **The OAuth connection protocol** (`apps/api/publishing/connection_service.py`): single-use
  states, credentials, and callbacks that connect one connection and disconnect the others.
  It is the client side of the authorization code grant, section 4.1 of RFC 6749, with the
  `state` parameter of section 10.12.

`dafny verify dfyconfig.toml` checks everything.

## How it is built

The *host platform* is a parameter (`Values.Host`): the character classes of the regular
expressions, `str()`, `UUID()`, the table of AI providers and the texts with which a library
rejects a value, with the few laws that the proofs need. *External services* are oracles that
return a value or fail (`Workflows.Services`, the `Choice` of the two protocols), so every
theorem holds for all their answers. Identifiers that the code draws with `uuid4` are fresh
numbers.

**Text.** `References` states the reference pattern twice: as a scanner and as a relation that
says which strings match with which groups. `Conditions` does the same for conditions. The
resolver of `Contexts` is proved against a splice over the unique reading of a text.

**Interpreter.** `Interpreter` is the meaning of `run` as a recursive function over (step
index, machine); the machine holds a log of every durable write, external generation and
context update, in order. `Runtime` is `run` as it is written, a class whose methods update
fields in loops, and `RunWorkflow` proves that it makes exactly the steps of the interpreter.
The properties of runs are then lemmas about the interpreter, and hold at every prefix of the
log where they speak of intermediate points. `Validator` is the imperative validator, proved
to report a list that is empty exactly for the well-formed workflows.

What a run answers is stated a second time, without the functions that compute it: `Branches`
says which step follows which, `Namespaces` which dictionary a reference reads, `Products` what
a finished operation stored and published, `Faults` which fault stops an unfinished one,
`Statuses` the exact sequence of statuses, history entries and error rows of a run, and
`Reports` what every reported validation error stands for.

**Protocols.** A process is a program counter: the call it makes next, and how it goes on with
the reply. A run is a sequence of events: requests arrive, messages are delivered, duplicated
and lost, processes make one atomic call, processes vanish. `PublishingSafety` holds even when
any repository call raises before or after its effect; `PublishingClaims` adds what holds when
repository calls return, `PublishingAnswers` ties rows to what the provider did, and
`PublishingFallback` says when a row ends with the worker's generic error. `PublishingRequests`
says which assets reach a provider or get a row, and for which instant a schedule stands;
`PublishingReplies` and `OAuthAnswers` say what each request is answered, in terms of the rows
that it finds. `OAuthSafety` holds for every overlap of the connection operations,
`OAuthSurvival` says what becomes of a connection over a whole run, and `OAuthSequential` what
holds without overlap. `PublishingServices` and `OAuthServices` are the services as they are
written. Between any two of their calls the other processes take any steps they can, and each
method is proved to follow its program counter to its return, so each run of the code is a run
of the protocol and inherits its theorems.

## Where the obvious claim is false

* A branch back to an earlier step is accepted by the validator and can run forever
  (`WorkflowExamples.BackwardNeverEnds`); without a cycle in the static graph every run ends
  (`Paths.AcyclicTerminates`), and one that starts among steps which no edge leaves never
  completes (`Paths.TrappedNeverCompletes`).
* Composing prompts can query an identifier that the validator never checked: a step without a
  prompt uses its name as template (`WorkflowExamples.NameIsNotValidated`), and a prompt that is
  a dictionary is printed with its keys (`WorkflowExamples.KeyIsNotValidated`).
  `Validator.ComposedQueriesChecked` says exactly when every queried identifier was checked.
* A failing condition overwrites a COMPLETED job with FAILED although `success_count` already
  counted it (apps/api/workflow/runtime.py:562-564); `Accounting.OvercountIff` says that only a
  condition or its branch target does, and that it always does.
* A failing run does not always return. Its handler builds an error row of at most 1000
  characters (apps/api/domain/schemas.py:178) and then a history entry whose column holds 500
  (apps/api/domain/models.py:238). A longer text raises out of `run`: in the first case with the
  execution still RUNNING, in the second with it FAILED, in both without metrics
  (`WorkflowExamples.LongErrorEscapes`). `Accounting.FailureReturnsIff` says that a failing run
  returns with its books closed exactly when the history entry fits.
* `resolve` does not always distribute over concatenation: it does, for every context and every
  following text, exactly when no attempt at a reference runs off the end of the left part
  (`Contexts.ResolveConcatIff`).
* `PUBLISHING_QUEUE_ERROR` does not mean that the row is FAILED
  (`PublishingExample.QueueErrorButPublished`); it does exactly when no worker has claimed the
  publication (`PublishingClaims.QueueErrorIff`).
* The generic worker error is written even when the repository works: a FAILED row carries it
  exactly when the provider was called and its answer does not fit the columns
  (`PublishingFallback.GenericErrorIff`).
* Two concurrent callbacks can disconnect each other
  (`OAuthExample.CallbacksCanDisconnectEachOther`), so "at most one" connection is CONNECTED
  cannot be strengthened to "exactly one". Once everything has returned, a connection that a
  callback made CONNECTED still is exactly when no other callback listed it and no disconnect
  ended it (`OAuthSurvival.LinkedSurvivesIff`).
* A disconnect that overlaps the callback can leave a DISCONNECTED connection with its
  credential, or a CONNECTED one without (`OAuthExample.DisconnectCanLeaveCredential`,
  `OAuthExample.DisconnectCanTakeCredentialOnly`). `OAuthSurvival.CredentialMatchesIff` says
  exactly when the two agree; they do when no disconnect deletes a credential before its
  connection was CONNECTED (`OAuthSurvival.CredentialIffConnectedUnlessEarly`).
* Lower-casing can make a provider longer than the limit that it was checked against
  (apps/api/publishing/automatic.py:34-41). The trigger then fails, so no automatic row ever
  holds such a provider (`AutomaticPublishing.AutomaticRowsFit`).

## Model

| member | source | states |
|---|---|---|
| References.ScanIsRegex | apps/api/workflow/context.py:76-78 | The scanner is the reference pattern: a prefix of any text matches with given groups exactly when the scanner reports that length and those groups, the identifier as short as it can be |
| References.ReadingUnique | apps/api/workflow/context.py:144 | Every text has exactly one leftmost, non-overlapping reading as literals and references |
| References.TokensFlatten | apps/api/workflow/context.py:144 | The reading loses no character |
| References.PrintParse | apps/api/workflow/context.py:76-78 | A printed reference parses back to its identifier and suffix exactly unless it has no suffix and its identifier itself ends in a reserved one after a non-empty prefix |
| References.TokensConcatIff | apps/api/workflow/context.py:144 | The reading of a concatenation is the concatenated readings, whatever is appended, exactly when no attempt at a reference runs off the end of the left part |
| References.RefsPrefix | apps/api/workflow/validator.py:62-63 | Appending text never removes or changes the references already found |
| References.RefsStripped | apps/api/services/prompt_builder.py:42-45 | Every reference found after strip() is found without it |
| Contexts.WorkflowContext.SetStepOutput | apps/api/workflow/context.py:18-20 | Updates the output under one key in place and nothing else |
| Contexts.WorkflowContext.SetVariable | apps/api/workflow/context.py:58-60 | Updates one variable in place and nothing else |
| Contexts.ResolveIsSplice | apps/api/workflow/context.py:125-144 | resolve returns the literals with each value spliced in once and never rescanned, or fails on the first undefined reference |
| Contexts.ResolveSucceeds | apps/api/workflow/context.py:125-144 | resolve succeeds exactly when every reference of the text is defined |
| Contexts.ResolveConcatIff | apps/api/workflow/context.py:125-144 | resolve distributes over concatenation, failures included, in every context and before every text exactly when no attempt at a reference runs off the end of the left part |
| Contexts.AnyAgreesOnReference | apps/api/workflow/context.py:102-120 | On a single reference resolve_to_any returns the value whose string form resolve gives for the stripped text, and fails when it does |
| Contexts.AnyAgreesOnText | apps/api/workflow/context.py:102-123 | On any other text resolve_to_any is resolve |
| Namespaces.SuffixReads | apps/api/workflow/context.py:83-93 | The printed reference with each reserved suffix reads its own dictionary and no other, in both resolvers, and is undefined where that has no value |
| Namespaces.BareNameReads | apps/api/workflow/context.py:95-100 | A bare name reads the variable of that name, and the output where there is no variable |
| Namespaces.PublishedResolves | apps/api/workflow/context.py:18-100 | Get after set: what was published under a key is what its printed reference resolves to, and None takes the old value away |
| Namespaces.OthersResolveAsBefore | apps/api/workflow/context.py:18-100 | References with another suffix or another name resolve as before |
| Namespaces.BareNameKeeps | apps/api/workflow/context.py:95-100 | A bare name only changes with a variable of that name, or an output of that name where there is no variable |
| Conditions.ParseIsRegex | apps/api/workflow/evaluator.py:13-31 | The parser is the condition pattern with its lazy left operand: same texts, same groups |
| Conditions.PrintParse | apps/api/workflow/evaluator.py:13-31 | A printed condition parses back to left, operator and right, even when right contains quotes or operators |
| Conditions.EvaluateSucceeds | apps/api/workflow/evaluator.py:18-42 | A condition evaluates exactly when it is empty, or has the syntax and a left operand whose references are all defined |
| Conditions.EvaluateCompares | apps/api/workflow/evaluator.py:33-42 | The value of a condition: with == whether the resolved left operand is the right one, with != whether it is not |
| Conditions.EvaluateFails | apps/api/workflow/evaluator.py:18-35 | What a condition fails with: its own text when it is none, otherwise the first undefined reference of its left operand |
| Conditions.OperatorsNegate | apps/api/workflow/evaluator.py:13-42 | Printing the same operands with the other operator negates the answer, and fails alike |
| Conditions.QueriedInText | apps/api/workflow/evaluator.py:27-35 | What evaluation queries is among the references of the full condition text |
| Prompts.BuildSucceeds | apps/api/services/prompt_builder.py:34-52 | Prompt composition succeeds exactly when neither template is blank after stripping and every reference of both is defined |
| Prompts.BuildComposes | apps/api/services/prompt_builder.py:34-52 | The user text is composed from the prompt entry or else the fallback, the system text from the system entry, and which of their errors is reported |
| Validator.CheckReferences | apps/api/workflow/validator.py:113-117 | The scanning loop appends one error for each reference to an unknown identifier, in order |
| Validator.CheckValue | apps/api/workflow/validator.py:112-123 | The recursive check descends into dictionaries and lists and appends the errors of every text inside |
| Validator.ValidateConfigVariables | apps/api/workflow/validator.py:109-126 | Appends the errors of all configuration values, in order |
| Validator.CheckCondition | apps/api/workflow/validator.py:54-73 | Appends the syntax, reference and branch target errors of a condition |
| Validator.CheckLoop | apps/api/workflow/validator.py:76-92 | Appends the loop variable and loop source errors |
| Validator.Validate | apps/api/workflow/validator.py:19-107 | The validator accepts exactly the well-formed workflows and otherwise reports the specified list |
| Validator.NoErrorsIffWellFormed | apps/api/workflow/validator.py:28-107 | Nothing is reported exactly when orders increase strictly, every condition, target, loop and configuration reference is clean and all required fields are there |
| Reports.ErrorsAreDefects | apps/api/workflow/validator.py:19-126 | An error is in the report exactly when the workflow has the defect that it names: the position, the step, the target or the unknown identifier |
| Validator.ComposedQueriesChecked | apps/api/services/prompt_builder.py:34-52 | Composing the prompts of any validated configuration queries only checked identifiers, exactly unless a name used as template, or a printed prompt that is not a text, refers to others |
| Validator.PromptQueriesChecked | apps/api/workflow/validator.py:94-126 | Every identifier that a configured text queries was checked |
| Validator.ConditionQueriesChecked | apps/api/workflow/validator.py:61-67 | Every identifier that a condition queries at run time was checked |
| Runtime.WorkflowRuntime.TextGeneration | apps/api/workflow/runtime.py:272-319 | The text operation makes the interpreter's calls, writes and context updates in its order |
| Runtime.WorkflowRuntime.Persist | apps/api/workflow/runtime.py:356-392 | Upload, asset row, artifact row and presigned URL, nothing published before all four succeed; a file name or content type that the asset row rejects leaves the uploaded object behind |
| Runtime.WorkflowRuntime.ImageGeneration | apps/api/workflow/runtime.py:321-407 | The image operation refines the interpreter's, each failure exit included |
| Runtime.WorkflowRuntime.VideoRender | apps/api/workflow/runtime.py:409-480 | The video operation refines the interpreter's, each failure exit included |
| Runtime.WorkflowRuntime.RunIteration | apps/api/workflow/runtime.py:244-494 | One pass of the item loop: bind, open the job, operate, complete the job and count it |
| Runtime.WorkflowRuntime.RunItems | apps/api/workflow/runtime.py:243-494 | The item loop is the interpreter's recursion over the items, or raises over a job name that is too long |
| Runtime.WorkflowRuntime.ExecuteStep | apps/api/workflow/runtime.py:216-543 | The try block of a visit is the interpreter's visit, with the next step it chooses |
| Runtime.WorkflowRuntime.HandleFailure | apps/api/workflow/runtime.py:545-590 | The handler writes the failed step, error, job, execution, history and metrics in that order, or raises at the error row or the history entry that does not take the text |
| Runtime.WorkflowRuntime.RunSteps | apps/api/workflow/runtime.py:211-612 | The step loop makes the visits of the recursive interpreter, and ends as it does: completed, failed, or with an exception out of the handler |
| Runtime.WorkflowRuntime.Guard | apps/api/workflow/runtime.py:157-196 | What a rejected workflow or a missing execution records and returns; an error row that is too long, or has no execution, raises and leaves nothing |
| Runtime.RunWorkflow | apps/api/workflow/runtime.py:142-612 | For every workflow and every behaviour of the services, run records exactly the log of the interpreter and returns its outcome, or raises where the interpreter's handler or the guard does |
| Branches.VisitBranches | apps/api/workflow/runtime.py:511-543 | Where control goes after a completed visit: to the last step with the id of the target for the truth value of the condition, and without condition or target to the step behind |
| Branches.RunsBranch | apps/api/workflow/runtime.py:211-543 | Every two consecutive steps of every run are linked by what the condition says in the context that the first one leaves |
| Products.TextDelivers | apps/api/workflow/runtime.py:272-319 | A completed text operation asked with the composed prompts, results in the content of the answer, and publishes an artifact and an asset exactly when the answer has them |
| Products.ImageDelivers | apps/api/workflow/runtime.py:321-407 | A completed image operation stored the bytes or the fetched link of the answer, with its content type and its rows, and its output names the ids of these rows and the link to the stored object |
| Products.VideoDelivers | apps/api/workflow/runtime.py:409-480 | A completed video operation rendered the asset that its input resolves to; its output names the ids of its own rows, and its metadata the source asset |
| Products.VisitDelivers | apps/api/workflow/runtime.py:387-472 | After a completed image or video visit the references under either name of the step resolve to the URL, the artifact and the asset of the rows that this visit wrote last |
| Products.VisitPublishes | apps/api/workflow/runtime.py:496-499 | A completed visit publishes its result under the name and the id of the step |
| Products.ItemResolves | apps/api/workflow/runtime.py:236-247 | In a pass of the item loop the configured loop variable, or item, resolves to the item as a bare name and as an output; nothing else changes |
| Faults.TextFaults | apps/api/workflow/runtime.py:272-302 | Which fault stops a text step, in the order provider name, prompts, provider, artifact type; without one it completes |
| Faults.ImageFaults | apps/api/workflow/runtime.py:321-361 | Which fault stops an image step before anything is stored |
| Faults.VideoFaults | apps/api/workflow/runtime.py:409-432 | Which fault stops a video step before anything is stored: its input, the download or the rendering |
| Faults.PersistFaults | apps/api/workflow/runtime.py:363-392 | Which fault stops the storing of a product; without one it completes |
| Faults.ItemFaults | apps/api/workflow/runtime.py:228-256 | Which fault stops a step over its loop source or the name of its job |
| Faults.BranchFaults | apps/api/workflow/runtime.py:511-532 | After its items a step fails only over its condition or over a chosen target that no step has |
| Statuses.IterationJob | apps/api/workflow/runtime.py:249-494 | One pass of the item loop writes one job, with the name, configuration and item of the pass, started and then completed with the output exactly when the operation did not raise |
| Statuses.RunsMark | apps/api/workflow/runtime.py:198-612 | The exact sequence of statuses, history entries and error rows of every run, of every ending: nothing is missing, doubled or out of order |
| OperationProperties.OperateKeeps | apps/api/workflow/runtime.py:269-485 | Whatever the elementary writes of the operations keep, every operation keeps at every exit |
| Accounting.VisitBooks | apps/api/workflow/runtime.py:216-543 | A completed visit adds two history entries and one completed, counted job per item; a failing one leaves at most one job open, the last |
| Accounting.RunAccounts | apps/api/workflow/runtime.py:198-612 | A completed run has only COMPLETED jobs, as many as its visits had items, and 2 + 2 * visits history entries; a failed run that returns counts one failure and fails at most its last job; step_count always equals success_count; a run whose handler raises has no metrics |
| Accounting.OvercountIff | apps/api/workflow/runtime.py:545-583 | In every failed run success_count counts the job that ends up FAILED exactly when the fault came from the condition or its branch target; without a job in the last visit all jobs are COMPLETED and counted |
| Accounting.FailureReturnsIff | apps/api/workflow/runtime.py:545-600 | A run that ends in a fault returns with closed books exactly when the fault's text fits the history entry; otherwise it raises without metrics, with an error row exactly when that one fitted, and with execution and job still RUNNING when it did not |
| Paths.TrailIsPath | apps/api/workflow/runtime.py:511-543 | The visited steps are a path of the static graph of true, false and fall-through edges |
| Paths.AcyclicTerminates | apps/api/workflow/runtime.py:206-211 | Without a cycle in the static graph every run ends, visits each step at most once along a path of the graph, and does not depend on the allowance of visits |
| Paths.ForwardTerminates | apps/api/workflow/runtime.py:206-211 | With forward targets it visits the steps in strictly increasing order |
| Paths.CompletionNeedsExit | apps/api/workflow/runtime.py:511-543 | A completed run has visited a path of the static graph from the first step to the last of the list, from which it fell through |
| Paths.TrappedNeverCompletes | apps/api/workflow/runtime.py:211-543 | A workflow that starts among steps which no edge and no end of the list leaves never completes, whatever the services answer |
| WorkflowExamples.BackwardNeverEnds | apps/api/workflow/validator.py:69-73 | A validated workflow with a backward branch that no number of visits ends although every call returns |
| WorkflowExamples.NameIsNotValidated | apps/api/workflow/runtime.py:275-279 | A validated step whose name makes its prompt query an identifier that the validator never saw |
| WorkflowExamples.KeyIsNotValidated | apps/api/workflow/validator.py:119-121 | A validated step whose dictionary prompt queries an identifier that stands in a key |
| WorkflowExamples.LongErrorEscapes | apps/api/workflow/runtime.py:552-578 | A validated workflow and a service exception, by the length of its text: up to 485 characters run returns, beyond that it raises, and past 1000 it leaves execution and job RUNNING without an error row |
| WorkflowExamples.ReadyExample | apps/api/workflow/validator.py:19-107 | The hypotheses of the progress theorem can be met by a workflow whose second prompt uses the first step's output |
| Progress.OperateProgress | apps/api/workflow/runtime.py:269-485 | An operation whose references are stocked fails only in an external call, and afterwards offers what its kind promises |
| Progress.NextProgress | apps/api/workflow/runtime.py:511-543 | After a ready step the condition parses and resolves and its target exists |
| Progress.ReadyRunsProgress | apps/api/workflow/runtime.py:211-612 | A validated workflow without loops or cycles, whose references are offered on every path to their use and whose names fit, completes, or fails in an external call; never in resolution, condition syntax or target lookup |
| Records.ArtifactReachesObject | apps/api/workflow/runtime.py:363-385 | In a grounded log each image or video artifact has its asset row, and that row a stored object of exactly its size |
| Records.RunsAreGrounded | apps/api/workflow/runtime.py:321-480 | Every prefix of every run's log is grounded: artifacts, assets and published references point at records made before |
| Aliases.RunsAlign | apps/api/workflow/context.py:18-60 | With unique names apart from ids, artifact, asset, image and video agree under a step's name and id after every visit, and outputs too when no loop variable equals an identifier |
| Aliases.OutputsPersist | apps/api/workflow/runtime.py:496-499 | A completed step's output stays until the step runs again |
| Loops.IterationsFold | apps/api/workflow/runtime.py:243-494 | A successful item loop threads the machine through the items in order, one result per item |
| Loops.LoopIsFold | apps/api/workflow/runtime.py:228-246 | The output of a loop step has the length of its source list and element i is the operation's result on item i |
| Loops.TextLoopIsMap | apps/api/workflow/runtime.py:243-319 | A text loop that publishes no artifact or asset is a map: result i answers the prompt composed in the visit's own context with the loop variable bound to item i |
| PublishingErrors.FailureFitsIsLength | apps/api/publishing/schemas.py:25-36 | Only a provider's own error texts can be too long for the columns |
| Publications.PublicationRepository.TransitionStatus | apps/api/publishing/repository.py:86-108 | The conditional update: it changes the row, and returns it, exactly when the status matches |
| Publications.PublicationRepository.GetAutomatic | apps/api/publishing/repository.py:41-55 | Finds the row with the key, if there is one |
| Publications.PublicationRepository.CreateAutomatic | apps/api/publishing/repository.py:57-84 | Inserts once: created exactly when the key was free, and the returned row holds the key either way |
| Publications.InsertKeepsUnique | apps/api/publishing/repository.py:57-84 | Inserting keeps keys unique, and the key is found afterwards |
| PublishingSafety.UpdateOk | apps/api/publishing/repository.py:95-104 | A legal transition keeps the columns that go with the status and only moves the row up |
| PublishingSafety.TransitionOk | apps/api/publishing/repository.py:86-108 | A legal conditional update keeps the store in order and takes nothing from other processes |
| PublishingSafety.OthersOk | apps/api/publishing/service.py:63-242 | What a process relies on survives every step of every other process |
| PublishingSafety.EventOk | apps/worker/celery_app.py:23-25 | Every event, crashes, lost and repeated messages and raising repository calls included, keeps the state in order |
| PublishingSafety.AtMostOnce | apps/api/publishing/service.py:94-167 | No publication is handed to a provider twice or dispatched twice; one is handed over only after it was claimed, and PUBLISHED only after it was handed over |
| PublishingSafety.OncePerKey | apps/api/publishing/automatic.py:96-152 | Per (execution, provider, asset) at most one row, hence at most one task and one provider call |
| PublishingSafety.Coherent | apps/api/publishing/queue.py:86-141 | In every reachable state each row's columns fit its status, and each message in the broker is for a row past PENDING with that task id and schedule |
| PublishingSafety.RowsOnlyRise | apps/api/publishing/repository.py:86-108 | A row keeps its identity, only moves up, and never changes once PUBLISHED or FAILED |
| PublishingRequests.LoadedIsVetted | apps/api/publishing/service.py:159-162 | Whoever claimed a publication calls the provider exactly with an asset under video/ that has a key and a size, under a known provider; otherwise the first thing wrong is recorded |
| PublishingRequests.OnlyVideosReachProviders | apps/api/publishing/service.py:254-262 | In every run, every asset that a provider was given was a stored, non-empty video as it was read |
| PublishingRequests.CoordinatorVets | apps/api/publishing/service.py:44-54 | A coordinator goes on to insert its row exactly with such an asset, and otherwise reports the first thing wrong |
| PublishingRequests.AutomaticRowsVetted | apps/api/publishing/service.py:44-54 | In every run, an automatic row exists only for an asset that a coordinator found to be such a video under a known provider |
| PublishingRequests.SchedulesAreInstants | apps/api/publishing/queue.py:143-160 | A schedule is refused exactly without a zone or when it is not later than now; otherwise it is queued for the instant that with its offset is its wall time |
| PublishingRequests.SameInstantSameRequest | apps/api/publishing/queue.py:153 | Two spellings of one instant are the same request |
| PublishingRequests.QueuedAsRequested | apps/api/publishing/queue.py:74-98 | In every run, a queued row carries the instant and the time of the one request that queued it, and the instant lies ahead of it |
| PublishingAnswers.RowsTellTheTruth | apps/api/publishing/service.py:159-242 | A PUBLISHED row carries the id and URL of the response to its one provider call, which was given the row's own asset and title; a provider's error is recorded only if the provider raised it; a row that failed over its asset, provider name or the queue was never handed over |
| PublishingClaims.OneClaimant | apps/api/publishing/service.py:94-242 | With working repository calls a PUBLISHING row has exactly one claimant; only it works on the publication and only it moves the row on |
| PublishingClaims.WorkerProblems | apps/api/publishing/service.py:97-135 | A worker never meets a missing or pending publication, never fails to claim an unsettled one, and never loses one it claimed; each of its application errors is what the row says |
| PublishingClaims.GenericErrorIsOwn | apps/worker/tasks.py:126-160 | The generic worker error is only written by the claimant to its own PUBLISHING row and replaces no other error |
| PublishingFallback.GenericErrorIff | apps/api/publishing/service.py:159-242 | A FAILED row carries the generic worker error exactly when the provider was called and its answer does not fit the columns; such a publication is never PUBLISHED |
| PublishingFallback.ReportedGenericIff | apps/worker/tasks.py:126-160 | A worker that has reported back reported the generic error, and left it on its row, exactly when its provider's answer did not fit |
| PublishingClaims.QueueErrorIff | apps/api/publishing/queue.py:102-138 | After a reported queue error, to an enqueuer or a coordinator, the row is FAILED with that error exactly when no worker has claimed the publication |
| PublishingExample.QueueErrorButPublished | apps/api/publishing/queue.py:102-120 | A run in which enqueue reports a queue error and the row is PUBLISHED |
| PublishingWorld.World.TransitionStatus | apps/api/publishing/repository.py:86-108 | One atomic call among the steps of others, which may raise before or after its effect |
| PublishingServices.PublishingService.Publish | apps/api/publishing/service.py:63-92 | The synchronous publisher follows its program counter to its return under any interference |
| PublishingServices.PublishingService.PublishQueued | apps/api/publishing/service.py:94-136 | The worker's claim follows its program counter, the second read after a lost claim included |
| PublishingServices.PublishingService.PublishClaimed | apps/api/publishing/service.py:159-242 | Every exit of the work on a claimed publication, each handler's write before its exception |
| PublishingServices.PublishingService.FailQueuedOrPublishing | apps/api/publishing/service.py:138-157 | Two conditional updates, the second only when the first misses |
| PublishingServices.RunPublication | apps/worker/tasks.py:126-160 | The worker boundary with both handlers and their fallback writes |
| PublishingReplies.WorkerReads | apps/api/publishing/service.py:97-115 | A worker takes a QUEUED publication, returns one that somebody took or settled, and fails on any other |
| PublishingReplies.Claims | apps/api/publishing/service.py:80-136 | The claim takes the row exactly from PENDING for a publisher and from QUEUED for a worker; who misses goes on as the code does |
| PublishingReplies.ProviderIsAnswered | apps/api/publishing/service.py:163-239 | What the provider did decides what is recorded: each exception its error, a response without id or URL the invalid response, a full one its success if it fits |
| PublishingReplies.Completes | apps/api/publishing/service.py:227-242 | Success is recorded with the id and URL of the response exactly when the row is still PUBLISHING, and that row is returned |
| PublishingReplies.Fails | apps/api/publishing/service.py:168-225 | The refusal is recorded exactly when the row is still PUBLISHING, and raised either way |
| PublishingReplies.BoundaryWrites | apps/worker/tasks.py:126-160 | The generic error is written to a QUEUED row, else to a PUBLISHING one, and the exception is reported either way |
| PublishingServices.PublishingQueueService.Enqueue | apps/api/publishing/queue.py:68-141 | Schedule check, read, transition, send, and the failure write when send raises or returns another id |
| PublishingReplies.Queues | apps/api/publishing/queue.py:86-100 | The transition takes the row exactly from PENDING, with the schedule and time of the request and a new task id |
| PublishingReplies.Sends | apps/api/publishing/queue.py:102-141 | The message names publication, task id and schedule; the send counts exactly when it answers with that task id |
| PublishingReplies.Unqueues | apps/api/publishing/queue.py:110-140 | After a failed send the row fails with the queue error exactly when it is still QUEUED, and the error is raised either way |
| PublishingServices.AutomaticPublishingCoordinator.HandleEnabled | apps/api/publishing/automatic.py:96-152 | The trigger with its failure boundary, the row as it is after a queueing error included |
| PublishingServices.AutomaticPublishingCoordinator.CreateAutomatic | apps/api/publishing/service.py:44-54 | Asset and provider check, then insert once or find the row in the way |
| PublishingReplies.CoordinatorInserts | apps/api/publishing/repository.py:57-84 | A PENDING row under the execution, provider and asset is added exactly when the table has none |
| PublishingReplies.CoordinatorReviews | apps/api/publishing/automatic.py:133-142 | After a queueing error the row is reported as it is then, unless it is gone or still PENDING |
| AutomaticPublishing.FinalVideoIsGreatest | apps/api/publishing/automatic.py:108-118 | On a list sorted by (created_at, id) the chosen artifact is the greatest video artifact with an asset |
| AutomaticPublishing.ListingPicksGreatest | apps/api/publishing/automatic.py:107-129 | A coordinator goes on with the asset of the greatest video artifact of its listing, or fails when provider or title does not fit the creation contract |
| AutomaticPublishing.AutomaticRowsFit | apps/api/publishing/schemas.py:12-22 | Whatever the triggers were started with, in every reachable state the provider and title of an automatic row fit their columns |
| AutomaticPublishing.HandleCompletion | apps/api/publishing/automatic.py:75-94 | A rejected or disabled configuration touches nothing; an enabled one runs the trigger with the normalized provider and the title |
| AutomaticPublishing.ValidateRejects | apps/api/publishing/automatic.py:28-47 | Which configurations are rejected, and that any other is kept but for its provider, which is stripped and lower-cased |
| Connections.ConnectionRepositories.Consume | apps/api/publishing/connection_repository.py:98-112 | The four answers, and the one case in which the state is used up |
| Connections.ConnectionRepositories.ListActive | apps/api/publishing/connection_repository.py:59-66 | The scan returns the specified list of CONNECTED connections |
| Connections.ActiveMembers | apps/api/publishing/connection_repository.py:59-66 | The list holds exactly the CONNECTED connections |
| Connections.ActiveSorted | apps/api/publishing/connection_repository.py:59-66 | The list is ordered by connection time |
| OAuthAnswers.UnknownStateIsInvalid | apps/api/publishing/connection_repository.py:98-112 | A state that nobody issued is refused as invalid and changes nothing |
| OAuthAnswers.IssuedStateIsAnswered | apps/api/publishing/connection_service.py:79-116 | In every reachable state an issued state is refused as used when it was consumed, as expired when its time has come, and is otherwise consumed now and leads to the exchange of its connection |
| OAuthAnswers.RejectionIsRecorded | apps/api/publishing/connection_service.py:92-148 | A rejection marks its connection FAILED with the error that the callback raises |
| OAuthAnswers.StatesExpireAsAsked | apps/api/publishing/connection_service.py:55-77 | In every run every issued state expires at the time of some authorization plus its lifetime |
| OAuthAnswers.NothingGoesMissing | apps/api/publishing/connection_service.py:150-198 | In every reachable state only the first read of a disconnect can find its connection missing |
| OAuthSafety.ConsumeOk | apps/api/publishing/connection_repository.py:98-112 | Consuming keeps the store in order and gives the connection to one callback that has exchanged and stored nothing yet |
| OAuthSafety.EventOk | apps/api/publishing/connection_service.py:55-230 | Every event keeps the state in order, including the cover of every two CONNECTED connections |
| OAuthSafety.ConnectedPairsCovered | apps/api/publishing/connection_service.py:150-230 | Any two CONNECTED connections are covered by an unfinished callback of one of them that has not listed yet or still has the other to disconnect |
| OAuthSafety.AtMostOneConnected | apps/api/publishing/connection_service.py:219-230 | With no operation in flight at most one connection is CONNECTED |
| OAuthSafety.StatesAreSingleUse | apps/api/publishing/connection_repository.py:98-112 | A state is consumed at most once and before it expires; a connection has at most one state and one code exchange |
| OAuthSafety.CredentialNeverConflicts | apps/api/publishing/connection_service.py:150-155 | The unique credential insert never conflicts |
| OAuthRecords.ConnectionsTellTheTruth | apps/api/publishing/connection_service.py:103-166 | A CONNECTED connection has the scopes that its one code exchange granted and no error, a credential is that exchange's ciphertext, and an error is the one the exchange raised or a missing code |
| OAuthSequential.CredentialIffConnected | apps/api/publishing/connection_service.py:150-198 | With operations run one at a time a credential exists exactly for a CONNECTED connection |
| OAuthSequential.CallbackLeavesOne | apps/api/publishing/connection_service.py:171-172 | A successful callback run alone leaves its connection as the only CONNECTED one |
| OAuthExample.CallbacksCanDisconnectEachOther | apps/api/publishing/connection_service.py:219-230 | A run in which two successful callbacks leave no connection CONNECTED |
| OAuthExample.DisconnectCanLeaveCredential | apps/api/publishing/connection_service.py:182-198 | A run in which a callback and a disconnect both succeed and the DISCONNECTED connection keeps its credential |
| OAuthExample.DisconnectCanTakeCredentialOnly | apps/api/publishing/connection_service.py:150-166 | A run in which both succeed and the connection is CONNECTED without a credential |
| OAuthSurvival.LostOnlyToLister | apps/api/publishing/connection_service.py:182-230 | In every run a CONNECTED connection is only lost to a disconnect of it, or to the callback of another connection that listed the active ones while it was among them |
| OAuthSurvival.LinkedSurvivesIff | apps/api/publishing/connection_service.py:157-230 | Once every operation has returned, a connection that a callback made CONNECTED still is exactly when no other callback listed it and no disconnect of it ended while it was CONNECTED |
| OAuthSurvival.CredentialSurvivesIff | apps/api/publishing/connection_service.py:150-230 | It still has its credential exactly when no other callback listed it and no disconnect of it deleted one |
| OAuthSurvival.CredentialMatchesIff | apps/api/publishing/connection_service.py:150-230 | Once every operation has returned, credential and CONNECTED status agree exactly when another callback listed the connection, or a disconnect met its status CONNECTED if and only if one met its credential |
| OAuthSurvival.CredentialIffConnectedUnlessEarly | apps/api/publishing/connection_service.py:182-198 | However operations overlap, a credential exists exactly for a CONNECTED connection unless a disconnect deletes it before the connection was CONNECTED |
| OAuthServices.YouTubeConnectionService.Authorize | apps/api/publishing/connection_service.py:55-77 | Follows its program counter; without configuration nothing is created |
| OAuthServices.YouTubeConnectionService.Callback | apps/api/publishing/connection_service.py:79-172 | Every exit of the callback, lost configuration past the handlers included |
| OAuthServices.YouTubeConnectionService.DisconnectPreviousConnections | apps/api/publishing/connection_service.py:219-230 | The loop over the active connections works off the listed others in order |
| OAuthServices.YouTubeConnectionService.Disconnect | apps/api/publishing/connection_service.py:182-198 | Leaves a DISCONNECTED connection alone, otherwise deletes the credential before the update |

## Left out

- HTTP routers, dependency wiring, logging, settings, health checks, the web frontend, migrations, the validation runner and the generic CRUD services: plumbing with no hard invariant.
- The inside of Google, OpenAI, S3, FFmpeg and httpx: oracles that return a value or fail. An invalid duration, frame rate or size of a video step counts as a failure of the renderer.
- Fernet and SHA-256: a ciphertext is a number, and a digest stands for its token because digests do not collide.
- The SQLAlchemy session: rows are read as snapshots and written atomically; identity-map staleness and the `from_status` of history entries, which may be read after the update, are not modelled.
- Repository failures inside `WorkflowRuntime.run`, texts that do not fit apart: the runtime's repositories work, its external services may fail anywhere. The workflow task around `run`, which tries to set the execution alone to FAILED when `run` raises.
- `str()`, `\w` and `\s`: parameters with laws, not tables. What `str()` makes of a dictionary is a hypothesis of the one example that needs it.
- The condition pattern's `$` before a trailing newline: it cannot arise after `strip()`.
- Provider keyword arguments, provider metadata, descriptions, and the `duration_ms` value: recorded or passed on, never inspected.
- Length limits: modelled are those that a run can exceed by what it computes (job name, artifact type, asset file name and content type, error row, history entry), those of the publication update, and those of the provider and title of an automatic publication. The columns of a stored workflow are taken to hold their values.
- The foreign key of an artifact that names an asset of a text answer: that asset is taken to exist.
- The list of errors as the validation error row prints it: any text, a parameter of the runtime.
- Runtime.WorkflowRuntime.RunSteps: takes an allowance of visits, because a backward branch may never end; `Paths.AcyclicTerminates` shows that it is irrelevant for workflows without cycles. The locals of `run` that the handler reads are fields of the class.
- Manual creation of a publication: one step that may add any pending row without execution; its asset check is that of the coordinator.
- The provider names that a resolver knows, asset rows, execution status and artifact lists as the publication processes see them: chosen freshly at every read, since other code changes them.
- Clock values: any numbers, except that a schedule is compared with the time read just before it.
- Exceptions of repository calls in the connection service: they end the operation where it stands, as a crash does, because no handler catches them.
- Liveness: a crashed claimant leaves its row PUBLISHING, and a crash before dispatch leaves it QUEUED.
