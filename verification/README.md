# Verified model of the agent, task and retrieval core

A Dafny model of six parts of the repository that run state machines, keep protocols or
claim that a fast form agrees with a plain definition, with proofs of what they promise.

* **Managed agent runs** (`pkg/agents`). `AgentState` is the checkpoint and its codec,
  `AgentActions` the conversion of actions and steps, `PlainRun` the in-memory ReAct loop.
  `ManagedRun` is the persisted run as a state machine: one store, any number of executors
  stepping between awaits, interrupt requests, lease loss and crashes in any order, and a trace
  of every handler call. `ManagedInvariant`, `ManagedSafety`, `ManagedTheorems` and
  `ManagedTrace` prove its promises over every run; `ResumeRefinement` proves that pausing,
  crashing and resuming do not change what a run computes; `ReactDrive` is the managed loop as
  written and proves that it takes no step the machine does not have.
* **Celery task records** (`internal/dao`, `internal/services`, `internal/tasks`).
  `CeleryRecord` is one row and its compare-and-set statements, `CeleryTasks` the data access
  object, the service and the worker as programs over a mutable table that others change
  between any two transactions, `CeleryProtocol` the whole system of submitters, deliveries,
  workers, cancel requests, reconcilers and the orphan resolver.
* **Thread capacity** (`pkg/concurrency`). `ThreadCapacity` is the race between a worker thread
  and a cancelled waiter over who returns a borrowed token.
* **Context assembly and post-retrieval** (`pkg/vectors`, `internal/services/rag.py`).
  `ContextWindows` orders and groups chunks, `ContextAssembly` fits them into character budgets,
  `PostRetrieval` deduplicates, collapses and selects evidence. `StableSort` is Python's `sorted`.
* **Pinyin matching** (`pkg/chars_matcher`). `PinyinTrie` is the heap-allocated prefix index,
  `PinyinVariants` the fuzzy spellings, `PinyinKeys` the matched keys, `LruCache` the bounded
  cache, `PinyinMatcher` the ranked answer and the matcher object with its caches.
* **Invoice confirmation** (`internal/services/order.py`). `InvoiceConfirm` is the idempotent
  commit under a lock per token, with failure or death possible at every await.

A run is a sequence of labels applied to a state; a label that is not enabled changes nothing,
so theorems about all label sequences are theorems about all interleavings. Clocks, model
answers, handler outcomes, broker answers and what other processes do during an await are
parameters. Every statement of the Celery part reads the clock for itself, and no relation
between two readings is assumed.

Where the code and its documentation differ, the model follows the code.

* `decode_checkpoint` raises a `TypeError`, although only `CheckpointError`s are documented, for
  exactly those payloads of acceptable size, syntax and version in which the first malformed
  step has an action whose type is a list or an object, or in which all steps are well formed
  and the pending action is of that kind (`AgentState.UnhashableTypeEscapes`; one payload of each
  kind in `AgentState.UnhashablePayloads`).
* `encode_checkpoint` accepts checkpoints that `decode_checkpoint` rejects
  (`AgentState.EncodableButNotDecodable`).
* A document can be marked as truncated although nothing was cut
  (`ContextAssembly.TruncatedWithoutLoss`; the smallest case in `ContextAssembly.HeaderFillsBudget`).
* A confirmed invoice request whose trace identifier is empty cannot be read back by a retry
  (`InvoiceConfirm.StoredReadsBack`; a concrete request in `InvoiceConfirm.EmptyTraceLosesResult`).
  Requests that arrive over HTTP always carry one, 32 hexadecimal digits set by
  `internal/middlewares/recorder.py:53-68`; an empty one can come only from a caller that sets
  the request context itself.

Assumptions that are not visible in the signatures: the store of a managed run keeps the
contract of `AgentRunRuntime` (optimistic revision check, one atomic commit at a time), a run
starts from its initial checkpoint and later attempts go through `assess_resume`; taking a run
over hands out its stored snapshot in the same step; all attempts of a run use the same tools
and step bound; worker tokens and record, confirmation and task identifiers are never drawn
twice; a database statement or a handler of the event loop that raises had no effect; invoice
locks exclude and stored entries do not expire.

## Model

| member | source | states |
|---|---|---|
| AgentState.ValidateCheckpoint | pkg/agents/state.py:296-369 | the checks, in the source's order, accept exactly the valid checkpoints: contiguous steps, a step bound, a phase that fits the fields |
| AgentState.DecodeStepsLoop | pkg/agents/state.py:372-420 | the list-building loop returns all steps, or the error of the first malformed one |
| AgentState.EncodeDecodeRoundTrip | pkg/agents/state.py:197-293 | an encoded checkpoint decodes to itself if and only if it passes the checks decoding adds, and is rejected otherwise |
| AgentState.DecodedIsStable | pkg/agents/state.py:228-293 | whatever decoding accepts, from text or from a parsed value, is valid and decodes to itself when encoded again |
| AgentState.EncodableButNotDecodable | pkg/agents/state.py:197-225 | encoding checks less than decoding: some checkpoint is stored that cannot be read back |
| AgentState.UnhashableTypeEscapes | pkg/agents/state.py:228-454 | decoding fails outside its own error classes if and only if size, syntax and version pass, and the first malformed step has an action whose type is a list or an object, or all steps are well formed and the pending action is of that kind |
| AgentState.StableIdInjective | pkg/agents/state.py:184-194 | within a run, call identifiers are equal exactly for equal step indices |
| AgentActions.ActionSurvivesStorage | pkg/agents/react.py:317-376 | a serialised action reads back as itself if and only if it names its tool |
| AgentActions.StoredActionSurvivesReading | pkg/agents/react.py:317-376 | a stored action that parses is written back unchanged if and only if it is in the serialiser's own form |
| AgentActions.RecordSurvivesStorage | pkg/agents/react.py:389-418 | a step record converted to a checkpoint step converts back to itself if and only if its action names its tool |
| AgentActions.StoredStepSurvivesReading | pkg/agents/react.py:389-418 | a checkpoint step that converts to a record converts back to itself if and only if its action is in the serialiser's form |
| AgentActions.WrittenCheckpointRoundTrip | pkg/agents/state.py:197-293 | every encodable checkpoint whose steps and pending action the serialisers built is decoded unchanged |
| PlainRun.RunInMemory | pkg/agents/react.py:661-916 | the loop without a runtime computes the recursive meaning of the run, emits one event a step and never exceeds the step bound |
| ManagedTheorems.GuardedToolCalledAtMostOnce | pkg/agents/react.py:593-659 | over every interleaving of executors, crashes and lease takeovers, the handler of a non-replayable tool is called at most once for each step index |
| ManagedTheorems.CallsOfAStepAgree | pkg/agents/react.py:764-830 | all handler calls for one step, in all attempts, have the same tool, arguments and stable identifier, and the identifier tells steps apart |
| ManagedTheorems.HandlersGetTheirArguments | pkg/agents/react.py:1032-1064 | every handler call gets the arguments of its persisted action, and an idempotent tool gets the call identifier too |
| ManagedTheorems.StoredCheckpointsValid | pkg/agents/state.py:228-369 | every stored checkpoint of every run is valid and within the step bound, its payload decodes to it again as a value and as text within the size limit, and a waiting final answer still has its step to spend |
| ManagedTheorems.BeforeToolValidIffNamed | pkg/agents/react.py:764-785 | the checkpoint that persists a tool action is valid if and only if the action names its tool |
| ManagedTheorems.CommittedStepsOnlyGrow | pkg/agents/react.py:823-860 | what a run has committed is a prefix of what it has committed at any later time |
| ManagedTheorems.TerminalIsFinal | pkg/agents/runtime.py:157-179 | a terminal run never changes its snapshot, status or result again |
| ManagedTheorems.AttemptIsBounded | pkg/agents/react.py:709-916 | an attempt that takes the run over when k steps are committed makes at most max_steps - k handler calls and 3 * (max_steps - k) + 1 commits in all of its life |
| ManagedTrace.CommittedStepsWereCalled | pkg/agents/react.py:794-860 | every committed step whose tool is not refused was called, with the committed action under the step's identifier |
| ManagedSafety.ReachableInv | pkg/agents/runtime.py:113-179 | the protocol invariant holds in every reachable state: executors hold old snapshots or the stored one, and a settled step keeps its action |
| ResumeRefinement.ResumedRunRefinesPlainRun | pkg/agents/react.py:661-959 | with a deterministic action maker and tools, a managed run that ends has the steps, answer and status of the uninterrupted in-memory run, however often it was paused, crashed, taken over and resumed |
| ReactDrive.Drive | pkg/agents/react.py:661-916 | the loop as written stays within the state machine whatever others do at its awaits, emits one event for each step it adds, reports completion only of the result the store holds and a pause only with the stored snapshot |
| ReactDrive.ResumeFinal | pkg/agents/react.py:689-706 | a stored final answer is committed without asking the model, and adds exactly its one step |
| ReactDrive.DriveLoop | pkg/agents/react.py:708-916 | the while loop keeps its variables equal to the machine's executor and terminates |
| ReactDrive.RunHost.CheckControl | pkg/agents/react.py:971-986 | the attempt goes on exactly when the control state it read does not tell it to stop; when that state asks the holder of the lease to pause, the checkpoint loaded afterwards is stored again under the next revision and, in a store that checks leases, the run is paused at it; otherwise it stops and writes nothing |
| ReactDrive.RunHost.CommitAction | pkg/agents/runtime.py:128-141 | committing a chosen tool action stores it and moves on, pauses with the stored snapshot, or stops the attempt |
| ReactDrive.RunHost.CommitStep | pkg/agents/runtime.py:143-155 | committing a finished step appends it to the stored checkpoint and moves to the next index, or stops the attempt |
| ReactDrive.RunHost.CommitTerminal | pkg/agents/runtime.py:157-170 | a terminal commit makes the run terminal with this result, or a pause keeps the candidate and gives the commit up |
| ReactDrive.RunAttempt | pkg/agents/react.py:523-591 | a whole attempt, from taking the run over and assessing its snapshot to its end, assumes nothing of the run it finds, stays within the machine, and drives nothing when the run is not to be had |
| ReactDrive.DrivenRunsAreRuns | pkg/agents/react.py:563-591 | a run the loop continues from a reachable state is a run of the machine, so every theorem above holds of it |
| CeleryRecord.ApplyKeepsInv | internal/dao/celery_task.py:155-498 | every statement keeps the record invariant: finished_at exactly in terminal states, one attempt exactly when a token is set, ordered deadlines |
| CeleryRecord.ApplyIsLater | internal/dao/celery_task.py:183-498 | every statement moves a record only forward: a changed status has a higher rank, terminal records, tokens and fences stay, lost success stays lost, a closed gate stays closed |
| CeleryRecord.HeldByOthers | internal/dao/celery_task.py:293-349 | statements that do not carry the token take a held record away only by orphaning it |
| CeleryRecord.EarlyCodeMeansUnclaimed | internal/dao/celery_task.py:20-72 | a statement keeps "publish and queue-timeout codes mean no attempt" if and only if it is not a worker or resolver writing such a code |
| CeleryRecord.OrphanResolvedLate | internal/dao/celery_task.py:462-498 | an orphan is resolved no earlier than its claim plus timeout, grace and fence |
| CeleryRecord.DeadlinesAreExact | internal/dao/celery_task.py:183-498 | each deadline expires exactly when the statement that set it says, and not a second earlier |
| CeleryTasks.CeleryTaskDao.ReserveTask | internal/dao/celery_task.py:122-172 | a record is created exactly when its key is new; otherwise the record with that key is returned and nothing changes |
| CeleryTasks.CeleryTaskDao.MarkQueued | internal/dao/celery_task.py:183-215 | the caller never sees SUBMITTING again: either the record is queued and expires exactly after its start timeout, or somebody was faster and nothing changes |
| CeleryTasks.CeleryTaskDao.MarkDispatchFailed | internal/dao/celery_task.py:217-249 | a marked record was never claimed and no statement changes it again; otherwise the record had left SUBMITTING and nothing changes |
| CeleryTasks.CeleryTaskDao.ClaimExecution | internal/dao/celery_task.py:251-291 | a delivery that claims the record holds it under its token, no other delivery can claim it, and the reconciler can take it away exactly from its deadline on; otherwise nothing changes |
| CeleryTasks.CeleryTaskDao.FinishExecution | internal/dao/celery_task.py:293-325 | only the holder of a running record ends it, and no statement changes it again; a holder who is refused has a record that is no longer running; other statuses are an error |
| CeleryTasks.CeleryTaskDao.RequestCancellation | internal/dao/celery_task.py:351-391 | the in-place cancel of a locked row, for every status |
| CeleryTasks.CeleryTaskDao.DisallowCancellation | internal/dao/celery_task.py:393-415 | once the gate is closed no request to cancel changes the record; a running record whose gate does not close has it closed already |
| CeleryTasks.CeleryTaskDao.ResolveOrphaned | internal/dao/celery_task.py:462-498 | a resolved orphan finished no earlier than claim plus timeout, grace and fence, keeps its code unless a new one is given, and is never changed again; other statuses are an error |
| CeleryTasks.CeleryTaskDao.Candidates | internal/dao/celery_task.py:20-105 | the selection of a reconciler: the first batch_size rows due in deadline order that nobody has locked |
| CeleryTasks.CeleryTaskDao.Reconcile | internal/dao/celery_task.py:417-460 | a reconciler changes exactly its batch, each row as its statement says, and no other row |
| CeleryTasks.CeleryTaskService.SubmitOnce | internal/services/celery_task.py:73-163 | a message is published exactly when the call created the record, a conflict is reported exactly for a different payload, and a reported publish failure leaves a record nobody claimed |
| CeleryTasks.CeleryTaskService.CancelTask | internal/services/celery_task.py:174-200 | a normal return leaves a record that cannot succeed; a refusal leaves the table as it was |
| CeleryTasks.CeleryTaskService.Claim | internal/services/celery_task.py:202-222 | a claim holds the record until timeout plus grace have passed and shuts every other delivery out; non-positive durations are an error; without a claim nothing changes |
| CeleryTasks.CeleryTaskService.Succeed | internal/services/celery_task.py:242-255 | with anything in between its two transactions, the holder's write succeeds, is acknowledged as a cancellation, or is fenced off, the last exactly when the record was orphaned |
| CeleryTasks.CeleryTaskService.Fail | internal/services/celery_task.py:257-279 | the same for recording a failure |
| CeleryTasks.SumNumbers | internal/tasks/celery_idempotency_demo.py:33-77 | a returned value is the sum and means SUCCEEDED, a fencing error means the record was orphaned, a task error means FAILED, and an ignored delivery never held the record or was cancelled |
| CeleryProtocol.OnceForEachKey | internal/services/celery_task.py:111-163 | over every interleaving: one record a key, one publish attempt and one successful claim a record, no claim without a publish, as many attempts as claims |
| CeleryProtocol.RunsMoveForward | internal/dao/celery_task.py:183-498 | from any moment of a run to any later one, no record disappears and every record moves only forward; tokens never change |
| CeleryProtocol.CancelledNeverSucceeds | internal/services/celery_task.py:174-200 | once cancel_task returned normally, the record is never SUCCEEDED |
| CeleryProtocol.GateStopsCancellation | internal/dao/celery_task.py:351-415 | once the gate was closed, the record is never CANCELLING, and CANCELLED only after its orphan fence expired |
| CeleryProtocol.FinishTimes | internal/dao/celery_task.py:462-498 | finished_at is set exactly in terminal states, and a resolved orphan finished after claim, timeout, grace and fence |
| CeleryProtocol.AtMostFiveChanges | internal/dao/celery_task.py:20-105 | a record changes its status at most five times |
| CeleryProtocol.TerminalForever | internal/dao/celery_task.py:351-391 | a terminal record keeps every column for the rest of the run |
| CeleryProtocol.EarlyCodesUnclaimed | internal/dao/celery_task.py:20-72 | in every run and for every record: that a publish or queue-timeout code means the record was never claimed holds if and only if no worker and no resolver wrote such a code to it |
| ThreadCapacity.RunningWithinCapacity | pkg/concurrency/manager.py:167-206 | in every interleaving, running functions are among held tokens, and held tokens never exceed the capacity |
| ThreadCapacity.TokensReturnedOnce | pkg/concurrency/manager.py:181-206 | no token is returned twice or by somebody who does not hold it, and while the loop lives a finished job has returned its token |
| ThreadCapacity.HeldTokenCanReturn | pkg/concurrency/manager.py:181-206 | from any state of a live loop, a held token comes back once its caller gives up and its function ends |
| ThreadCapacity.CancelledNeverRuns | pkg/concurrency/manager.py:175-206 | the function of a job cancelled before it started is never called, however the run goes on |
| ThreadCapacity.JobState.TryStart | pkg/concurrency/manager.py:175-180 | whichever section comes first decides for good who returns the token, and the thread runs the function exactly when it is the thread |
| ThreadCapacity.JobState.TryCancel | pkg/concurrency/manager.py:198-203 | whichever section comes first decides for good who returns the token, and the waiter returns it exactly when it is the waiter |
| StableSort.SortStable | pkg/vectors/post_retrieval.py:274-275 | sorting keeps the order of elements ranked the same |
| ContextWindows.ResolveChunks | pkg/vectors/context_assembly.py:426-448 | the loop and its sort give the kept chunks in key order |
| ContextWindows.ResolvedInOrder | pkg/vectors/context_assembly.py:426-474 | resolving drops exactly the empty chunks when asked to, loses and repeats no other, and orders them by group, value and position |
| ContextWindows.GroupChunks | pkg/vectors/context_assembly.py:317-337 | the windows partition the chunks in order, each is valid, and no valid grouping has fewer |
| ContextWindows.GreedyIsSmallest | pkg/vectors/context_assembly.py:476-498 | windows of linked chunks up to the maximum size, taken greedily, are as few as possible |
| ContextAssembly.TruncatedFits | pkg/vectors/context_assembly.py:617-625 | a truncated text fits its limit, is the text itself exactly when that fits, and otherwise is a prefix with or without the ellipsis |
| ContextAssembly.FitDocumentText | pkg/vectors/context_assembly.py:377-424 | a document fits its budget and is whole exactly when it fits; it is the cut header when that fills the budget, and otherwise the header, every window that fits whole, and what can be shown of the first that does not; it is marked exactly when something was lost or the header fills the budget |
| ContextAssembly.KeptIsMaximal | pkg/vectors/context_assembly.py:398-424 | every beginning of the windows that fits behind the header is kept whole, and at most one more window follows it, cut |
| ContextAssembly.TruncatedWithoutLoss | pkg/vectors/context_assembly.py:387-388 | a document is marked as truncated with nothing lost exactly when its whole text is a header as long as the budget |
| ContextAssembly.BuildWindows | pkg/vectors/context_assembly.py:339-375 | the windows of a document are its groups in order, numbered from one, with headers and joined chunk texts |
| ContextAssembly.WindowsHoldChunks | pkg/vectors/context_assembly.py:317-375 | the windows of a document hold its surviving chunks, each once, in order |
| ContextAssembly.AssembleDocument | pkg/vectors/context_assembly.py:271-315 | an assembled document fits its budget, and a document is dropped if and only if nothing of it can be shown: it has no text, its header fills the budget and is all white space, or its first window with text is cut to nothing |
| ContextAssembly.Assemble | pkg/vectors/context_assembly.py:205-269 | the context is the document texts joined by the separator, within the total budget, from the sources in order, each fitted into what the earlier ones left; a considered source is missing only if nothing of it can be shown in that room or no room was left |
| ContextAssembly.AssembleIsDetermined | pkg/vectors/context_assembly.py:205-269 | one result meets that contract: no source can be dropped, swapped or cut differently |
| ContextAssembly.DocumentsWithinBudget | pkg/vectors/context_assembly.py:595-607 | every assembled document keeps to the document budget, and without budgets it is whole with all its windows |
| PostRetrieval.UniqueRepresents | pkg/vectors/post_retrieval.py:166-182 | deduplication keeps one hit for each key, and under BEST_SCORE none of that key is better |
| PostRetrieval.StrategyIsIrrelevant | pkg/vectors/post_retrieval.py:100-182 | because the pipeline sorts first, FIRST and BEST_SCORE keep the same hits |
| PostRetrieval.GroupHits | pkg/vectors/post_retrieval.py:188-191 | the groups are the documents with all their hits in order, their sizes add up to the number of hits, and the error names the first hit without a key: every earlier hit has one |
| PostRetrieval.Collapse | pkg/vectors/post_retrieval.py:184-217 | one document a key, each with its best hits first, hit counts summing to the number of hits, documents in rank order |
| PostRetrieval.Run | pkg/vectors/post_retrieval.py:100-132 | the pipeline without rerankers returns the deduplicated hits and the first max_documents documents |
| PostRetrieval.SelectEvidence | internal/services/rag.py:477-486 | the loop returns the first final_k chunks of the documents in order, or else the first hits |
| PostRetrieval.EvidenceIsExact | internal/services/rag.py:140-156 | with both limits set to k, evidence is exactly min(k, n) distinct hits of the n deduplicated ones, and the fallback happens exactly when n is less than k |
| LruCache.Cache.Get | pkg/chars_matcher/pinyin_chars_matcher.py:88-96 | a hit returns what was stored and makes the key the most recent, a miss changes nothing |
| LruCache.Cache.Set | pkg/chars_matcher/pinyin_chars_matcher.py:98-105 | the bound is kept, and over it exactly the least recently used key leaves |
| PinyinTrie.BuildPrefixTrie | pkg/chars_matcher/pinyin_chars_matcher.py:326-335 | the tree of nodes lists, at every path, the keys with that prefix in mapping order, and covers every prefix of every key |
| PinyinTrie.PrefixMatches | pkg/chars_matcher/pinyin_chars_matcher.py:664-675 | the walk returns exactly the keys that have the prefix, in mapping order |
| PinyinVariants.RulesAreSymmetric | pkg/chars_matcher/pinyin_chars_matcher.py:180-207 | the fuzzy rules for initials and finals go both ways |
| PinyinVariants.GenerateFuzzyVariants | pkg/chars_matcher/pinyin_chars_matcher.py:382-433 | the loops collect the spellings in order |
| PinyinVariants.VariantsAreMinimal | pkg/chars_matcher/pinyin_chars_matcher.py:398-433 | the variants are the token first and every non-empty spelling its swaps can give, each once and with its minimal number of edits |
| PinyinKeys.MatchPinyinKeys | pkg/chars_matcher/pinyin_chars_matcher.py:603-662 | the loops over the trie give the keys of the plain definition |
| PinyinKeys.MatchedKeys | pkg/chars_matcher/pinyin_chars_matcher.py:603-662 | a key is matched, once, exactly when it is a spelling of the token, or continues one and prefixes count; each match has the kind, edits and extra length of the first spelling that finds it |
| PinyinMatcher.RankFollowsPriorities | pkg/chars_matcher/pinyin_chars_matcher.py:565-601 | of any two finds, the rank puts first the one that exact before fuzzy before prefix, then fewer edits, shorter rest, the queried character, the preferred key, and the place in the bucket put first |
| PinyinMatcher.AnswerIsRanked | pkg/chars_matcher/pinyin_chars_matcher.py:751-783 | the answer is ordered by each character's smallest rank over all occurrences and by where that rank was first seen |
| PinyinMatcher.AnswerIsUnion | pkg/chars_matcher/pinyin_chars_matcher.py:732-790 | the answer has no duplicates and is exactly the union of the matched buckets |
| PinyinMatcher.Matcher.GetMatchedPinyinKeys | pkg/chars_matcher/pinyin_chars_matcher.py:677-702 | with or without a cache hit the matched keys are the same, and the caches stay bounded and coherent |
| PinyinMatcher.Matcher.MatchCharsByTokens | pkg/chars_matcher/pinyin_chars_matcher.py:732-790 | whatever was asked before, the answer is the one the definition gives, and the caches stay bounded and coherent |
| InvoiceConfirm.StoredReadsBack | internal/services/order.py:241-265 | a stored result reads back as the request it was stored for if and only if it carries a trace identifier |
| InvoiceConfirm.OneTokenOneTask | internal/services/order.py:111-214 | for every interleaving with failures and deaths at any await, all answers for one token are the same request, for one user and one retry key |
| InvoiceConfirm.AnswersArePrepared | internal/services/order.py:160-182 | what a caller is given is the action prepared for that user, field by field |
| InvoiceConfirm.ResultsAreFinal | internal/services/order.py:133-197 | a stored confirmation result is never replaced |

## Left out

- Routing: the application layer's own commit of the `routing` phase before an executor starts; the machine starts in `routing` or `before_action`.
- The bytes orjson produces: the size of an encoding and the parsing of text are parameters, so 64-bit integer limits and NaN are not modelled.
- Keys of payload objects are those the codec reads plus a named rest; `dict()` of an iterable of pairs that is not a mapping is treated as an error.
- The database implementation of the runtime (`internal/services/agents`): only its contract is modelled, with the phase kept by an interrupted checkpoint commit left open.
- ReactDrive.Drive: says nothing about the events of an attempt that ends in an exception.
- ManagedTheorems.AttemptIsBounded: counts commits that are rejected as well as accepted ones.
- Progress: nothing says that a paused run is resumed, or that a step is emitted only once; a paused final answer emits its step again on resume.
- Elapsed times are ignored where runs are compared; error texts are not modelled.
- Celery payload canonicalisation, hashing and length checks, trace identifiers, audit columns, summaries and the broker's revocation; records are never deleted.
- CeleryTasks.SumNumbers: an acknowledgement that raises after its transaction committed is not modelled.
- ThreadCapacity.RunningWithinCapacity: the limiter's own waiting queue is taken as an atomic acquire; deadlines and shielding in the caller appear as interrupts that may come at any time.
- Text normalisation, field resolution, headers built from metadata, white-space classes and score aggregation in context assembly and post-retrieval are parameters; rerankers are absent.
- Order values of chunks that are not numbers are given by their place among such values, because Python cannot compare mixed ones.
- Pinyin normalisation, the shipped character tables, canonical pinyin inference and `resolve_text_to_pinyin_keys`: the preferred key of a character is a function.
- LruCache.Cache.Set: concurrent use, in which the cache may drop a write, is not modelled.
- One retry key can serve two invoice tokens, because locks are per token and the two results are written apart; nothing is claimed about it.
- Redis expiry, lock expiry of a live process, input lengths of prepared actions and the texts shown to users.
- The argument checks of `assemble` (exactly one of two inputs) and the counters in its result.
- LLM clients, HTTP and streaming layers, sessions, logging, tracing, settings, object storage and the remaining services: thin wrappers or easy members.
