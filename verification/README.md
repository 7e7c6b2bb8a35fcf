# Akashic `RunAgentTask`: a verified model

Akashic runs one durable protocol: a task is submitted, its context is compiled, an agent takes
turns and may ask for more context, the candidate is verified, and then adopted. The protocol
exists on two backends (a Temporal workflow and a Vercel workflow) that are meant to agree, over
an effect ledger that is fenced by generations and guarded by a lock file. Every identity in the
system is a digest of a canonical JSON text, and three read models (the Cloudflare kernel's event
log, the Vercel stream reader, the Drive projection) must agree with the history behind them. The
evaluation corpus stands on the same canonical JSON.

This project models that behaviour in Dafny and proves what it promises over all inputs and all
runs.

| files | what they model |
|---|---|
| `Utf16`, `Wrappers`, `KeySort`, `Json`, `CanonText`, `JsonParser`, `JsonGrammar` | optional values, strings of UTF-16 code units, `JSON.stringify`, `canonicalJson`, what its text looks like, a parser, and the grammar of RFC 8259, sections 2 to 7, that the parser is proved to read |
| `TaskState` | the transition table, the validators, and the two checks of a context delta |
| `Protocol` | the abstract machine that both backends refine |
| `Environment`, `Temporal`, `TemporalWorkflow` | the Temporal workflow: a step machine, and the class its closures make |
| `WorkflowIds`, `Vercel`, `VercelWorkflow` | the Vercel workflow: its hook tokens, a step machine with its stream, and the nested loops that run it |
| `SessionRuns`, `CancelRuns` | the session and the errors that a reader of either backend sees, told from the events of the run alone, and what a cancelled workflow still does |
| `Equivalence`, `DeltaGap` | the two backends compared, and a delta on which they part |
| `Effects`, `EffectKey`, `Provenance` | the fenced ledger record, effect keys, reports and provenance |
| `Adoption`, `AdoptionFields`, `RuntimeRoot`, `AdoptionGap`, `Careless`, `AdoptedTask`, `VercelAdoption` | adoption under the lock with crashes, what it writes field by field, its imperative form, the gap in stale-lock removal, what care is needed for, and what a COMPLETED snapshot rests on |
| `EvalCases`, `Jsonl`, `Promotion`, `Graders` | evaluation cases, the JSONL corpus, promotion, and the deterministic graders |
| `Kernel`, `KernelFields`, `TaskKernelObject` | the Cloudflare kernel: its functions, what each request sets and keeps, and the durable object |
| `StreamReader`, `DriveProjection` | the two read models of a run |

How the model reads:

- A run is a list of events. An event that nothing waits for leaves the state as it is, so a
  theorem about every list of events covers every interleaving. Agent, verifier, context and
  adoption answers are arbitrary values of their types, and every activity may also throw.
- A function called `Step` or `Serve` is one uninterrupted piece of the program. The classes
  and methods (`RunAgentTaskWorkflow`, `RunAgentTaskOnVercel`, `Root`, `TaskKernel`,
  `Projector`, `ParseEvalJsonl`, `OrderedValues`, `ReadLatestSnapshotFromRun`) have the
  program's loops and assignments and are proved to compute those functions, so that what is
  proved about the functions holds of them.
- A JavaScript object is the list of its own properties in insertion order. `undefined` is
  `None`, an exception is `Err`, `None` or `Threw`.
- SHA-256 is a parameter: any function. Where a result needs it to be collision free, the lemma
  says so.

What turned out not to hold of the code, with the exact condition each time:

- The backends do not accept the same deltas (`DeltaGap.TemporalIsLaxer`): Temporal's digest test
  also takes a digest in an array, and it asks for less. Nor do they take the same requests for
  context: Vercel fails where it can make no hook token. They agree exactly on the runs in which
  no answer is one of three kinds (`Equivalence.BackendsAgree`, `Parts`): a delta that only
  Temporal's check lets through, a request for context without a hook token, a pass for a
  candidate from which Temporal's template makes no effect key, since it is `null` or its digest
  has no string form (`Environment.NoEffectKey`).
- A valid capsule is not always one that Temporal's `assertTask` accepts
  (`TaskState.CapsuleIsAsserted`).
- `failEffect` undoes a success (`Effects.FailReopensSuccess`); a success lasts exactly while it
  is not called with the winning token (`Effects.SuccessKept`).
- Stale-lock removal looks at the lock file and then removes whatever is there. Even when no
  holder is ever too old, two attempts can hold the lock and replace a persisted adoption
  (`AdoptionGap.LockGapBreaksAdoption`). On a run whose steps are careful no two attempts ever
  hold it, and a run that is not careful passes a state from which one more attempt makes two
  (`Careless.CarefulRunExactly`). Steps are careful if looking and removing are one step and no
  holder is outlived (`Adoption.AtomicRemovalSuffices`).
- A cancel does not stop a verification or the adoption after it: `adoptArtifact` can still run for a
  snapshot that is CANCELED, exactly when it was running, or a candidate with an effect key was
  being verified, as the cancel came (`CancelRuns.CancelMissesAdoption`).
- A submit that is handled after an early cancel reopens a cancelled snapshot
  (`Temporal.SubmitReopens`); the Temporal results are about runs that submit first, as
  Update-With-Start does (`apps/temporal-runner/src/rpc.js:14-19`).
- The template string that names an adoption on Temporal is ambiguous, exactly when the task id
  has a colon after its first code unit or the attempt id has one before its last
  (`EffectKey.AdoptKeyAmbiguous`; `CapsuleKeyAmbiguous` for ids of at most 256 code units). The
  digest that `makeEffectKey` computes is not.
- The windowed stream reader reports no snapshot once as many rejections as it reads follow the
  last snapshot (`StreamReader.WindowIsEnough`).
- The Drive projection of a task whose id is longer than 120 code units is never found again, so
  every call creates a file (`DriveProjection.RepeatChangesNothing`).
- README.md:97-108 of the repository says that both adapters implement the slice up to
  `CANCELED`. The Vercel workflow function itself never moves to `CANCELED`; there, cancelling is
  left to the platform. The model follows the code.

## Model

| member | source | states |
|---|---|---|
| Protocol.ApplyKeepsAccounts | packages/contracts/src/task-state.js:15-25 | Each protocol action keeps the sequence accounting of its phase (`state_seq` is `3*context_seq` plus a constant), and its state change is an edge of the table or the WORKING self-step that opens a turn. |
| Protocol.RunKeepsAccounts | workflows/temporal/src/workflows.js:56-205 | On every run of the abstract machine the accounting holds at the end, and `state_seq` counts the actions. |
| Protocol.RunIsPath | packages/contracts/src/task-state.js:15-25 | The state history of every run is a path: each action takes an edge of the table or the WORKING self-step, and a terminal state is entered by the last action only. |
| Protocol.TableExactly | packages/contracts/src/task-state.js:15-25 | A state follows another in the table if and only if some action of the protocol, from a machine with its accounting in order, leads from the one to the other; only the WORKING self-step is outside the table. |
| TaskState.ValidateExactly | packages/contracts/src/task-state.js:120-162 | The contracts validator accepts exactly the deltas that match the snapshot, are new, keep the length bounds and carry a complete artifact reference. |
| TaskState.VerdictExactly | packages/contracts/src/task-state.js:120-162 | Which error is thrown first: no delta before the wrong state, both before the bounds of the four ids, these before the comparisons, and the reference last. |
| TaskState.AssertExactly | workflows/temporal/src/workflow-contracts.js:10-21 | Temporal's check accepts exactly the deltas that match the snapshot, are new, and have an id, a uri and something that passes the digest test. |
| TaskState.TestsExactly | workflows/temporal/src/workflow-contracts.js:19 | The digest test, which makes a string of its argument first, lets through exactly the digests and the digests wrapped in arrays of one element. |
| TaskState.DeltaChecksCompared | packages/contracts/src/task-state.js:120-162 | The validator accepts a delta if and only if Temporal's check does and the delta keeps the stricter bounds; so everything the validator accepts Temporal accepts too. |
| TaskState.CapsuleIsAsserted | workflows/temporal/src/workflow-contracts.js:3-9 | A valid capsule passes `assertTask` if and only if its execution hash is a string: the validator also takes a hash in an array, or none. |
| DeltaGap.TemporalIsLaxer | workflows/temporal/src/workflow-contracts.js:10-21 | For every task that both backends take and every digest that passes the test: from matched runs that wait for context, a delta with a bare reference sends Temporal to the merge, while Vercel turns it away and stays. |
| DeltaGap.SomeTaskParts | workflows/temporal/src/workflow-contracts.js:19 | One such task, and one such digest, given in an array. |
| WorkflowIds.AnsweredNeedHasToken | deploy/vercel-chatgpt-app/lib/vercel-workflow-ids.js:3-22 | For bounded ids and a request that an accepted delta answers, a hook token can be made exactly when no id has a lone surrogate. |
| Temporal.StepRefines | workflows/temporal/src/workflows.js:56-205 | Whatever happens next (submit, delta, cancel, activity result, failure, scope cancellation), the workflow performs exactly the protocol actions listed for it, each enabled, and keeps its invariant. |
| Temporal.RunRefines | workflows/temporal/src/workflows.js:56-205 | Every run of the workflow, under every interleaving, is a run of the protocol machine, although the code never consults the table. |
| Temporal.SubmittedRunAccounts | workflows/temporal/src/workflows.js:61-64 | On every submitted run the states are a path of legal steps and `state_seq` is one more than their number; a returned run is terminal; a COMPLETED one has `state_seq = 3*context_seq + 6` and `turn_no = context_seq + 1`. |
| Temporal.TerminalIsFinal | workflows/temporal/src/workflows.js:61-64 | Cancel wins: once an initialised run is terminal, no later result, delta, exception or cancel changes state, sequence numbers, error or delta list. |
| Temporal.SubmitReopens | workflows/temporal/src/workflows.js:67-89 | A submit changes a terminal state exactly when nothing was submitted before; a submit after a pre-initialisation cancel leaves SUBMITTED beside `terminal: true`. |
| CancelRuns.CancelStops | workflows/temporal/src/workflows.js:107-204 | After a cancel request no run compiles, merges or begins a turn; it starts at most the verification of a turn that was going on and the adoption of candidates already on the snapshot, which does not change any more. |
| CancelRuns.CancelMissesAdoption | workflows/temporal/src/workflows.js:166-193 | On every run of a submitted task: after a cancel of a live task the adoption is still reached by some run if and only if it was being performed, or a candidate with an effect key was being verified, when the cancel came; the snapshot is CANCELED on all of them. |
| Temporal.FirstSubmit | workflows/temporal/src/workflows.js:67-82 | The first submit records the task and its three ids, at SUBMITTED with `state_seq` 1, and nothing else. |
| Temporal.SecondSubmit | workflows/temporal/src/workflows.js:83-88 | On every run of a submitted task another submit is let through if and only if it is a task with the same execution hash, and then it changes nothing. |
| Temporal.OutcomeFieldsAgree | workflows/temporal/src/workflows.js:107-204 | On every run a snapshot has an error exactly when it is FAILED or CANCELED, and an adoption reference exactly when it is COMPLETED. |
| Temporal.PendingNeverOverwritten | workflows/temporal/src/workflows.js:90-106 | Whenever a delta is accepted, the pending slot is empty, the coroutine waits for it, and no cancel was requested. |
| Temporal.ChronicleInOrder | workflows/temporal/src/workflows.js:140-151 | Each step keeps the history: merge number i consumed accepted delta number i, starting from what merge i-1 returned. |
| Temporal.CompiledContextIsFold | workflows/temporal/src/workflows.js:90-151 | On every submitted run `context_seq` counts the accepted deltas, their ids are distinct and in order, each is merged at most once, `last_context_delta_ref` is the last one's, and `compiled_context_ref` is the left fold of the merges over the consumed deltas. |
| TemporalWorkflow.RunAgentTaskWorkflow.TransitionTo | workflows/temporal/src/workflows.js:61-64 | The closure reassigns the snapshot as `Transition` says, and leaves a terminal one alone. |
| TemporalWorkflow.RunAgentTaskWorkflow.SubmitTask | workflows/temporal/src/workflows.js:67-89 | The update and its validator make exactly the submit step. |
| TemporalWorkflow.RunAgentTaskWorkflow.ApplyContextDelta | workflows/temporal/src/workflows.js:90-106 | The update makes exactly the delta step; a rejected delta changes none of the four variables. |
| TemporalWorkflow.RunAgentTaskWorkflow.Cancel | workflows/temporal/src/workflows.js:107-111 | The update makes exactly the cancel step. |
| TemporalWorkflow.RunAgentTaskWorkflow.Wake | workflows/temporal/src/workflows.js:113-143 | The two conditions resume the coroutine exactly as the step machine does; the pending delta moves to the merge. |
| TemporalWorkflow.RunAgentTaskWorkflow.ContextReturned | workflows/temporal/src/workflows.js:118-150 | A compiled or merged context is recorded and the next turn opens. |
| TemporalWorkflow.RunAgentTaskWorkflow.TurnReturned | workflows/temporal/src/workflows.js:135-165 | A turn's output makes exactly the turn step, malformed outputs included. |
| TemporalWorkflow.RunAgentTaskWorkflow.VerificationReturned | workflows/temporal/src/workflows.js:166-191 | The verification result makes exactly the verify step and computes the adoption arguments. |
| TemporalWorkflow.RunAgentTaskWorkflow.AdoptionReturned | workflows/temporal/src/workflows.js:192-193 | The adoption result completes the run unless it is already terminal. |
| TemporalWorkflow.RunAgentTaskWorkflow.Raised | workflows/temporal/src/workflows.js:195-204 | The `catch` block, for cancellations and for everything else. |
| Vercel.StepRefines | deploy/vercel-chatgpt-app/workflows/run-agent-task.js:368-530 | Each event performs exactly the protocol actions listed for it (a request for which no hook token can be made is asked and then fails), and keeps the stream invariant: snapshots numbered 1, 2, 3, ..., the last one showing the current view. |
| Vercel.RunRefines | deploy/vercel-chatgpt-app/workflows/run-agent-task.js:54-94 | Every run is a run of the protocol machine; the workflow never asks for an illegal transition; the stream carries every `state_seq` once, without gap. |
| Vercel.StartedRunIsPath | deploy/vercel-chatgpt-app/workflows/run-agent-task.js:54-94 | From the submitted state on, the states of every run are a path of legal steps. |
| Vercel.StartedInv | deploy/vercel-chatgpt-app/workflows/run-agent-task.js:26-52 | The initial snapshot of every valid capsule satisfies the invariant after its first move, one step from the protocol's start. |
| Vercel.WaitingHasToken | deploy/vercel-chatgpt-app/workflows/run-agent-task.js:400-402 | On every run, whenever the workflow waits for context its hook could be created. |
| Vercel.OneRequestCompletes | evidence/vercel-live-p0-20260816.json:55-61 | For every admitted capsule and every delta that answers the open request, the run with one request for context is over afterwards: it completed with `state_seq` 9, `context_seq` 1 and `turn_no` 2, as the recorded live run did, if and only if attempt id and request id have no lone surrogate; otherwise it failed at 5. |
| Vercel.OutcomeFieldsAgree | deploy/vercel-chatgpt-app/workflows/run-agent-task.js:448-528 | On every run a snapshot has an error exactly when it failed, and an adoption reference exactly when it completed. |
| Vercel.InitialFields | deploy/vercel-chatgpt-app/workflows/run-agent-task.js:26-52 | The first snapshot has the ids, the run id and the submission digest of its capsule (`null` without one), and every other field empty. |
| Vercel.RejectionTold | deploy/vercel-chatgpt-app/lib/vercel-workflow-projection.js:14-30 | A delta that the validator turns away adds one event with the current numbers, the validator's code, and the delta's own ids and sequence number where they are strings and a safe integer; the run stays. |
| SessionRuns.SessionIsLast | workflows/temporal/src/workflows.js:135-165 | On every Temporal run `agent_session_id` is the last one, neither missing nor null, among the outputs consumed in a live turn (a request for context that has a need, or an offer with a candidate), or else what it was. |
| SessionRuns.SessionIsLastV | deploy/vercel-chatgpt-app/workflows/run-agent-task.js:394-472 | The same on every Vercel run, where a request for context counts without a need, too. |
| SessionRuns.ErrorIsFirstCause | workflows/temporal/src/workflows.js:107-204 | On every Temporal run the error is the one that the first failing event caused: the agent's own when it gave one, else the code for its kind of failure. |
| SessionRuns.ErrorIsFirstCauseV | deploy/vercel-chatgpt-app/workflows/run-agent-task.js:448-528 | The same on every Vercel run, hooks without a token included. |
| SessionRuns.SubmittedRunTells | workflows/temporal/src/workflows.js:56-205 | From a submitted task: session and error are the last session told, or none, and the first cause, or none. |
| SessionRuns.StartedRunTells | deploy/vercel-chatgpt-app/workflows/run-agent-task.js:368-530 | The same from a valid capsule on Vercel. |
| SessionRuns.AgentErrorStays | workflows/temporal/src/workflows.js:154-157 | A live task whose agent fails with an error is FAILED with that very error after any later events, on both backends. |
| SessionRuns.DocumentsShown | workflows/temporal/src/workflows.js:166-175 | After verification the snapshot of either backend shows the report as report and the provenance as provenance. |
| SessionRuns.NoEffectKeyExactly | workflows/temporal/src/workflows.js:190 | The effect-key template throws exactly when there is no first candidate, it is `null`, or its digest has no string form. |
| VercelWorkflow.CreateHook | deploy/vercel-chatgpt-app/workflows/run-agent-task.js:402 | Without a token for the hook the run fails in the outer `catch`, after the INPUT_REQUIRED snapshot was emitted. |
| VercelWorkflow.AwaitContext | deploy/vercel-chatgpt-app/workflows/run-agent-task.js:403-431 | The hook loop turns deltas away, each with one rejection event, until it accepts one, the hook fails, or nothing more arrives. |
| VercelWorkflow.VerifyAndAdopt | deploy/vercel-chatgpt-app/workflows/run-agent-task.js:474-513 | Verification and adoption end the run as the step machine says. |
| VercelWorkflow.TurnLoop | deploy/vercel-chatgpt-app/workflows/run-agent-task.js:380-514 | The turn loop computes the step machine's run for every script of answers. |
| VercelWorkflow.RunAgentTaskOnVercel | deploy/vercel-chatgpt-app/workflows/run-agent-task.js:349-534 | A run starts exactly for a valid capsule whose id makes an owner token. For every script of answers the nested loops with their `try`/`catch` end in the state and the stream that the step machine computes. |
| Equivalence.MatchedStep | workflows/temporal/src/workflows.js:116-194 | One answer that does not part the backends keeps the two runs at the same await with the same observable snapshot. |
| Equivalence.PartedViews | packages/contracts/src/task-state.js:120-162 | An answer that parts them shows in the next snapshot. |
| Equivalence.BackendsAgree | deploy/vercel-chatgpt-app/workflows/run-agent-task.js:368-514 | For every task both backends accept and every list of answers, uncancelled runs show the same state, sequence numbers, need, delta ids, candidates, session and references after every answer, if and only if no answer parts them. |
| Effects.StepFenced | packages/contracts/src/effects.js:15-36 | One call keeps the effect's identity, never lowers the generation, raises it by at most one, and keeps the owner within a generation. |
| Effects.RunFenced | packages/contracts/src/effects.js:15-36 | The same over every run of claims, completions and failures by any number of owners. |
| Effects.OneOwnerPerGeneration | packages/contracts/src/effects.js:15-24 | Two moments of a run with the same generation have the same owner. |
| Effects.StaleTokenIsPowerless | packages/contracts/src/effects.js:25-36 | A token older than the record never changes it again, whatever runs in between. |
| Effects.TakeoverFences | packages/contracts/src/effects.js:22-23 | A takeover makes the token it displaces powerless for ever. |
| Effects.SuccessKept | packages/contracts/src/effects.js:25-36 | A call keeps a succeeded record if and only if it is not `failEffect` with the winning token. |
| Effects.SuccessIsPermanent | packages/contracts/src/effects.js:20-31 | On runs without such a call the result digest is permanent, and every later claim or completion replays it or throws. |
| Effects.FailReopensSuccess | packages/contracts/src/effects.js:32-36 | With such a call a second, different result is recorded. |
| Effects.ClaimExactly | packages/contracts/src/effects.js:15-24 | When a claim is malformed, in conflict (another key or subject), busy (another owner has not succeeded and no takeover is asked for), a first claim, a replay, or a takeover at the next generation; and the whole record each time. |
| Effects.CompleteExactly | packages/contracts/src/effects.js:25-31 | For valid arguments, when a completion is in conflict with the recorded result, stale, a replay or a success, and the record it gives. |
| Effects.FailExactly | packages/contracts/src/effects.js:32-36 | When `failEffect` is stale, and that otherwise it records the code, or UNKNOWN, whatever the status was. |
| Effects.OwnerChangesByTakeover | packages/contracts/src/effects.js:15-24 | On every run, if the owner has changed, then at some moment a claim with `takeover`, of the same key and subject, took a record that had not succeeded from another owner. |
| EffectKey.EffectKeyInjective | packages/contracts/src/index.js:17-31 | With a collision-free hash two effect keys are equal exactly when all five fields are. |
| EffectKey.KeyRecordFields | packages/contracts/src/index.js:17-31 | The hashed record has the five fields under their own names, and no other. |
| EffectKey.AdoptKeyExactly | workflows/temporal/src/workflows.js:190 | For digests of one length two template keys are equal if and only if the digests are and the ids join to the same text. |
| EffectKey.AdoptKeyInjective | workflows/temporal/src/workflows.js:190 | Between task ids without a colon, two template keys are equal if and only if all fields are. |
| EffectKey.AdoptKeyAmbiguous | workflows/temporal/src/workflows.js:190 | Another pair of non-empty ids shares the key if and only if the task id has a colon after its first code unit, or the attempt id has one before its last. |
| EffectKey.CapsuleKeyAmbiguous | workflows/temporal/src/workflows.js:190 | The same for the ids of a valid capsule, where the other pair has to keep the bound of 256, too. |
| Provenance.PassMeansRequiredPass | packages/contracts/src/provenance.js:9-15 | A report keeps every check in order; a PASS report exists only if every check that was not declared optional passed. |
| Provenance.ReportExactly | packages/contracts/src/provenance.js:9-15 | A report is made if and only if there is a verdict, a digest, at least one check, each with a verdict, an id and a kind, every other string, and, for PASS, a PASS of every check not declared optional; it is what was given. |
| Provenance.ProvenanceFields | packages/contracts/src/provenance.js:4-8 | A provenance record names the digest of every output. |
| Provenance.ProvenanceExactly | packages/contracts/src/provenance.js:4-8 | A record is made if and only if there are outputs, all outputs and context inputs have digests, and every required string is given. |
| Provenance.VerifiedIsAdoptable | packages/contracts/src/provenance.js:16-24 | What the two constructors build for a list of outputs passes `assertAdoptable` for each output whose digest is the report's subject. |
| Provenance.AdoptableExactly | packages/contracts/src/provenance.js:16-24 | For any three documents: `assertAdoptable` does not throw if and only if both have their schema, the report's `decision` is "PASS", its `subject_digest` is the candidate's digest, and the provenance's `subject_digests` has that digest as an element (or, where it is a string, inside it). |
| Provenance.MadeIsAdoptableExactly | packages/contracts/src/provenance.js:16-24 | For a report and a record that the constructors made: adoption is allowed if and only if the decision is PASS, the subject is the candidate's digest and an output has that digest. In particular no FAIL report adopts. |
| Adoption.ExclusionMeans | workflows/temporal/src/activities.js:40-56 | Under the exclusion invariant no two attempts are between acquire and release. |
| Adoption.ExclusionStep | workflows/temporal/src/activities.js:40-56 | A step of any of any number of contenders keeps the exclusion invariant if and only if it is careful: the clock does not outrun a holder, and the removal does not hit a holder's file. |
| Adoption.ExclusionExactly | workflows/temporal/src/activities.js:40-56 | The exclusion invariant (the lock file is the holder's, and no holder is too old) holds at every moment of a run if and only if the run is careful. |
| Adoption.StaleSeenStep | workflows/temporal/src/activities.js:48 | A contender that goes on to remove a lock file did see a stale one. |
| Adoption.SameFileIsCareful | workflows/temporal/src/activities.js:48 | If the removal takes the file that was looked at, or finds none, it is careful. |
| Adoption.AdoptionStep | workflows/temporal/src/activities.js:96-121 | With exclusion, each step keeps the ledger file good and an adoption reference once there. |
| Adoption.ExactlyOnceAdoption | workflows/temporal/src/activities.js:96-121 | Over every careful run of any number of attempts, with a crash possible between any two steps: a persisted `adoption_ref` never changes, a success records its digest, and all attempts that return, return that same reference. |
| Adoption.AtomicRemovalSuffices | workflows/temporal/src/activities.js:48 | If every removal takes the file that was looked at, and no holder is outlived, the whole of exactly-once adoption holds on every run. |
| Adoption.BackedStep | workflows/temporal/src/activities.js:98-100 | Every attempt past its reads is backed by a stored PASS report and provenance record about its candidate, whatever else happens. |
| Adoption.BackedIsEvidenced | workflows/temporal/src/activities.js:98-100 | Backed means, field by field: both references read stored documents, the report's `decision` is "PASS" with the candidate's digest as subject, and the provenance's `subject_digests` includes that digest. |
| AdoptionFields.LedgerNamesEvidence | workflows/temporal/src/activities.js:96-121 | On every run, careful or not: a ledger file names a stored PASS report and a stored provenance about its own candidate, under the effect key and subject of its record, and the adoption on file is the receipt for them at the record's generation. |
| AdoptionFields.DecideExactly | workflows/temporal/src/activities.js:103-112 | What the lock holder decides for each ledger: replay of an adoption of the same candidate (and key), conflict for another, otherwise a claim, at the next generation when it displaces an owner. |
| AdoptionFields.ReceiptFields | workflows/temporal/src/activities.js:113-116 | The receipt has the key, the ids, the three references and the generation of its arguments, each under its own name. |
| AdoptionFields.ReadRefExactly | workflows/temporal/src/activities.js:26-33 | A reference reads a document if and only if it is stored under the reference's uri and has its digest and its size. |
| AdoptionFields.PutReads | workflows/temporal/src/activities.js:11-33 | What was stored is read back under the reference that storing returned, unless another document with the same hash was there. |
| Adoption.PutKeepsReads | workflows/temporal/src/activities.js:11-33 | A stored document is never replaced: what a reference reads stays what it reads. |
| AdoptionGap.LockGapBreaksAdoption | workflows/temporal/src/activities.js:48 | From a good state, with the clock standing still and no crash, two attempts hold the lock at once and a persisted adoption reference is replaced by another. |
| Careless.CarelessLoses | workflows/temporal/src/activities.js:40-56 | From a state with exclusion, a careless step leads to one from which a single further attempt makes two holders, without any time passing and without a crash. |
| Careless.CarefulRunExactly | workflows/temporal/src/activities.js:40-56 | On a careful run no two attempts ever hold the lock, and every run that is not careful passes a state from which a single further attempt makes two holders. |
| RuntimeRoot.SectionIsSteps | workflows/temporal/src/activities.js:103-120 | The operation under the lock is what the step machine does when nothing interrupts it. |
| RuntimeRoot.ReadsDecide | workflows/temporal/src/activities.js:96-100 | An attempt goes on to wait for the lock exactly when the stored evidence backs it, and throws otherwise. |
| RuntimeRoot.RoundExactly | workflows/temporal/src/activities.js:44-53 | A round that finds a lock file removes one older than 30 seconds, and gives up exactly when 10 seconds have passed. |
| RuntimeRoot.Root.ImmutableJson | workflows/temporal/src/activities.js:11-25 | Stores a document unless its path exists, and returns the reference to it. |
| RuntimeRoot.Root.AcquireLock | workflows/temporal/src/activities.js:40-53 | The waiting loop ends within a bounded number of rounds: it created the lock file, or the timeout has passed. |
| RuntimeRoot.Root.AdoptLocked | workflows/temporal/src/activities.js:103-120 | Ledger, store and answer after the operation are those of the critical section; an adoption on file stays and is the one returned. |
| RuntimeRoot.Root.AdoptArtifact | workflows/temporal/src/activities.js:96-121 | The whole activity, with other workers moving on while it waits: it returns only the adoption on file, and only for a candidate with, on file at the call, a report whose decision is "PASS" on the candidate's digest and a provenance record that lists it. |
| AdoptedTask.WorldStep | workflows/temporal/src/workflows.js:162-193 | Workflow and adoption system together keep: a COMPLETED snapshot is vouched for by an attempt that returned. |
| AdoptedTask.CompletedWasAdopted | workflows/temporal/src/workflows.js:162-193 | Every reachable COMPLETED snapshot was adopted for exactly its own arguments, effect key included, on a stored report whose `decision` is "PASS" with the digest of its first candidate as `subject_digest`, and a stored provenance whose `subject_digests` list that digest. |
| AdoptedTask.CompletedIsOnFile | workflows/temporal/src/activities.js:96-121 | On every careful run the adoption of a COMPLETED snapshot is the one in the ledger file. |
| AdoptedTask.SubmittedIsOnFile | workflows/temporal/src/activities.js:96-121 | The same from any submitted task, with any store and any ledger that the activity can have left. |
| VercelAdoption.AdoptStepSound | deploy/vercel-chatgpt-app/workflows/run-agent-task.js:291-347 | The step returns only if the decision of the report is "PASS" on the candidate's digest, which the provenance lists, with a first-generation success under the candidate's own effect key, owned by the step, whose result is the digest that the returned reference, to the receipt for these arguments, names in its digest and its uri. |
| AdoptionFields.VercelReceiptFields | deploy/vercel-chatgpt-app/workflows/run-agent-task.js:291-347 | The receipt on Vercel has the same fields and the step id. |
| VercelAdoption.CompletedWasAdopted | deploy/vercel-chatgpt-app/workflows/run-agent-task.js:493-513 | On Vercel, too, every COMPLETED snapshot carries what the adoption step gave for its own first candidate, turn, report and provenance. |
| KeySort.SortAscending | packages/contracts/src/index.js:6-7 | Sorting entries with distinct keys puts the keys in strictly ascending code-unit order. |
| Utf16.BelowExactly | packages/contracts/src/index.js:6-7 | One key comes before another if and only if, where they first differ, it ends or has the smaller code unit. |
| KeySort.SortedByUnits | packages/contracts/src/index.js:6-7 | Of any two sorted keys the first is the one that ends, or has the smaller code unit, where they first differ. |
| KeySort.SortUnique | packages/contracts/src/index.js:6-7 | Two lists with the same entries sort to the same list. |
| Json.CanonIsStringifyNormal | packages/contracts/src/index.js:3-10 | `canonicalJson` prints what `JSON.stringify` prints of the value with its keys sorted at every depth. |
| CanonText.CanonOrder | packages/contracts/src/index.js:3-10 | The canonical text of an object prints each member once, as quoted key and canonical value, and their keys ascend by the first differing code unit. |
| CanonText.EscapeUnitExactly | packages/contracts/src/index.js:3-10 | How each code unit is printed inside a string: raw, as a short escape, or as four lower-case hexadecimal digits. |
| CanonText.PlainUnchanged | packages/contracts/src/index.js:3-10 | A string without controls, quotes, backslashes and lone surrogates is printed as it stands. |
| CanonText.SmallExample | packages/contracts/src/index.js:3-10 | `{"b":2,"a":1}` has the canonical text `{"a":1,"b":2}`. |
| Json.EquivNormal | packages/contracts/src/index.js:3-10 | Equality up to key order, defined without sorting or printing, is equality of the sorted forms. |
| Json.NoTextExactly | packages/eval-flywheel/src/graders.js:3-6 | `String(v)` throws exactly for an object with a `toString` of its own, or an array that holds one at any depth. |
| JsonParser.ParseInvertsStringify | workflows/temporal/src/workflow-contracts.js:2 | Parsing a printed value gives it back, at any depth: `clone` loses nothing. |
| JsonParser.ParseInvertsCanon | packages/contracts/src/index.js:3-10 | Parsing a canonical text gives the value back up to key order. |
| JsonParser.CanonInjective | packages/contracts/src/index.js:3-10 | Two values print alike if and only if they are equal up to key order. |
| JsonGrammar.ParsesExactly | packages/eval-flywheel/src/jsonl.js:12 | `JSON.parse` accepts a text if and only if it is one of the grammar of RFC 8259 (space between tokens, every escape, any depth), with the value the grammar gives it; a repeated property keeps its first place and its last value. |
| JsonGrammar.NumberTokenExactly | packages/eval-flywheel/src/jsonl.js:12 | The test for number tokens is the number grammar of section 6: sign, integer without leading zero, fraction, exponent. |
| EvalCases.ValidationNormal | packages/eval-flywheel/src/cases.js:21-40 | Validation, digest check included, gives the same answer in any key order. |
| EvalCases.ValidExactly | packages/eval-flywheel/src/cases.js:21-40 | A case is valid if and only if its fields have their types and bounds, its grader has what it compares, the evidence for its status is there, and a digest, if given, is that of the rest. |
| EvalCases.StaleDigest | packages/eval-flywheel/src/cases.js:38 | A case that is otherwise in order fails with the digest mismatch if and only if it has a digest that is not that of the rest. |
| Jsonl.ParseEvalJsonl | packages/eval-flywheel/src/jsonl.js:4-20 | The loop that pushes cases and adds ids computes the recursive reading of the lines, with the same first error. |
| Jsonl.ParsedCases | packages/eval-flywheel/src/jsonl.js:8-18 | Accepted text yields valid cases with distinct ids. |
| Jsonl.ParsedExactly | packages/eval-flywheel/src/jsonl.js:4-20 | The parser answers with a list of cases if and only if the non-blank lines, trimmed, hold exactly these cases in order: every such line is JSON text of a valid case with an id of its own, and none is left out. |
| Jsonl.FirstRefused | packages/eval-flywheel/src/jsonl.js:8-18 | An error names the first line that could not be taken, with its number, and why: no JSON, an invalid case, or an id that was there before. |
| Jsonl.LinesExactly | packages/eval-flywheel/src/jsonl.js:8 | The split gives the one list of lines that puts the text together again with a newline, or return and newline, between them. |
| Jsonl.LinesRejoined | packages/eval-flywheel/src/jsonl.js:8 | Every text is put together again from its lines in this way. |
| Jsonl.TrimExactly | packages/eval-flywheel/src/jsonl.js:9 | `trim` takes away the blanks at both ends and nothing else. |
| Jsonl.CanonIsALine | packages/eval-flywheel/src/jsonl.js:9-26 | A canonical case has no line break, and `trim` leaves it alone. |
| Jsonl.ParseWritten | packages/eval-flywheel/src/jsonl.js:22-27 | Written cases are read back from any line number and any set of other ids. |
| Jsonl.JsonlRoundTrip | packages/eval-flywheel/src/jsonl.js:4-27 | A list is written exactly when all cases are valid with distinct ids, and reading gives the same cases back up to key order. |
| Jsonl.FirstInvalidExactly | packages/eval-flywheel/src/jsonl.js:22-27 | When a list with an invalid case is written, the error is that of its first invalid case. |
| Jsonl.JsonlFixedPoint | packages/eval-flywheel/src/jsonl.js:4-27 | Whatever text is accepted, writing its cases succeeds, and reading and writing once more changes nothing. |
| Promotion.AcceptExactly | packages/eval-flywheel/src/cases.js:58-66 | Promotion succeeds exactly for a valid candidate, a valid reference and a named reviewer; the result passes validation and carries the digest of its own contents. |
| Promotion.PromotionKeeps | packages/eval-flywheel/src/cases.js:58-66 | Promotion keeps the id and every property it does not set, and what it made cannot be promoted again. |
| Promotion.DigestBinds | packages/eval-flywheel/src/cases.js:15-19 | With a collision-free hash two cases have the same digest exactly when they agree, up to key order, on everything but the stored digest. |
| Graders.AtPathComposes | packages/eval-flywheel/src/graders.js:3-6 | Following a dotted path is following its parts one after the other. |
| Graders.AtPathOne | packages/eval-flywheel/src/graders.js:3-6 | A path without dots reads one property, and the empty path the value itself; with `AtPathComposes` this determines every path. |
| Graders.PropertyOfArray | packages/eval-flywheel/src/graders.js:3-6 | The properties of an array are its length and its elements, under the decimal text of their index. |
| Graders.SubsetIsPartialOrder | packages/eval-flywheel/src/graders.js:8-13 | `subset` is reflexive and transitive, and holds both ways exactly for values equal up to key order. |
| Graders.SubsetExactly | packages/eval-flywheel/src/graders.js:8-13 | `subset` passes if and only if every place that the expected value has, at any depth, is in the actual one and agrees with it: an array for an array, an object for an object, and else the same value. |
| Graders.MoreIsSubset | packages/eval-flywheel/src/graders.js:8-13 | A longer array and further properties do not make it fail. |
| Graders.OrderedValues | packages/eval-flywheel/src/graders.js:15-22 | The greedy scan passes if and only if the expected values are a subsequence of the actual list. |
| Graders.WantedExactly | packages/eval-flywheel/src/graders.js:15-22 | What the scan reads of `values` of any shape: there is a list to compare with exactly when its `length` is a number and all its properties below that are there; only `null`, and a length without a text, make it throw. |
| Graders.GradeEvaluation | packages/eval-flywheel/src/graders.js:24-45 | For each grader: when the evaluation passes, stated without the scan and without printing, and when it throws, for expectations of any shape. |
| Graders.ErrorCodePasses | packages/eval-flywheel/src/graders.js:27-29 | The error grader compares the error's code, else its name, else `null`, and passes exactly when that is the expected code and no object or array. |
| Graders.ExactImpliesSubset | packages/eval-flywheel/src/graders.js:32-40 | What passes as exact passes as a subset, and as the ordered values of its own list. |
| Kernel.ServeWrites | deploy/cloudflare-kernel/src/index.js:54-146 | A refused request changes nothing; a write is the first submit, or one legal event on top of a live snapshot, whatever the patch. |
| KernelFields.SubmitExactly | deploy/cloudflare-kernel/src/index.js:57-95 | A submit is refused without a valid task; the first one stores the snapshot with the task, its ids and the digest of its canonical text; a later one is a replay exactly when that digest is on file. |
| KernelFields.ValidTaskExactly | deploy/cloudflare-kernel/src/kernel-contract.js:24-33 | A task is valid if and only if each of its four strings has a character that is no blank, and its acceptance is a list that is not empty. |
| KernelFields.StateNamedExactly | deploy/cloudflare-kernel/src/kernel-contract.js:3-10 | A text names a kernel state exactly when it is the word for it. |
| KernelFields.PatchedExactly | deploy/cloudflare-kernel/src/kernel-contract.js:40-63 | After one event a property other than the five fixed ones is the patch's where the patch has it, and the old one otherwise; a fixed one never comes from a patch. |
| KernelFields.ContextLeaves | deploy/cloudflare-kernel/src/index.js:101-117 | An accepted delta leaves `context_need` null, the digest of its canonical text and its packet id, and every other property as it was. |
| KernelFields.CancelLeaves | deploy/cloudflare-kernel/src/index.js:119-126 | A cancel of a live task leaves the error object and every other property as it was. |
| KernelFields.TransitionExactly | deploy/cloudflare-kernel/src/index.js:128-140 | When a transition is refused, and why, and when it is taken. |
| KernelFields.TransitionLeaves | deploy/cloudflare-kernel/src/index.js:128-140 | A transition that is taken leaves the named state, the kind and the time, each property that its patch sets, and every other one as it was. |
| Kernel.AcceptedExactly | deploy/cloudflare-kernel/src/index.js:101-117 | A delta is accepted exactly when the task waits for input and the delta names its identity, the open request and the stored sequence number; the task then works on at the next number. |
| KernelFields.AcceptedByFields | deploy/cloudflare-kernel/src/index.js:101-110 | The same in the delta's own fields: task id, attempt id, `expected_seq` and the `request_id` of the open request. |
| Kernel.CancelSucceeds | deploy/cloudflare-kernel/src/index.js:119-126 | A live task can always be cancelled. |
| Kernel.OneEventKeepsLog | deploy/cloudflare-kernel/src/kernel-contract.js:40-63 | One more event keeps the log: min(seq, 256) events, consecutive up to `seq`, each starting where the one before ended. |
| Kernel.HistoryChained | deploy/cloudflare-kernel/src/index.js:54-146 | On every run the stored snapshots are numbered 1, 2, 3, ..., each one legal event on top of the one before. |
| Kernel.LogRebuilds | deploy/cloudflare-kernel/src/kernel-contract.js:40-63 | On every run, replaying the bounded log from the snapshot just before its first event gives the stored snapshot back. |
| KernelFields.LogExplains | deploy/cloudflare-kernel/src/kernel-contract.js:40-63 | On every run each property of the stored snapshot is what the last logged patch with that property set, or else what it was before the first logged event. |
| Kernel.AcceptedInSequence | deploy/cloudflare-kernel/src/index.js:101-117 | On every run a later accepted delta expected a larger sequence number: no two share one. |
| Kernel.EndedStays | deploy/cloudflare-kernel/src/index.js:119-140 | Once terminal, the stored snapshot never changes again. |
| TaskKernelObject.TaskKernel.Submit | deploy/cloudflare-kernel/src/index.js:57-95 | The submit route, replay and conflict included. |
| TaskKernelObject.TaskKernel.Fetch | deploy/cloudflare-kernel/src/index.js:54-146 | One atomic request leaves the storage and gives the answer that `Serve` computes. |
| StreamReader.ReadLatestSnapshotFromRun | deploy/vercel-chatgpt-app/lib/vercel-workflow-projection.js:32-76 | The loop returns the last snapshot of the window, or nothing, or refuses the window size. |
| StreamReader.WindowIsEnough | deploy/vercel-chatgpt-app/lib/vercel-workflow-projection.js:32-76 | The window shows what a full scan shows if and only if the stream has no snapshot or fewer than `maxEvents` rejections follow the last one. |
| StreamReader.ReaderFollowsRun | deploy/vercel-chatgpt-app/lib/vercel-workflow-projection.js:32-76 | On every run the reader shows the state the run is in exactly while that condition holds. |
| DriveProjection.Projector.ProjectTaskSnapshot | packages/drive-adapter/src/projections.js:33-63 | Find, read, compare, create or overwrite: folder and answer are those of `Project`. |
| DriveProjection.ReadBack | packages/drive-adapter/src/projections.js:7-31 | What is read from a written file is the snapshot up to key order. |
| DriveProjection.ProjectStep | packages/drive-adapter/src/projections.js:33-63 | One call replaces the file of its own task exactly when the snapshot is newer, or differs at the same number, and no other task's file changes. |
| DriveProjection.AnswerExactly | packages/drive-adapter/src/projections.js:33-63 | When the answer is stale, a replay or applied, with which file and number, and that only the last changes the folder. |
| DriveProjection.ErrorsExactly | packages/drive-adapter/src/projections.js:33-41 | When the call throws, for a value that is no snapshot or a file that does not parse; the folder then stays. |
| DriveProjection.UnnumberedFile | packages/drive-adapter/src/projections.js:38-43 | A file without a sequence number counts as number -1, and one with something that is no number is always overwritten. |
| DriveProjection.ProjectedHolds | packages/drive-adapter/src/projections.js:33-63 | After any snapshots of any tasks, in any order and with any repeats, each task's file holds the snapshot that `Held` names. |
| DriveProjection.HeldIsNewest | packages/drive-adapter/src/projections.js:36-41 | That snapshot has the largest sequence number of its task. |
| DriveProjection.HeldNeverLowers | packages/drive-adapter/src/projections.js:36-41 | Later calls never lower the number a task's file shows. |
| DriveProjection.ProjectionConverges | packages/drive-adapter/src/projections.js:33-63 | When equal numbers mean equal snapshots, two ways to project the same snapshots of a task leave the same file. |
| DriveProjection.RepeatChangesNothing | packages/drive-adapter/src/projections.js:9-53 | Projecting the same snapshot twice is projecting it once if and only if the task id has at most 120 code units. |

## Left out

- Numbers are integers or opaque number tokens: two tokens of one number, such as `1.0` and `1e0`, count as different values, `-0` does not occur, and integers beyond 2^53 are not rounded. `undefined` inside a value, `NaN` and `__proto__` keys do not occur, and integer-like keys are not moved to the front of an object.
- Graders.GradeEvaluation: inherited properties on a path count as missing, and the result's own `grader` field is left out.
- Adoption.ExactlyOnceAdoption: one system is one effect key, with its own ledger and lock file; attempts with other keys would work on other files. Object paths and the indentation of stored bytes are abstracted by the hash and size of a document. A ledger file always parses, since it is only ever renamed into place.
- Adoption.BackedStep: references are to the object store. The code reads any `file://` path, and a report or provenance file outside the store could change after it was read; its digest and size are checked when it is read.
- RuntimeRoot.Root.AdoptArtifact: other workers are any change that keeps a good ledger good, an adoption and the stored objects; that they do is `Adoption.AdoptionStep` and `Adoption.PutKeepsReads`. The operation under the lock is one step there and is split into steps, with crashes, in `Adoption`.
- Equivalence.BackendsAgree: cancelled runs are left out, since only Temporal has a cancel handler, and error values are not compared, since the two backends word them differently.
- Vercel.RunRefines: emitting an event is assumed to succeed. The native cancel of the platform, the owner hook and its duplicate answer, `compact_result` and the `effect` field are not part of this model; an error of a step is its message.
- VercelAdoption.CompletedWasAdopted: the step reads report and provenance from the verifier's answer, not from a store, so the result is about what that answer carried.
- Temporal.RunRefines: results of activities carry the fields they promise, except that a context need may be missing. Timeouts and retries of the SDK appear only as thrown answers.
- Kernel.LogRebuilds: each request is atomic, though the code awaits between reading and writing; an event's patch is kept as the properties it spreads. Response bodies, routes and the bearer check are not part of this model.
- DriveProjection.ProjectedHolds: snapshots of tasks whose ids have more than 120 code units are excluded; such an id writes a file under the name of its first 120 code units, where it can stand in for another task. Retries, permissions and the mailbox are not part of this model, and a file that the projector did not write may have a sequence number that is not an integer, which counts as NaN.
- Provenance.ReportExactly: of a check only id, kind, status and `required` are modelled, not its summary and evidence; of a provenance record not its source, agent, policy and sandbox fields, which nothing reads.
- `makeEvalCandidate` and `synthesizeSnapshotForRunStatus`: one-pass constructors that would add only easy members.
- Active-run ownership of the Vercel backend, HTTP and MCP routes, traces, CloudEvents, context-cache keys, session recovery, routing, policy evaluation, timestamps: plumbing or small tables.
- Termination of the turn loop: an agent may ask for context for ever. A run whose script of answers ends is suspended where it stands.
