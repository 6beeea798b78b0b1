# AgentFlow-Hermes: a verified model

A Dafny model of the parts of AgentFlow-Hermes that must not go wrong
unattended: the daemon that turns board events into durable follow-up work, the
ledgers that bound what it may do on its own, two data migrations, the parser
and printer of the roadmap config, and the live-send throttle. Check it with
`dafny verify dfyconfig.toml`.

## What is modelled

**The continuation protocol** (`Domain`, `Store`, `Adapter`, `Backoff`,
`Callbacks`, `History`, `Protocol`, `Outbox`, `Handlers`, `CodeFix`, `Refusal`,
`InputContract`, `OwnerInput`, `Reconcile`, `Engine`, `Daemon`, `Scenarios`).
`agentflowd` reads board events in sequence, creates one continuation instance
per event, carries it out through a durable outbox, and moves the board cursor
only past recorded work. `ContinuationStore`, `BoardAdapter` and `Daemon` are
classes with the source's tables as fields.

- Every store method is one committed write. Any of them may instead return
  `Crashed` and leave the tables as they were; `:-` then abandons the rest of
  the caller. So a crash may fall between any two store or adapter calls,
  also after an adapter call and before its mark.
- The adapter may fail, or act and then report failure, at every call. It
  deduplicates creates by idempotency key. The ghost counter `failures` counts
  mutations not answered with full success, so "the adapter cooperates" is
  `failures == old(failures)`. The ghost counter `crashes` is used the same way.
- `Protocol.Inv` says what the tables and the board always agree on, and
  `Daemon.Daemon.Run` keeps it over any sequence of board events, ticks, outbox
  passes, polls and owner calls, each of which may die part way.
- The main theorems read off `Daemon.Daemon.Ok`, the invariant of every
  reachable state: `FixBehindCursor`, `RefusalBehindCursor`, `RowsInEveryRun`,
  `LogsInEveryRun`, `OwnerStepsInEveryRun`, `AcksInEveryRun`, `WakesInEveryRun`,
  `TriesInEveryRun`.
- Retry bounds are proved about runs of single visits to a row (`Callbacks`,
  `Backoff`). The ghost `Adapter.Book` records every visit that was made to every
  row, lost ones included, and how often its wake was scheduled and its ACK
  recorded. That each row is what its recorded visits make of a fresh one
  (`History.HistoryOk`) is part of the daemon's invariant, so the bounds hold in
  every reachable state.
- `Scenarios` builds two runs write by write; every write keeps the invariant, and
  `CrashStatesOk` and `EdgeStatesOk` show the daemon's own `Ok` where they end.

**Bounded autonomy** (`LoopSupervisor`, `RoadmapTemplates`, `Roadmap`). Both
ledgers are append-only receipt lists from which every counter is recomputed.
The bounds hold because each receipt was decided on exactly the receipts before
it. Roadmap apply works on a shadow ledger that is committed only when no create
can fail any more.

**Migrations** (`OriginMigration`, `LegacyMigration`), **parser and printer**
(`YamlText`, `Yaml`, `YamlPrint`, `RoadmapRegister`) and **throttle**
(`Throttle`, live dispatch included) follow the source's loops; each loop is
proved against a function, and the laws are lemmas about the functions.

## Where the code does less than it says

1. A success whose nested ACK failed must never count as applied
   (`continuations/base.py:256-261`), but `reconcile_outbox` looks at the
   top-level success only (`continuation_engine.py:408-410`). Both drivers ensure
   which row they store for the adapter's answer (`Outbox.Attempt`,
   `Reconciler.RetryMutation`); `Outbox.DriversDifferIff` says for which answers
   the two rows differ, and `Scenarios.NestedAckCountsAsApplied` runs a code-fix
   event to a return edge that one keeps pending and the other counts as applied.
2. A crash between the GO transition and the review step lets a packet rerun
   start without a review (`continuations/owner_input.py:261-263`, `305-307`).
   `Scenarios.CrashSkipsReview` runs there, the invariant holding before and
   after (`CrashStatesOk`). A review precedes every rerun as long as nothing has died
   (`Daemon.OwnerStepsInEveryRun`), and a single call keeps reviews and reruns
   together exactly when the instance had its review when it was made
   (`OwnerInputHandler.AdvanceAfterReview`).
3. The refusal handler re-marks a wake row without a retry cap
   (`continuations/semantic_refusal.py:262-273`): `Callbacks.HandlerNeverGivesUp`.
   `CapKeptIff` says which turns keep the cap, `CapHoldsIff` along which runs it
   holds, and `HandlerSafeIff` when it is safe before the handler is called.
   The same handler does not know the deadletter
   (`continuations/semantic_refusal.py:217-260`, against `base.py:160-161`), so a
   wake given up on can come back: `Callbacks.DeadletterStaysIff` gives the exact
   condition, `Callbacks.DeadletterRevived` such a run from a fresh row.
4. The loop supervisor's round budget is stretched by negative round numbers,
   by exactly as much as they are negative (`RoundBudget`, `RoundBudgetReached`),
   and events without a graph id are stored under `unknown_graph` while lookups
   ask for the empty id, so nothing bounds them (`EmptyGraphUnbounded`).
5. `observe_only` is to make no graph proposal
   (`docs/mp4-bounded-remediation-loop-supervisor.md:132`), but the supersession
   path has no such gate (`loop_supervisor.py:464-510`).
   `LoopSupervisor.SupersedesIff` lists the gates it has, `ObserveOnlyGrants` gives
   a case.
6. A migrated outbox row loses its backoff and its last error
   (`continuation_store.py:1255-1264`). A wake that was scheduled, and that no run
   would schedule again, is scheduled again after the migration if and only if
   its instance is in the legacy file, its key was free and it was not applied
   (`LegacyMigration.MigratedWakeIff`, over `Callbacks.ForgettingIff`).
7. The printer promises exact round trips (`roadmap_register.py:99-103`).
   `RoadmapRegister.InputsRoundTripIff` gives the exact condition among the
   values the validators accept.
8. The colon-joined instance key is unambiguous among all tuples exactly when no
   component holds a colon (`Domain.KeyUnambiguousIff`); with colon-free board,
   event and source ids the contract reference may hold one
   (`Domain.InstanceKeyInjective`).

## Model

| member | source | states |
|---|---|---|
| Domain.InstanceKeyInjective | src/agentflow_hermes/continuation_store.py:293 | Source tuples with colon-free board, source and event ids never share an instance key |
| Domain.KeyUnambiguousIff | src/agentflow_hermes/continuation_store.py:293 | A tuple's key belongs to no other tuple if and only if none of its four components holds a colon |
| Store.EveryRunKeepsLogs | src/agentflow_hermes/continuation_store.py:337-354 | Under any interleaving of creates, transitions and receipts every event log stays numbered 1..n and stays a legal chain from DETECTED to the stored state |
| Store.TransitionKeepsLog | src/agentflow_hermes/continuation_store.py:337-354 | One transition, legal or refused, keeps log and state in step |
| Store.ReceiptKeepsLog | src/agentflow_hermes/continuation_store.py:423-450 | An owner receipt takes the next log number and moves no state |
| Store.TerminalAbsorbs | src/agentflow_hermes/continuation_store.py:177-182 | After RESUMED or BLOCKED_INVALID a log holds no further transition and leads to the same state |
| Store.TerminalStays | src/agentflow_hermes/continuation_store.py:344-348 | No run of writes changes a terminal instance |
| Store.ContinuationStore.CreateInstance | src/agentflow_hermes/continuation_store.py:277-320 | One instance per source tuple: an existing one is returned unchanged; a crash changes nothing |
| Store.ContinuationStore.Transition | src/agentflow_hermes/continuation_store.py:337-354 | Moves state and log together, only along a legal transition of a known, non-terminal instance |
| Store.ContinuationStore.AddStep | src/agentflow_hermes/continuation_store.py:358-386 | One step per instance and key, the first one kept |
| Store.ContinuationStore.MarkStep | src/agentflow_hermes/continuation_store.py:388-397 | Marks applied; an empty board id keeps the id already there |
| Store.ContinuationStore.AddOwnerReceipt | src/agentflow_hermes/continuation_store.py:423-450 | The next receipt version is one above the greatest, logged in the same write |
| Store.ContinuationStore.RecordSatisfaction | src/agentflow_hermes/continuation_store.py:684-715 | Adds one satisfaction and nothing else |
| Store.ContinuationStore.AdvanceCursor | src/agentflow_hermes/continuation_store.py:513-529 | The cursor becomes the maximum of old and new value |
| Store.ContinuationStore.Enqueue | src/agentflow_hermes/continuation_store.py:533-560 | One row per idempotency key, the first one kept |
| Store.ContinuationStore.Mark | src/agentflow_hermes/continuation_store.py:562-593 | One attempt more; an applied row loses its retry schedule and last error |
| Adapter.BoardAdapter.CreateTask | src/agentflow_hermes/board_adapter.py:157-164 | A repeated key never makes a second board item; failure may be reported before or after the effect |
| Adapter.BoardAdapter.Subscribe | src/agentflow_hermes/board_adapter.py:172-176 | At most this one edge is added; success means it is there |
| Backoff.DelayValues | src/agentflow_hermes/continuations/base.py:148-153 | The delays are 5, 10, 20, 40, 80, 160 seconds and 300 from the seventh attempt on |
| Backoff.DelayBoundedMonotone | src/agentflow_hermes/continuations/base.py:149-152 | Delays grow monotonically within [5, 300] |
| Backoff.SpanValues | src/agentflow_hermes/continuations/base.py:148-153 | The summed delays are 5, 15, 35, 75, 155, 315 and 300 more for each further attempt |
| Backoff.AttemptsAreSpaced | src/agentflow_hermes/continuations/base.py:123-154 | Over any run of visits and crashes an attempt made after n recorded ones comes at least the sum of n delays after the first |
| Callbacks.CallbackRetryCap | src/agentflow_hermes/continuations/base.py:197-244 | Over any interleaving of both drivers a consumer-ACK row is pending with at most 4 attempts, applied with at most 5, deadlettered with 5 or 6, and is recorded at most five times beyond marks lost in crashes |
| Callbacks.AckRunCapped | src/agentflow_hermes/continuation_engine.py:331-337 | From any capped row a run's record calls are paid for by its attempts |
| Callbacks.DeadletterAbsorbs | src/agentflow_hermes/continuations/base.py:201-206 | A deadlettered ACK row never changes and costs no adapter call or probe |
| Callbacks.AtMostOneWake | src/agentflow_hermes/continuations/semantic_refusal.py:217-260 | Across all three drivers at most one successful schedule call per wake row, plus one per crash between call and mark; once scheduled, the row is applied or waits for acceptance |
| Callbacks.WakeDoneStays | src/agentflow_hermes/continuation_engine.py:370-381 | A wake that is applied or waits for acceptance stays so and is never scheduled again |
| Callbacks.ForgettingIff | src/agentflow_hermes/continuation_store.py:1255-1264 | No driver schedules a wake that is applied or waits for acceptance; once its schedule and last error are forgotten some turn does if and only if it is not applied |
| Callbacks.WakeRunCapped | src/agentflow_hermes/continuations/base.py:157-186 | The same attempt bounds hold for wake rows that the refusal handler does not drive |
| Callbacks.LastRetryIff | src/agentflow_hermes/continuations/semantic_refusal.py:262-273 | An undelivered attempt at a capped wake row ends in the deadletter if and only if at least four came before and the driver is not the refusal handler |
| Callbacks.CapKeptIff | src/agentflow_hermes/continuations/semantic_refusal.py:217-260 | Exactly which turns, of any driver, keep a capped wake row capped |
| Callbacks.CapHoldsIff | src/agentflow_hermes/continuations/semantic_refusal.py:217-273 | A capped wake row stays capped all along a run if and only if every turn of the run is one of those |
| Callbacks.HandlerSafeIff | src/agentflow_hermes/continuations/semantic_refusal.py:217-273 | The refusal handler keeps the cap whatever it is answered if and only if the row is not deadlettered and has attempts left, or is pending and still backing off |
| Callbacks.DeadletterStaysIff | src/agentflow_hermes/continuations/semantic_refusal.py:217-260 | A deadlettered wake stays so along a run if and only if every turn is another driver's, lost, or an unanswered one that comes too early |
| Callbacks.DeadletterRevived | src/agentflow_hermes/continuations/semantic_refusal.py:217-260 | From a fresh row, five refused passes over the outbox deadletter a wake and one turn of the handler makes it pending again with six attempts |
| Callbacks.HandlerNeverGivesUp | src/agentflow_hermes/continuations/semantic_refusal.py:262-273 | For every n, n refused visits of that handler leave a pending row with n attempts |
| Protocol.ExactlyOnce | src/agentflow_hermes/continuations/code_fix.py:31-38 | Different clean sources never share a board item, and a code-fix source has at most the fix and the review under its digest |
| Protocol.FixTasksOnly | src/agentflow_hermes/continuations/code_fix.py:104-159 | Nothing but the fix and the review exists under a code-fix digest |
| Protocol.GraphOnBoard | src/agentflow_hermes/continuations/code_fix.py:138-183 | A graph recorded as applied is on the board, the review parented to the fix and the return edge on the review |
| Protocol.RefusalHasNoTasks | src/agentflow_hermes/continuations/semantic_refusal.py:60-61 | A refusal never leads to a board item |
| Protocol.EnqueueKeeps | src/agentflow_hermes/continuation_store.py:533-560 | Enqueueing a well-formed row keeps the global invariant |
| Protocol.BoardKeeps | src/agentflow_hermes/continuations/base.py:109-114 | A create that reaches the board had its row first, so the invariant survives a crash right after it |
| Protocol.MarkKeeps | src/agentflow_hermes/continuation_store.py:562-593 | Marking any row that is not an applied mutation keeps the invariant |
| Protocol.AddStepKeeps | src/agentflow_hermes/continuation_store.py:358-386 | Opening a step of the instance's kind keeps the invariant |
| Protocol.MarkStepKeeps | src/agentflow_hermes/continuation_store.py:388-397 | Marking a step with its applied row's id keeps the invariant |
| Protocol.RowsOfOne | src/agentflow_hermes/continuations/code_fix.py:31-38 | Work under one source's digest changes no row of another source |
| Protocol.CreateKeeps | src/agentflow_hermes/continuation_store.py:277-320 | A new instance keeps the invariant |
| Protocol.TransitionKeeps | src/agentflow_hermes/continuation_store.py:337-354 | Waiting for review only with the whole graph applied, quarantine only with the refusal acknowledged: such moves keep the invariant |
| Outbox.DriversDifferIff | src/agentflow_hermes/continuation_engine.py:408-410 | For every row and every answer, the rows the two drivers of a mutation store differ in state if and only if the answer is a success with a failed nested ACK: one applied, one pending; otherwise they agree up to the error text |
| Outbox.CallMutation | src/agentflow_hermes/continuations/base.py:129-138 | Whatever the adapter answers, store and board still agree, and success names the item of this key |
| Outbox.Attempt | src/agentflow_hermes/continuations/base.py:129-154 | One call, one recorded outcome: the stored row is the judgement of the adapter's answer, applied exactly when neither the answer nor its nested ACK failed, and is noted in the row's history |
| Outbox.ApplyMutation | src/agentflow_hermes/continuations/base.py:97-154 | Enqueue, due check, call and mark change exactly this row by one visit; an applied or waiting row costs no call; a due row with a cooperating adapter ends applied |
| Outbox.MarkFailed | src/agentflow_hermes/continuations/base.py:234-244 | A failed callback goes back to pending, or to the deadletter on its fifth attempt |
| Outbox.DriveAck | src/agentflow_hermes/continuations/base.py:197-231 | The row changes by one turn of the run model, the adapter is asked and called as that turn says, and the turn is noted in the row's history |
| Outbox.DriveWake | src/agentflow_hermes/continuations/base.py:157-186 | The row changes by one turn, which is noted with its accepted schedule call in the row's history |
| History.HistoryTried | src/agentflow_hermes/continuations/base.py:123-154 | One visit to a mutation row, noted under its key, keeps every row the result of its recorded visits |
| History.HistoryAcked | src/agentflow_hermes/continuations/base.py:197-244 | So does one turn at a consumer ACK, its record call counted |
| History.HistoryWoken | src/agentflow_hermes/continuations/semantic_refusal.py:217-260 | So does one turn of any driver at an origin wake, its accepted schedule call counted |
| Handlers.CreateOnBoard | src/agentflow_hermes/continuations/code_fix.py:257-271 | The create behind a step: success means the row is applied under the returned id |
| CodeFixHandler.Create | src/agentflow_hermes/continuations/code_fix.py:234-271 | Step and create under one key, reusing an id already known |
| CodeFixHandler.BuildTasks | src/agentflow_hermes/continuations/code_fix.py:107-159 | Fix then review; success means both rows are applied and both steps exist |
| CodeFixHandler.ReturnEdge | src/agentflow_hermes/continuations/code_fix.py:165-210 | The return edge decides, the consumer ACK is best effort |
| CodeFixHandler.Enter | src/agentflow_hermes/continuations/code_fix.py:96-102 | A detected or failed instance goes to work; the handler runs only from MATERIALIZING or WAITING_REVIEW |
| CodeFixHandler.Finish | src/agentflow_hermes/continuations/code_fix.py:273-280 | A built graph ends in WAITING_REVIEW, anything else in FAILED_RETRYABLE |
| CodeFixHandler.Advance | src/agentflow_hermes/continuations/code_fix.py:96-232 | Ends in WAITING_REVIEW on success and in FAILED_RETRYABLE otherwise |
| CodeFixHandler.Materialize | src/agentflow_hermes/continuations/code_fix.py:50-232 | From every state a run can leave behind: with a cooperating adapter and every pending row due it succeeds, and success means WAITING_REVIEW; a replay while no row is due changes nothing and makes no call |
| SemanticRefusalHandler.MarkWakePending | src/agentflow_hermes/continuations/semantic_refusal.py:262-273 | Backoff without the retry cap |
| SemanticRefusalHandler.EnsureWake | src/agentflow_hermes/continuations/semantic_refusal.py:191-260 | The wake row changes by one turn of the handler, which is noted with its accepted schedule call in the row's history |
| SemanticRefusalHandler.Quarantine | src/agentflow_hermes/continuations/semantic_refusal.py:85-109 | Acknowledged first, then BLOCKED_INVALID, whatever state it was found in |
| SemanticRefusalHandler.Callbacks | src/agentflow_hermes/continuations/semantic_refusal.py:111-164 | Wake and ACK rows are enqueued; their delivery touches neither board items nor edges |
| SemanticRefusalHandler.Materialize | src/agentflow_hermes/continuations/semantic_refusal.py:51-181 | Short of a crash it always succeeds in quarantine, with no board item and no edge added |
| InputContracts.Validate | src/agentflow_hermes/input_contract.py:91-124 | The errors are exactly the submission's faults; a faultless submission comes back whole, any other not at all |
| OwnerInputHandler.OpenTask | src/agentflow_hermes/continuations/owner_input.py:151-161 | A step that fits the order and, when new, its create; at most this one step is added |
| OwnerInputHandler.Anchor | src/agentflow_hermes/continuations/owner_input.py:151-171 | The anchor step exists; a new one is on the board when the adapter cooperates |
| OwnerInputHandler.Await | src/agentflow_hermes/continuations/owner_input.py:114-133 | A new instance waits for its owner, a known one is untouched |
| OwnerInputHandler.Plan | src/agentflow_hermes/continuations/owner_input.py:102-178 | One waiting anchor per event, keeping the order of all owner steps |
| OwnerInputHandler.Accept | src/agentflow_hermes/continuations/owner_input.py:202-208 | Exactly one receipt, then INPUT_ACCEPTED |
| OwnerInputHandler.CloseAnchor | src/agentflow_hermes/continuations/owner_input.py:210-220 | An anchor the board knows gets a completion row for this receipt |
| OwnerInputHandler.Resume | src/agentflow_hermes/continuations/owner_input.py:210-234 | From an accepted receipt to MATERIALIZING with the materialization step |
| OwnerInputHandler.OnReceipt | src/agentflow_hermes/continuations/owner_input.py:180-241 | Accepted if and only if the instance waits and the submission is faultless; refused without a trace or a call; accepted with exactly one receipt |
| OwnerInputHandler.AdvanceAfterMaterialization | src/agentflow_hermes/continuations/owner_input.py:243-285 | A review step only behind GO from MATERIALIZING; any other verdict parks the instance and calls nothing |
| OwnerInputHandler.AdvanceAfterReview | src/agentflow_hermes/continuations/owner_input.py:287-331 | A rerun step only behind GO from WAITING_REVIEW; it adds no review, so the rerun has one if and only if the instance had |
| OwnerInputHandler.RunPacket | src/agentflow_hermes/continuations/owner_input.py:305-331 | The rerun step, then RESUMED |
| OwnerInputHandler.MoveKeepsOrder | src/agentflow_hermes/continuations/owner_input.py:257-261 | A move that fits keeps: materialization behind a receipt, review behind its GO, rerun behind both GOs |
| Scenarios.CrashSkipsReview | src/agentflow_hermes/continuations/owner_input.py:261-263 | For every owner-input event a run with one crash, between GO and review step, and the next review GO reach RESUMED with a rerun and no review; store, board, histories and step order agree in both states |
| Scenarios.CrashStatesOk | src/agentflow_hermes/continuations/owner_input.py:243-331 | A daemon that has died once and holds the tables, board and histories of either end of that run satisfies the invariant of every reachable state |
| Scenarios.NestedAckCountsAsApplied | src/agentflow_hermes/continuation_engine.py:408-410 | For every code-fix event with an endpoint a run reaches a due return edge whose ACK repair failed; the same answer keeps it pending for the handler and applied, the graph done, for the outbox pass; the invariant holds in both states |
| Scenarios.EdgeStatesOk | src/agentflow_hermes/continuation_engine.py:320-420 | A daemon that holds the tables, board and histories of either end of that run satisfies the invariant of every reachable state |
| Reconciler.RetryMutation | src/agentflow_hermes/continuation_engine.py:352-410 | One visit to a due mutation row: the stored row is the judgement of the answer, applied exactly on its top-level success; success marks the row's step; the visit is noted in the row's history |
| Reconciler.RetryAck | src/agentflow_hermes/continuation_engine.py:384-405 | Probe, record, verify: one turn at a due ACK row, noted in its history |
| Reconciler.RetryWake | src/agentflow_hermes/continuation_engine.py:364-381 | Probe, schedule at most once, verify: one turn at a due wake row, noted in its history |
| Reconciler.RetryRow | src/agentflow_hermes/continuation_engine.py:354-419 | One recorded attempt on this row; every other row is untouched |
| Reconciler.Reconcile | src/agentflow_hermes/continuation_engine.py:320-420 | Rows not due at the start are untouched, every due row gets exactly one attempt, a cooperating board leaves every due mutation applied |
| Engine.RouteOwnerInput | src/agentflow_hermes/continuation_engine.py:88-209 | No contract leaves everything as it was, asking leaves an anchor, a resolved event its automatic receipt; each keeps the order of owner steps |
| Engine.AutoResolve | src/agentflow_hermes/continuation_engine.py:145-193 | No anchor, every satisfaction, and the materialization exactly when an owner's submission would have started it |
| Engine.RegisterWait | src/agentflow_hermes/continuation_engine.py:225-267 | A new external wait is MATERIALIZING with one condition, a known one is untouched |
| Engine.PolledMeans | src/agentflow_hermes/continuation_engine.py:303-315 | Met means RESUMED, failed means FAILED_RETRYABLE, and a settled condition is never pending again |
| Engine.PollOne | src/agentflow_hermes/continuation_engine.py:295-316 | One answered condition changes the tables exactly so |
| Engine.Poll | src/agentflow_hermes/continuation_engine.py:277-317 | Every pending condition gets one answer and its instance moves as the answer says; nothing but external waits moves |
| Engine.RouteEvent | src/agentflow_hermes/continuation_engine.py:474-633 | The cursor may pass an event only when its work is durable; only a failed fix graph or roadmap step holds it back, and a fix graph never does when nothing fails and nothing backs off; without apply nothing is written and nobody called |
| Engine.Call | src/agentflow_hermes/continuations/owner_input.py:180-331 | An owner call is acted on if and only if state and verdict or submission allow it, then reaches its state, and moves only owner-input instances |
| Engine.Retry | src/agentflow_hermes/continuation_engine.py:320-420 | A pass over the outbox gives each due row one attempt and moves no instance and no cursor |
| Daemon.Daemon.Append | src/agentflow_hermes/board_events.py:157-158 | Events arrive in increasing sequence and disturb nothing stored |
| Daemon.Daemon.SeedCursor | src/agentflow_hermes/daemon.py:364-367 | A board without a cursor row is seeded, so its history is not replayed |
| Daemon.Daemon.FirstAfter | src/agentflow_hermes/board_events.py:224-235 | The batch starts right behind the cursor |
| Daemon.AheadStep | src/agentflow_hermes/continuation_engine.py:453-457 | Handling one event leaves the rows of every later event as due as they were |
| Daemon.Daemon.Pass | src/agentflow_hermes/continuation_engine.py:453-479 | One event: passed means settled, with everything passed before it still settled |
| Daemon.Daemon.MoveCursor | src/agentflow_hermes/continuation_engine.py:635 | The cursor stands at the last event passed, and everything up to it is settled |
| Daemon.Daemon.Ingest | src/agentflow_hermes/continuation_engine.py:423-642 | Exactly the batch, or its prefix before the first event that must be retried, is passed, and the cursor is that prefix's last event; the whole batch when the board cooperates, nothing backs off and no roadmap step is refused |
| Daemon.Daemon.Tick | src/agentflow_hermes/daemon.py:339-384 | Seeds once, then passes its batch as above; the cursor never goes back |
| Daemon.Daemon.Run | src/agentflow_hermes/daemon.py:482-546 | Any sequence of events, ticks, outbox passes, polls and owner calls with crashes anywhere keeps the invariant; the cursor never goes back |
| Daemon.FixBehindCursor | src/agentflow_hermes/continuation_engine.py:549-570 | In every reachable state a code-fix event between seed and cursor has its fix, its review parented to it, nothing else under its digest, and its return edge when it has an endpoint |
| Daemon.RefusalBehindCursor | src/agentflow_hermes/continuation_engine.py:587-612 | In every reachable state a refusal between seed and cursor is acknowledged, quarantined and has no board item |
| Daemon.RowsInEveryRun | src/agentflow_hermes/continuations/code_fix.py:119-183 | In every reachable state ACK rows keep their retry bounds, a review row implies an applied fix row, a subscribe row an applied review row |
| Daemon.AcksInEveryRun | src/agentflow_hermes/continuations/base.py:197-244 | In every reachable state record_consumer_ack was called for a row at most five times, plus once per crash |
| Daemon.WakesInEveryRun | src/agentflow_hermes/continuations/semantic_refusal.py:217-260 | In every reachable state a wake was scheduled at most once, plus once per crash, and one scheduled more often than crashes explain is applied or waits for acceptance |
| Daemon.TriesInEveryRun | src/agentflow_hermes/continuations/base.py:123-154 | In every reachable state a due create, subscribe or completion row with n attempts has waited at least the sum of n delays since its first |
| Daemon.LogsInEveryRun | src/agentflow_hermes/continuation_store.py:472-480 | In every reachable state a numbered legal log leads to each stored state |
| Daemon.OwnerStepsInEveryRun | src/agentflow_hermes/continuations/owner_input.py:180-331 | In every reachable state a materialization has its receipt, a review its GO, a rerun both GOs, each kind at most once, and a review precedes every rerun if nothing ever died |
| LoopSupervisor.LoopLedger.LastActionTime | src/agentflow_hermes/loop_supervisor.py:189-200 | The latest acting receipt of graph and blocker |
| LoopSupervisor.LoopLedger.EvaluateBlock | src/agentflow_hermes/loop_supervisor.py:279-353 | It acts if and only if the evidence is there, no receipt of the graph has reached the last round, the ledger holds fewer actions on this blocker than allowed and none within the cooldown; an action takes a round above every earlier one of its graph and within the cap, anything else keeps the event's round |
| LoopSupervisor.LoopLedger.Evaluate | src/agentflow_hermes/loop_supervisor.py:214-353 | One receipt per new event, none for a known one |
| LoopSupervisor.RemediatesIff | src/agentflow_hermes/loop_supervisor.py:240-330 | The same for whole evaluations, with the gates before the branch: what the counters gate is said of the receipts in the ledger |
| LoopSupervisor.SupersedesIff | src/agentflow_hermes/loop_supervisor.py:464-510 | Supporting fact: the gates of the final-version path, which an observing mode does not close |
| LoopSupervisor.ObserveOnlyGrants | src/agentflow_hermes/loop_supervisor.py:477-510 | There is an event that is granted a final version while only observing |
| LoopSupervisor.RoundsAndCooldown | src/agentflow_hermes/loop_supervisor.py:286-352 | Over any stream a graph's remediation rounds strictly increase up to max_rounds, and those of one blocker are at least the cooldown apart |
| LoopSupervisor.RoundBudget | src/agentflow_hermes/loop_supervisor.py:286-293 | A graph is remediated at most max_rounds times, counted from the lowest negative round number its events carry |
| LoopSupervisor.RoundBudgetReached | src/agentflow_hermes/loop_supervisor.py:287 | That bound is reached, so negative round numbers stretch the budget |
| LoopSupervisor.BlockerBudget | src/agentflow_hermes/loop_supervisor.py:294-295 | One blocker of one graph is remediated at most max_same_blocker times |
| LoopSupervisor.EmptyGraphUnbounded | src/agentflow_hermes/loop_supervisor.py:680 | For every n there are n remediations of events without a graph id, whatever the policy's positive bounds |
| LoopSupervisor.ReplayInsensitive | src/agentflow_hermes/loop_supervisor.py:240-242 | A stream of non-empty ids leaves the same ledger as its first occurrences |
| LoopSupervisor.Supersessions | src/agentflow_hermes/loop_supervisor.py:479-510 | The k-th supersession of a graph proposes version k+1, and no key is granted twice |
| RoadmapTemplates.ResolvedShape | src/agentflow_hermes/roadmap_templates.py:107-172 | Whatever resolves has distinct steps, exactly one review, and one terminal step at the end |
| RoadmapTemplates.LegacyResolvesIff | src/agentflow_hermes/roadmap_templates.py:127-172 | Exactly which explicit step sequences resolve without a preset |
| RoadmapTemplates.PresetsResolve | src/agentflow_hermes/roadmap_templates.py:175-176 | The three presets are valid as they stand |
| Roadmap.PromotionLedger.ProposePromotion | src/agentflow_hermes/roadmap.py:246-370 | A new event leaves exactly its decided receipt; a known one leaves none and gets its latest one back |
| Roadmap.ProposesIff | src/agentflow_hermes/roadmap.py:275-333 | Supporting fact: the gates and bounds behind a proposal |
| Roadmap.GrownStep | src/agentflow_hermes/roadmap.py:269-336 | Every call keeps: each receipt was decided on the receipts before it |
| Roadmap.ProposalsBounded | src/agentflow_hermes/roadmap.py:320-336 | A roadmap's proposals are strictly deeper each time, within policy and transition depth, a cooldown apart, under distinct keys |
| Roadmap.PromotionBudget | src/agentflow_hermes/roadmap.py:320-326 | A roadmap is proposed at most min(max depth, max promotions) times |
| Roadmap.GraphAdapter.CreateGraph | src/agentflow_hermes/roadmap.py:482-495 | An adapter that may refuse, act and refuse, or answer without an id, but resolves a repeated key to its first item |
| Roadmap.CreateKeepsBoard | src/agentflow_hermes/roadmap.py:692-736 | A create in plan order keeps every item parented to its predecessor |
| Roadmap.CreateAll | src/agentflow_hermes/roadmap.py:474-511 | Stops at the first failure; without one, every step's id is recorded in order |
| Roadmap.ApplyPromotion | src/agentflow_hermes/roadmap.py:373-565 | A graph is attempted if and only if apply is switched on and armed and the proposal is new, uncommitted and within the bound; it fails if and only if the adapter fails, leaving both ledgers exactly as they were; else receipt and complete graph are committed; a committed graph is answered from the ledger |
| Roadmap.CommittedGraph | src/agentflow_hermes/roadmap.py:685-743 | A committed graph is exactly one item per template step, each parented to the one before |
| Roadmap.EmptyLedgerKey | src/agentflow_hermes/roadmap.py:880-882 | On an empty ledger the promotion key depends on transition and source alone |
| Roadmap.RouteAll | src/agentflow_hermes/continuation_engine.py:510-528 | Over any run of events and retries, once a graph is applied every event for it makes zero adapter calls |
| OriginMigration.InputsFit | src/agentflow_hermes/origin_migration.py:109-133 | Accepted inputs give distinct tokens, none of them the target |
| OriginMigration.MergeCovers | src/agentflow_hermes/origin_migration.py:221-253 | A merged row is at least as strong as both rows in every field |
| OriginMigration.FoldCovers | src/agentflow_hermes/origin_migration.py:679-707 | The numeric row covers every row merged into it |
| OriginMigration.FoldDrawn | src/agentflow_hermes/origin_migration.py:679-707 | Every field of it is some merged row's own, so ranks and times are maxima and nothing is invented |
| OriginMigration.FoldConflictIff | src/agentflow_hermes/origin_migration.py:230-237 | The merge fails if and only if two of the rows carry different non-empty ACKs |
| OriginMigration.Board.MoveToken | src/agentflow_hermes/origin_migration.py:680-707 | One token's rows, each rekeyed or merged, with exact counts |
| OriginMigration.Board.Migrate | src/agentflow_hermes/origin_migration.py:649-727 | All or nothing: refused on a conflict with the whole board unchanged, else every table rekeyed with exact counts and no conflict anywhere |
| OriginMigration.CommittedReceipts | src/agentflow_hermes/origin_migration.py:678-718 | After a commit no receipt carries a token, and each numeric row is the strongest of its rows and drawn from them alone |
| OriginMigration.SecondRun | src/agentflow_hermes/origin_migration.py:649-727 | A second run changes nothing |
| LegacyMigration.CopyInstances | src/agentflow_hermes/continuation_store.py:1157-1181 | The id map is total on legacy instances and sends each to the row of its own source tuple |
| LegacyMigration.CopyChildren | src/agentflow_hermes/continuation_store.py:1183-1229 | Rows of mapped instances under the new id, unless the key is taken |
| LegacyMigration.CopyKeyed | src/agentflow_hermes/continuation_store.py:1283-1308 | Rows with keys of their own, unless the key is taken |
| LegacyMigration.CopyOutbox | src/agentflow_hermes/continuation_store.py:1250-1265 | Outbox rows of mapped instances, without backoff and last error, unless the key is taken |
| LegacyMigration.CursorsAreMaxima | src/agentflow_hermes/continuation_store.py:1231-1248 | Each cursor is the maximum of the canonical and all legacy ones |
| LegacyMigration.CanonicalStore.Unmapped | src/agentflow_hermes/continuation_store.py:1082-1085 | Reports no missing id if and only if every legacy id is mapped |
| LegacyMigration.CanonicalStore.Migrate | src/agentflow_hermes/continuation_store.py:1117-1369 | The union of all twelve tables, a verification that always succeeds, and one receipt |
| LegacyMigration.ExistingUnchanged | src/agentflow_hermes/continuation_store.py:1117-1125 | No canonical row is changed in any table |
| LegacyMigration.InstancesArrive | src/agentflow_hermes/continuation_store.py:1157-1181 | Every legacy instance is there under its source tuple, no two under one id |
| LegacyMigration.ChildrenArrive | src/agentflow_hermes/continuation_store.py:1183-1229 | Every row of a mapped instance is there with its own content unless its key was taken |
| LegacyMigration.OutboxArrives | src/agentflow_hermes/continuation_store.py:1250-1265 | A copied outbox row is a legacy row with its operation, state and attempts, made due at once with its last error forgotten |
| LegacyMigration.MigratedWakeIff | src/agentflow_hermes/continuation_store.py:1250-1265 | A legacy wake that was scheduled is scheduled by no run as it stands; the migration makes it one that some run schedules if and only if its instance is in the file, its key was free and it was not applied |
| LegacyMigration.MigrationIdempotent | src/agentflow_hermes/continuation_store.py:1117-1125 | Migrating twice leaves the tables, ids and id map of migrating once |
| Yaml.BareScalarIff | src/agentflow_hermes/roadmap_config.py:261-276 | A bare word reads as itself if and only if it is no bool, null or number |
| Yaml.CleanLines | src/agentflow_hermes/roadmap_config.py:185-205 | The index loop with its quote flags keeps exactly the lines the cleaning function keeps |
| Yaml.ParseList | src/agentflow_hermes/roadmap_config.py:221-234 | The index-based list parser agrees with the structural one, errors included |
| Yaml.ParseMapping | src/agentflow_hermes/roadmap_config.py:237-258 | The index-based mapping parser agrees with the structural one; the recursion ends on the remaining lines |
| Yaml.ParseBlock | src/agentflow_hermes/roadmap_config.py:212-218 | So does the block dispatch, never moving backwards |
| Yaml.ParseMinimalYaml | src/agentflow_hermes/roadmap_config.py:177-182 | The parser as a whole computes the structural parse of the cleaned lines |
| Yaml.ParsePlain | src/agentflow_hermes/roadmap_config.py:185-258 | No text parses to a key with a colon or a string with a line boundary, at any depth |
| YamlPrint.EntriesReadBack | src/agentflow_hermes/roadmap_config.py:237-258 | Printed entries at any indent, followed by anything that leaves the block, are read back as their values |
| YamlPrint.PrintParse | src/agentflow_hermes/roadmap_config.py:177-258 | Parsing the printed lines of any non-empty tree gives the tree's value |
| YamlPrint.LinesKept | src/agentflow_hermes/roadmap_config.py:185-205 | Cleaning keeps every printed line as it is, quotes and inner `#` included |
| YamlPrint.CleanJoined | src/agentflow_hermes/roadmap_config.py:185-205 | Joining lines without breaks and splitting them again loses nothing the cleaning keeps |
| RoadmapRegister.ValidateSound | src/agentflow_hermes/roadmap_register.py:105-121 | What the validators accept is identifiers, safe texts and a resolved template |
| RoadmapRegister.FileValue | src/agentflow_hermes/roadmap_register.py:124-179 | A printable config's file parses to exactly its tree, comments and blank lines dropped |
| RoadmapRegister.RoundTripIff | src/agentflow_hermes/roadmap_register.py:99-103 | Parsing the rendered config gives back every supplied value if and only if no identifier is a bool, null or number, the transition has no colon and no text has a line boundary |
| RoadmapRegister.InputsRoundTripIff | src/agentflow_hermes/roadmap_register.py:84-179 | The same for every input the validators accept |
| Throttle.RoomLeft | src/agentflow_hermes/live/throttle.py:77-93 | A bucket with room at check time leaves room for an attempt recorded later, in the same bucket or a later one |
| Throttle.AttemptKeeps | src/agentflow_hermes/store.py:567-609 | An attempt the throttle allowed keeps every minute and target-hour bucket within its cap |
| Throttle.WindowBound | src/agentflow_hermes/live/throttle.py:19-46 | Any 60 seconds hold at most twice the minute cap, any hour at most twice a target's cap |
| Throttle.CountCovered | src/agentflow_hermes/live/throttle.py:77-84 | A stretch covered by two buckets holds no more than both |
| Throttle.LiveStore.CheckThrottle | src/agentflow_hermes/live/throttle.py:19-46 | Allowed if and only if the breaker is closed and both buckets have room, with the first reason that holds otherwise |
| Throttle.LiveStore.Send | src/agentflow_hermes/store.py:600-692 | The attempt is recorded before the effect and the outcome after it, for this job and target; the breaker opens when, after an undelivered attempt, the attempts of the last five minutes outnumber the deliveries of the last five minutes by three |
| Throttle.LiveStore.Dispatch | src/agentflow_hermes/store.py:443-692 | An attempt needs every gate, the throttle and a gateway; refusals are recorded with the first reason; a job is delivered at most once |
| Throttle.LiveStore.Run | src/agentflow_hermes/store.py:443-692 | Any sequence of dispatches keeps every bucket within its cap |

## Left out

Continuation protocol:

- Tables are keyed by their unique index (source tuple, idempotency key) instead of autoincrement row ids; one board and one database identity.
- SHA-256 is taken as injective and whole; the source keeps 16 hex digits of it.
- Compiling an event to a kind (regex grammars, redaction) is a fixed property of the event, with one endpoint that stands for the return or the origin reference; an event compiles the same on every replay.
- Titles, bodies and other payload fields the protocol does not branch on; owner receipt values (versions only).
- Missing adapters and adapters without the callback methods; the reinterpretation of legacy refusal rows (`outbox_reinterpret_pending`).
- Operator backfill and resolution receipts, which resume instances outside the handlers; interaction inbox batching.
- Two processes on one store: one sequential actor with crashes.
- The poll interval of external waits is part of the checker's answer (still pending).
- Recovery of an owner anchor lost between its step and its row, and a way out of FAILED_RETRYABLE for owner input: the code has neither.
- An explicit seed above the board's latest event id.
- The roadmap branch is any success or failure in `Engine` and `Daemon`; `Roadmap` models it by itself.

Ledgers:

- Sanitizers are the identity; a malformed policy is `None`, a missing one the default policy.
- Promotion keys are structured values with an injective digest; registry and policy are fixed over a run.
- The roadmap attachment to GO events and the remediation candidates of the loop supervisor, which reach no counter.

Migrations:

- Origin migration: receipt tables lacking columns, NULL threads, the dry-run plan, backups and the repair of callback deadletters.
- Legacy migration: row contents other than an outbox row's operation, state, attempts, schedule and last error are opaque, so `parent_step_id` and `step_id` are copied unmapped as in the source; missing tables are empty ones; the counts per table stop at their sum with the table size.

Parser and printer:

- The fixed comment text is a parameter: any lines the parser skips. JSON config files, config loading past the parse. Which characters beyond ASCII are letters or digits is left open (`Yaml.OTHER_DIGITS`, `RoadmapTemplates.OTHER_ALNUM`, `OriginMigration.OTHER_DIGITS`); the results hold whichever they are.

Throttle:

- A sequential run whose transaction commits at its end; a crash between send and commit; the dry-run branch's own writes; message bodies and job states.

Everywhere: SQLite, subprocesses, command lines, reports, services and watchers.
