/** Runs that end where the code's promises do not hold, write by write. Every
    state on the way is one the daemon's invariant allows. */
module Scenarios {
  import opened Domain
  import opened Store
  import opened Adapter
  import opened Backoff
  import opened History
  import opened Protocol
  import opened Outbox
  import opened Handlers
  import opened OwnerInputHandler
  import CodeFixHandler
  import D = Daemon

  /** Tables, board and row histories together. */
  datatype World = World(db: Db, tasks: Tasks, subs: set<(string, string)>, book: Book)

  /** A store seeded on a board without events. */
  const START := World(EmptyDb.(cursor := Some(0)), map[], {}, Book(map[], map[], map[], map[], 0, 0.0))

  ghost predicate Agreed(w: World) {
    Inv(w.db, w.tasks) && EdgesOk(w.db.outbox, w.subs) && HistoryOk(w.db.outbox, w.book)
  }

  /** A daemon in the middle of this run, its board holding this one event. */
  ghost predicate Shows(d: D.Daemon, w: World, e: Event)
    reads d, d.store, d.adapter
  {
    && d.store.View() == w.db && d.adapter.tasks == w.tasks
    && d.adapter.subscriptions == w.subs && d.adapter.book == w.book
    && 0.0 <= w.book.last <= d.store.now && (forall k :: k in w.tasks ==> |w.tasks[k].id| <= d.adapter.issued)
    && d.log == [e] && d.boardMax == e.seqNo && d.seed == 0
  }

  // ----- the steps of a run -----

  function Created(w: World, e: Event): World { w.(db := CreateDb(w.db, e)) }

  function Moved(w: World, s: Source, to: State, reason: string): World {
    w.(db := TransitionDb(w.db, s, to, reason))
  }

  function Received(w: World, s: Source): World { w.(db := ReceiptDb(w.db, s)) }

  function Advanced(w: World, e: Event): World { w.(db := AdvanceDb(w.db, e.seqNo)) }

  function Stepped(w: World, s: Source, key: Key, parent: Option<Key>): World {
    w.(db := AddStepDb(w.db, s, key, parent))
  }

  function Enqueued(w: World, key: Key, row: Row): World { w.(db := EnqueueDb(w.db, key, row)) }

  function Boarded(w: World, key: Key, task: Task): World { w.(tasks := w.tasks[key := task]) }

  /** One try at a row and the mark it leaves. */
  function Attempted(w: World, key: Key, t: Try): World {
    if key !in w.db.outbox then w
    else w.(db := WithRow(w.db, key, Visit(w.db.outbox[key], t)), book := Tried(w.book, key, t))
  }

  function StepDone(w: World, s: Source, key: Key, id: string): World { w.(db := MarkStepDb(w.db, s, key, id)) }

  function Succeeds(at: real, id: string): Try { Try(at, at, true, id, "", false) }

  /** The first half of a create: its step and its row. */
  function Queued(w: World, s: Source, key: Key, parent: Option<Key>, payload: Payload): World {
    Enqueued(Stepped(w, s, key, parent), key, FreshRow(s, Some(key), CreateTask, payload))
  }

  /** A create that succeeds: step, row, board, mark, step's mark. */
  function Opened(w: World, s: Source, key: Key, parent: Option<Key>, payload: Payload, id: string, at: real): World {
    StepDone(Attempted(Boarded(Queued(w, s, key, parent, payload), key, Task(id, payload.parent)), key, Succeeds(at, id)), s, key, id)
  }

  // ----- each step keeps the agreement -----

  lemma StartAgrees()
    ensures Agreed(START)
  {
    forall k ensures KeyHistory(START.db.outbox, START.book, k) {}
  }

  lemma CreatedAgrees(w: World, e: Event)
    requires Agreed(w) && CleanSource(e.src)
    ensures Agreed(Created(w, e))
  {
    hide Inv, HistoryOk, EdgesOk;
    CreateKeeps(w.db, w.tasks, e);
  }

  lemma MovedAgrees(w: World, s: Source, to: State, reason: string)
    requires Agreed(w) && TransitionOk(w.db, s, to)
    ensures Agreed(Moved(w, s, to, reason))
  {
    hide Inv, HistoryOk, EdgesOk;
    TransitionKeeps(w.db, w.tasks, s, to, reason);
  }

  lemma SteppedAgrees(w: World, s: Source, key: Key, parent: Option<Key>)
    requires Agreed(w) && s in w.db.instances
    requires key.digest == DigestOf(s) && KindOf(key) == w.db.instances[s].kind && OpOf(key) == CreateTask
    requires key.ReviewKey? ==> parent == Some(FixKey(key.digest))
    ensures Agreed(Stepped(w, s, key, parent))
  {
    hide Inv, HistoryOk, EdgesOk, Handles, Grows;
    AddStepKeeps(w.db, w.tasks, s, key, parent);
  }

  lemma EnqueuedAgrees(w: World, key: Key, row: Row)
    requires Agreed(w) && key !in w.db.outbox && Ready(w.db, w.tasks, key, row)
    requires row == FreshRow(row.src, row.step, row.op, row.payload)
    ensures Agreed(Enqueued(w, key, row))
  {
    hide Inv, HistoryOk, Grows, RowOk, ChainOk;
    EnqueueKeeps(w.db, w.tasks, key, row);
    HistoryEnqueued(w.db.outbox, w.book, key, row);
  }

  lemma BoardedAgrees(w: World, key: Key, task: Task)
    requires Agreed(w) && key !in w.tasks && DistinctIds(w.tasks[key := task])
    requires key in w.db.outbox && w.db.outbox[key].op == CreateTask && task.parent == w.db.outbox[key].payload.parent
    ensures Agreed(Boarded(w, key, task))
  {
    hide Inv, HistoryOk, EdgesOk, Grows;
    BoardKeeps(w.db, w.tasks, key, task);
  }

  lemma AttemptedAgrees(w: World, key: Key, t: Try)
    requires Agreed(w) && key in w.db.outbox && Mutation(w.db.outbox[key].op) && Due(w.db.outbox[key], t.at)
    requires w.book.last <= t.at <= t.mark && !t.lost
    requires t.ok && w.db.outbox[key].op == CreateTask ==> key in w.tasks && t.task == w.tasks[key].id != ""
    requires t.ok && key.SubscribeKey? ==> (w.db.outbox[key].payload.task, w.db.outbox[key].payload.endpoint) in w.subs
    ensures Agreed(Attempted(w, key, t))
  {
    hide Inv, HistoryOk, Grows, EdgesOk;
    var row := w.db.outbox[key];
    MarksBefore(w.db.outbox, w.book, key, t.at);
    HistoryTried(w.db.outbox, w.book, key, t);
    if t.ok {
      MarkAppliedKeeps(w.db, w.tasks, w.subs, key, t.task);
    } else {
      MarkPendingKeeps(w.db, w.tasks, w.subs, key, t.mark + Delay(row.attempts + 1), t.error);
    }
  }

  lemma StepDoneAgrees(w: World, s: Source, key: Key, id: string)
    requires Agreed(w) && (id != "" ==> AppliedIn(w.db, key) && w.db.outbox[key].boardTask == id)
    ensures Agreed(StepDone(w, s, key, id))
  {
    hide Inv, HistoryOk, EdgesOk, Grows;
    MarkStepKeeps(w.db, w.tasks, s, key, id);
  }

  lemma QueuedAgrees(w: World, s: Source, key: Key, parent: Option<Key>, payload: Payload)
    requires Agreed(w) && s in w.db.instances && key !in w.db.outbox
    requires key.digest == DigestOf(s) && KindOf(key) == w.db.instances[s].kind && OpOf(key) == CreateTask
    requires key.ReviewKey? ==> parent == Some(FixKey(key.digest))
    requires ChainOk(w.db, key, FreshRow(s, Some(key), CreateTask, payload))
    ensures var w' := Queued(w, s, key, parent, payload);
      && Agreed(w') && w'.db.outbox == w.db.outbox[key := FreshRow(s, Some(key), CreateTask, payload)]
      && w'.tasks == w.tasks && w'.book == w.book
  {
    hide Agreed, RowOk;
    var w1 := Stepped(w, s, key, parent);
    SteppedAgrees(w, s, key, parent);
    FreshRowOk(w1, s, key, payload);
    EnqueuedAgrees(w1, key, FreshRow(s, Some(key), CreateTask, payload));
  }

  lemma OpenedAgrees(w: World, s: Source, key: Key, parent: Option<Key>, payload: Payload, id: string, at: real)
    requires Agreed(w) && s in w.db.instances && w.book.last <= at && 0.0 <= at && id != ""
    requires key.digest == DigestOf(s) && KindOf(key) == w.db.instances[s].kind && OpOf(key) == CreateTask
    requires key.ReviewKey? ==> parent == Some(FixKey(key.digest))
    requires key !in w.db.outbox && key !in w.tasks && DistinctIds(w.tasks[key := Task(id, payload.parent)])
    requires ChainOk(w.db, key, FreshRow(s, Some(key), CreateTask, payload))
    ensures Agreed(Opened(w, s, key, parent, payload, id, at))
  {
    hide Agreed, DistinctIds, Queued, ChainOk, DigestOf;
    var w2 := Queued(w, s, key, parent, payload);
    QueuedAgrees(w, s, key, parent, payload);
    BoardedAgrees(w2, key, Task(id, payload.parent));
    var w3 := Boarded(w2, key, Task(id, payload.parent));
    AttemptedAgrees(w3, key, Succeeds(at, id));
    StepDoneAgrees(Attempted(w3, key, Succeeds(at, id)), s, key, id);
  }

  lemma FreshRowOk(w: World, s: Source, key: Key, payload: Payload)
    requires Agreed(w) && s in w.db.instances
    requires key.digest == DigestOf(s) && KindOf(key) == w.db.instances[s].kind && OpOf(key) == CreateTask
    ensures RowOk(w.db, w.tasks, key, FreshRow(s, Some(key), CreateTask, payload))
  {
    hide Inv;
    CleanInstance(w.db, w.tasks, s);
  }

  /** What a successful create leaves behind, all else being as before. */
  lemma OpenedFacts(w: World, s: Source, key: Key, parent: Option<Key>, payload: Payload, id: string, at: real)
    requires key !in w.db.outbox && 0.0 <= at && id != "" && w.book.last <= at
    ensures var w' := Opened(w, s, key, parent, payload, id, at);
      var row := Marked(FreshRow(s, Some(key), CreateTask, payload), Applied, id, 0.0, "");
      && w'.db == w.db.(steps := w'.db.steps, outbox := w.db.outbox[key := row])
      && w'.db.steps.Keys == w.db.steps.Keys + {(s, key)}
      && w'.tasks == w.tasks[key := Task(id, payload.parent)] && w'.subs == w.subs
      && w'.book.last == at && w'.book.lost == w.book.lost
  {
    var row := FreshRow(s, Some(key), CreateTask, payload);
    var w1 := Stepped(w, s, key, parent);
    SteppedFacts(w, s, key, parent);
    var w3 := Boarded(Enqueued(w1, key, row), key, Task(id, payload.parent));
    FirstSuccess(row, id, at);
    var w4 := Attempted(w3, key, Succeeds(at, id));
    hide Visit, Marked, FreshRow, Stepped, TriesOf;
    assert w4.db == w1.db.(outbox := w.db.outbox[key := Marked(row, Applied, id, 0.0, "")]);
    StepDoneFacts(w4, s, key, id);
  }

  lemma SteppedFacts(w: World, s: Source, key: Key, parent: Option<Key>)
    ensures var w' := Stepped(w, s, key, parent);
      && w' == w.(db := w.db.(steps := w'.db.steps)) && w'.db.steps.Keys == w.db.steps.Keys + {(s, key)}
  {}

  lemma StepDoneFacts(w: World, s: Source, key: Key, id: string)
    ensures var w' := StepDone(w, s, key, id);
      w' == w.(db := w.db.(steps := w'.db.steps)) && w'.db.steps.Keys == w.db.steps.Keys
  {}

  lemma FirstSuccess(row: Row, id: string, at: real)
    requires row.state == Pending && row.nextAt <= at
    ensures Visit(row, Succeeds(at, id)) == Marked(row, Applied, id, 0.0, "")
  {}

  // ----- a return edge that counts as applied without its ACK -----

  /** The board took the edge, and its ACK repair failed. */
  const HalfDone := Result(true, "", "", Ack(false, None))

  function Sub(e: Event): Key { SubscribeKey(DigestOf(e.src), e.endpoint) }

  /** The cursor has not moved, nothing waits, and nothing was lost. */
  predicate Unpassed(w: World) { w.db.cursor == Some(0) && w.db.waits == map[] && w.book.lost == 0 }

  function EdgePayload(e: Event): Payload { Payload("xx", e.endpoint, "", "") }

  function EdgeRow(e: Event): Row { FreshRow(e.src, None, Subscribe, EdgePayload(e)) }

  /** A code-fix event up to its review task. */
  function GraphBuilt(e: Event): World {
    var s, d := e.src, DigestOf(e.src);
    var w := Moved(Created(START, e), s, Materializing, "code_fix_detected");
    var fixed := Opened(w, s, FixKey(d), None, NO_PAYLOAD, "x", 1.0);
    Opened(fixed, s, ReviewKey(d), Some(FixKey(d)), NO_PAYLOAD.(parent := "x"), "xx", 2.0)
  }

  /** Then the return edge, answered by HalfDone: kept pending by the handler. */
  function EdgeTried(e: Event): World {
    var w := Enqueued(GraphBuilt(e), Sub(e), EdgeRow(e));
    Attempted(w.(subs := w.subs + {("xx", e.endpoint)}), Sub(e), Try(3.0, 3.0, false, "", FailureText(HalfDone), false))
  }

  function EdgePending(e: Event): World { Moved(EdgeTried(e), e.src, FailedRetryable, "review_subscribe_failed") }

  /** Then a pass over the outbox, answered the same. */
  function EdgeApplied(e: Event): World { Attempted(EdgePending(e), Sub(e), Succeeds(8.0, "")) }

  lemma StartedAgrees(e: Event)
    requires CleanSource(e.src) && e.kind == CodeFix
    ensures var w := Moved(Created(START, e), e.src, Materializing, "code_fix_detected");
      && Agreed(w) && w.db.instances == map[e.src := Instance(CodeFix, Materializing, e.endpoint)] && e.src in w.db.events
      && w == START.(db := START.db.(instances := w.db.instances, events := w.db.events))
  {
    hide Agreed;
    StartAgrees();
    CreatedAgrees(START, e);
    MovedAgrees(Created(START, e), e.src, Materializing, "code_fix_detected");
  }

  lemma GraphBuiltAgrees(e: Event)
    requires CleanSource(e.src) && e.kind == CodeFix
    ensures var w := GraphBuilt(e); var d := DigestOf(e.src);
      && Agreed(w) && w.db.instances == map[e.src := Instance(CodeFix, Materializing, e.endpoint)]
      && w.db.outbox.Keys == {FixKey(d), ReviewKey(d)} && AppliedIn(w.db, FixKey(d)) && AppliedIn(w.db, ReviewKey(d))
      && w.db.outbox[ReviewKey(d)].boardTask == "xx" && w.subs == {} && w.book.last == 2.0
      && e.src in w.db.events && Unpassed(w)
  {
    hide Agreed, InstanceKey, Opened, DigestOf, Created, Moved;
    var s, d := e.src, DigestOf(e.src);
    StartedAgrees(e);
    var w2 := Moved(Created(START, e), s, Materializing, "code_fix_detected");
    OpenedAgrees(w2, s, FixKey(d), None, NO_PAYLOAD, "x", 1.0);
    OpenedFacts(w2, s, FixKey(d), None, NO_PAYLOAD, "x", 1.0);
    var w3 := Opened(w2, s, FixKey(d), None, NO_PAYLOAD, "x", 1.0);
    OpenedAgrees(w3, s, ReviewKey(d), Some(FixKey(d)), NO_PAYLOAD.(parent := "x"), "xx", 2.0);
    OpenedFacts(w3, s, ReviewKey(d), Some(FixKey(d)), NO_PAYLOAD.(parent := "x"), "xx", 2.0);
  }

  lemma EdgeTriedAgrees(e: Event)
    requires CleanSource(e.src) && e.kind == CodeFix && e.endpoint != ""
    ensures var w, w0 := EdgeTried(e), GraphBuilt(e);
      && Agreed(w) && w.subs == {("xx", e.endpoint)} && w.book.last == 3.0 && Sub(e) !in w0.db.outbox && Unpassed(w)
      && w.db == w0.db.(outbox := w0.db.outbox[Sub(e) := ApplyStores(EdgeRow(e), HalfDone, 3.0)])
  {
    hide Agreed, InstanceKey, DigestOf, GraphBuilt, FailureText;
    GraphBuiltAgrees(e);
    var w0 := GraphBuilt(e);
    EdgeReady(w0, e);
    EnqueuedAgrees(w0, Sub(e), EdgeRow(e));
    var w1 := Enqueued(w0, Sub(e), EdgeRow(e));
    MoreEdges(w1, ("xx", e.endpoint));
    var w2 := w1.(subs := w1.subs + {("xx", e.endpoint)});
    var t := Try(3.0, 3.0, false, "", FailureText(HalfDone), false);
    AttemptedAgrees(w2, Sub(e), t);
    FirstRefusal(EdgeRow(e), t);
    hide Visit, Marked, ApplyStores, TriesOf;
    assert Attempted(w2, Sub(e), t) == EdgeTried(e);
  }

  lemma EdgePendingAgrees(e: Event)
    requires CleanSource(e.src) && e.kind == CodeFix && e.endpoint != ""
    ensures var w := EdgePending(e); var d := DigestOf(e.src);
      && Agreed(w) && w.db.instances == map[e.src := Instance(CodeFix, FailedRetryable, e.endpoint)]
      && w.db.outbox.Keys == {FixKey(d), ReviewKey(d), Sub(e)} && AppliedIn(w.db, FixKey(d)) && AppliedIn(w.db, ReviewKey(d))
      && w.db.outbox[Sub(e)] == ApplyStores(EdgeRow(e), HalfDone, 3.0)
      && w.subs == {("xx", e.endpoint)} && w.book.last == 3.0 && Unpassed(w)
  {
    hide Agreed, InstanceKey, DigestOf, GraphBuilt, EdgeTried, ApplyStores, EdgeRow;
    GraphBuiltAgrees(e);
    EdgeTriedAgrees(e);
    MovedAgrees(EdgeTried(e), e.src, FailedRetryable, "review_subscribe_failed");
  }

  lemma EdgeReady(w: World, e: Event)
    requires Agreed(w) && IsKind(w.db, e.src, CodeFix)
    requires AppliedIn(w.db, ReviewKey(DigestOf(e.src))) && w.db.outbox[ReviewKey(DigestOf(e.src))].boardTask == "xx"
    ensures Ready(w.db, w.tasks, Sub(e), EdgeRow(e))
  {
    hide Inv, Ready;
    CodeFixHandler.EdgeReady(w.db, w.tasks, e.src, e.endpoint, "xx");
  }

  lemma MoreEdges(w: World, edge: (string, string))
    requires Agreed(w)
    ensures Agreed(w.(subs := w.subs + {edge}))
  {
    hide Inv, HistoryOk;
  }

  lemma FirstRefusal(row: Row, t: Try)
    requires row.state == Pending && row.nextAt <= t.at && !t.lost && !t.ok && t.error == FailureText(HalfDone)
    ensures Visit(row, t) == ApplyStores(row, HalfDone, t.mark)
  {}

  /** So a run reaches a return edge that the handler keeps pending because its ACK
      repair failed and that a pass over the outbox, given the same answer, counts
      as applied: the fix graph is then done. */
  lemma NestedAckCountsAsApplied(e: Event)
    requires CleanSource(e.src) && e.kind == CodeFix && e.endpoint != ""
    ensures var pending, applied := EdgePending(e), EdgeApplied(e);
      && Agreed(pending) && Agreed(applied)
      && SubscribeAnswers({}, pending.subs, ("xx", e.endpoint), HalfDone)
      && SubscribeAnswers(pending.subs, applied.subs, ("xx", e.endpoint), HalfDone)
      && Sub(e) in pending.db.outbox && Due(pending.db.outbox[Sub(e)], 8.0)
      && ApplyStores(pending.db.outbox[Sub(e)], HalfDone, 8.0).state == Pending
      && Sub(e) in applied.db.outbox
      && applied.db.outbox[Sub(e)] == ReconcileStores(pending.db.outbox[Sub(e)], HalfDone, 8.0)
      && !GraphDone(pending.db, e.src, e.endpoint) && GraphDone(applied.db, e.src, e.endpoint)
  {
    hide Agreed, InstanceKey, DigestOf, EdgePending, FailureText;
    EdgePendingAgrees(e);
    var w := EdgePending(e);
    DelayValues();
    assert Due(w.db.outbox[Sub(e)], 8.0);
    assert w.db.outbox[Sub(e)].payload == EdgePayload(e);
    AttemptedAgrees(w, Sub(e), Succeeds(8.0, ""));
    SecondSuccess(w.db.outbox[Sub(e)]);
  }

  lemma SecondSuccess(row: Row)
    requires Due(row, 8.0)
    ensures Visit(row, Succeeds(8.0, "")) == ReconcileStores(row, HalfDone, 8.0)
  {}

  // ----- a rerun without a review -----

  /** The one owner-input instance of this event, in this state and in order. */
  ghost predicate Alone(w: World, e: Event, state: State) {
    && Agreed(w) && e.src in w.db.events
    && w.db.instances == map[e.src := Instance(OwnerInput, state, e.endpoint)] && OwnerOk(w.db, e.src)
    && w.db.cursor.Some? && 0 <= w.db.cursor.value <= e.seqNo && w.db.waits == map[] && w.book.lost == 0
  }

  function AnchorRefused(w: World, s: Source): World {
    var key := AnchorKey(DigestOf(s));
    Attempted(Queued(w, s, key, None, NO_PAYLOAD), key, Try(1.0, 1.0, false, "", "adapter_error", false))
  }

  /** An anchor the board refused, the cursor, and then a valid submission. */
  function Submitted(e: Event): World {
    var waiting := Moved(Created(START, e), e.src, WaitingOwner, "needs_input_detected");
    var passed := Advanced(AnchorRefused(waiting, e.src), e);
    Moved(Received(passed, e.src), e.src, InputAccepted, "owner_receipt_accepted")
  }

  /** What is committed when the process dies right after a materialization's GO
      was stored and before the review step was. */
  function DiesAfterGo(e: Event): World {
    var s, d := e.src, DigestOf(e.src);
    var started := Opened(Submitted(e), s, MaterializeKey(d), None, NO_PAYLOAD, "x", 2.0);
    Moved(Moved(started, s, Materializing, "materialization_task_created"), s, WaitingReview, MATERIALIZATION_GO)
  }

  /** The next call's GO, taken although nothing was reviewed. */
  function ReviewGoes(w: World, e: Event): World {
    var s, d := e.src, DigestOf(e.src);
    Moved(Opened(Moved(w, s, Resumable, REVIEW_GO), s, RerunKey(d), None, NO_PAYLOAD, "xx", 3.0),
      s, Resumed, "packet_rerun_created")
  }

  lemma MovedAlone(w: World, e: Event, state: State, to: State, reason: string)
    requires Alone(w, e, state) && Legal(state, to) && MoveFits(w.db, e.src, to, reason)
    ensures var w' := Moved(w, e.src, to, reason);
      Alone(w', e, to) && w' == w.(db := w.db.(instances := w'.db.instances, events := w'.db.events))
  {
    hide Agreed, OwnerOk, MoveFits;
    MovedAgrees(w, e.src, to, reason);
    MoveKeepsOrder(w.db, e.src, to, reason);
  }

  lemma OpenedAlone(w: World, e: Event, state: State, key: Key, id: string, at: real)
    requires Alone(w, e, state) && StepFits(w.db, e.src, key)
    requires w.book.last <= at && 0.0 <= at && id != ""
    requires key !in w.db.outbox && key !in w.tasks && DistinctIds(w.tasks[key := Task(id, "")])
    ensures var w' := Opened(w, e.src, key, None, NO_PAYLOAD, id, at);
      && Alone(w', e, state) && w'.db.steps.Keys == w.db.steps.Keys + {(e.src, key)}
      && w'.db.outbox.Keys == w.db.outbox.Keys + {key} && w'.tasks == w.tasks[key := Task(id, "")] && w'.book.last == at
      && w'.db == w.db.(steps := w'.db.steps, outbox := w'.db.outbox)
  {
    hide Agreed, OwnerOk, Opened, DistinctIds;
    OpenedAgrees(w, e.src, key, None, NO_PAYLOAD, id, at);
    OpenedFacts(w, e.src, key, None, NO_PAYLOAD, id, at);
    OpensKeeps(w.db, Opened(w, e.src, key, None, NO_PAYLOAD, id, at).db, e.src, key);
  }

  lemma WaitingAlone(e: Event)
    requires CleanSource(e.src) && e.kind == OwnerInput && e.seqNo > 0
    ensures var w := Moved(Created(START, e), e.src, WaitingOwner, "needs_input_detected");
      Alone(w, e, WaitingOwner) && w == START.(db := START.db.(instances := w.db.instances, events := w.db.events))
  {
    hide Agreed;
    StartAgrees();
    CreatedAgrees(START, e);
    MovedAlone(Created(START, e), e, Detected, WaitingOwner, "needs_input_detected");
  }

  lemma AnchorRefusedAlone(w: World, e: Event)
    requires Alone(w, e, WaitingOwner) && w.db.outbox == map[] && w.db.steps == map[] && w.tasks == map[] && w.book.last <= 1.0
    ensures var w' := AnchorRefused(w, e.src); var key := AnchorKey(DigestOf(e.src));
      && Alone(w', e, WaitingOwner) && w'.db.steps.Keys == {(e.src, key)} && w'.db.outbox.Keys == {key}
      && w'.tasks == map[] && w'.book.last == 1.0
  {
    hide Agreed, OwnerOk, RowOk, InstanceKey;
    var s, key := e.src, AnchorKey(DigestOf(e.src));
    QueuedAgrees(w, s, key, None, NO_PAYLOAD);
    AttemptedAgrees(Queued(w, s, key, None, NO_PAYLOAD), key, Try(1.0, 1.0, false, "", "adapter_error", false));
    var w' := AnchorRefused(w, s);
    OpensKeeps(w.db, w'.db, s, key);
  }

  lemma SubmittedAlone(e: Event)
    requires CleanSource(e.src) && e.kind == OwnerInput && e.seqNo > 0
    ensures var w := Submitted(e); var key := AnchorKey(DigestOf(e.src));
      && Alone(w, e, InputAccepted) && Receipts(w.db, e.src) != []
      && w.db.steps.Keys == {(e.src, key)} && w.db.outbox.Keys == {key} && w.tasks == map[] && w.book.last == 1.0
  {
    hide Agreed, OwnerOk, InstanceKey, AnchorRefused, Created;
    WaitingAlone(e);
    var w1 := Moved(Created(START, e), e.src, WaitingOwner, "needs_input_detected");
    AnchorRefusedAlone(w1, e);
    var w2 := AnchorRefused(w1, e.src);
    AdvancedAlone(w2, e, WaitingOwner);
    var w3 := Advanced(w2, e);
    ReceivedAlone(w3, e, WaitingOwner);
    MovedAlone(Received(w3, e.src), e, WaitingOwner, InputAccepted, "owner_receipt_accepted");
  }

  lemma AdvancedAlone(w: World, e: Event, state: State)
    requires Alone(w, e, state) && e.seqNo > 0
    ensures Alone(Advanced(w, e), e, state)
  {
    hide Inv, HistoryOk, EdgesOk, OwnerOk;
    AloneFacts(w, e, state);
    D.AdvanceKeeps(w.db, w.tasks, e.seqNo);
  }

  lemma ReceivedAlone(w: World, e: Event, state: State)
    requires Alone(w, e, state)
    ensures var w' := Received(w, e.src);
      && Alone(w', e, state) && Receipts(w'.db, e.src) != []
      && w' == w.(db := w.db.(receipts := w'.db.receipts, events := w'.db.events))
  {
    hide Inv, HistoryOk, EdgesOk, OwnerOk;
    ReceiptKeepsAll(w.db, w.tasks, e.src);
  }

  lemma DiedAfterGo(e: Event)
    requires CleanSource(e.src) && e.kind == OwnerInput && e.seqNo > 0
    ensures var w := DiesAfterGo(e); var d := DigestOf(e.src);
      && Alone(w, e, WaitingReview)
      && w.db.steps.Keys == {(e.src, AnchorKey(d)), (e.src, MaterializeKey(d))}
      && w.db.outbox.Keys == {AnchorKey(d), MaterializeKey(d)}
      && w.tasks == map[MaterializeKey(d) := Task("x", "")] && w.book.last == 2.0
  {
    hide Agreed, OwnerOk, InstanceKey, DigestOf, Opened, Submitted, Alone, Moved;
    var s, key := e.src, MaterializeKey(DigestOf(e.src));
    SubmittedAlone(e);
    var w1 := Submitted(e);
    AloneFacts(w1, e, InputAccepted);
    OpenedAlone(w1, e, InputAccepted, key, "x", 2.0);
    var w2 := Opened(w1, s, key, None, NO_PAYLOAD, "x", 2.0);
    AloneFacts(w2, e, InputAccepted);
    MovedAlone(w2, e, InputAccepted, Materializing, "materialization_task_created");
    var w3 := Moved(w2, s, Materializing, "materialization_task_created");
    AloneFacts(w3, e, Materializing);
    MovedAlone(w3, e, Materializing, WaitingReview, MATERIALIZATION_GO);
  }

  lemma AloneFacts(w: World, e: Event, state: State)
    requires Alone(w, e, state)
    ensures e.src in w.db.instances && w.db.instances[e.src] == Instance(OwnerInput, state, e.endpoint)
    ensures OwnerOrder(w.db)
  {
    hide Agreed, OwnerOk;
  }

  lemma ReviewWent(e: Event)
    requires CleanSource(e.src) && e.kind == OwnerInput && e.seqNo > 0
    ensures var w, d := ReviewGoes(DiesAfterGo(e), e), DigestOf(e.src);
      && Alone(w, e, Resumed)
      && w.db.steps.Keys == {(e.src, AnchorKey(d)), (e.src, MaterializeKey(d)), (e.src, RerunKey(d))}
  {
    hide OwnerOk, InstanceKey, DigestOf, DiesAfterGo, Opened, Moved, Agreed, Alone, OwnerOrder;
    var s, key, w := e.src, RerunKey(DigestOf(e.src)), DiesAfterGo(e);
    DiedAfterGo(e);
    AloneFacts(w, e, WaitingReview);
    MovedAlone(w, e, WaitingReview, Resumable, REVIEW_GO);
    var w1 := Moved(w, s, Resumable, REVIEW_GO);
    AloneFacts(w1, e, Resumable);
    RerunMayOpen(w1.db, s);
    OpenedAlone(w1, e, Resumable, key, "xx", 3.0);
    var w2 := Opened(w1, s, key, None, NO_PAYLOAD, "xx", 3.0);
    AloneFacts(w2, e, Resumable);
    MovedAlone(w2, e, Resumable, Resumed, "packet_rerun_created");
  }

  /** Every state of this run is one the invariant of the daemon allows for an
      owner-input instance that has seen a crash, and it ends with a packet rerun
      that nothing was reviewed for. */
  lemma CrashSkipsReview(e: Event)
    requires CleanSource(e.src) && e.kind == OwnerInput && e.seqNo > 0
    ensures var died, resumed := DiesAfterGo(e), ReviewGoes(DiesAfterGo(e), e);
      && Agreed(died) && OwnerOrder(died.db) && Agreed(resumed) && OwnerOrder(resumed.db)
      && IsOwner(died.db, e.src) && died.db.instances[e.src].state == WaitingReview && !Reviewed(died.db, e.src)
      && IsOwner(resumed.db, e.src) && resumed.db.instances[e.src].state == Resumed
      && Rerun(resumed.db, e.src) && !Reviewed(resumed.db, e.src)
  {
    hide OwnerOk, InstanceKey, DigestOf, DiesAfterGo, ReviewGoes, Agreed, Alone, OwnerOrder;
    DiedAfterGo(e);
    ReviewWent(e);
    AloneFacts(DiesAfterGo(e), e, WaitingReview);
    AloneFacts(ReviewGoes(DiesAfterGo(e), e), e, Resumed);
    AloneAgrees(DiesAfterGo(e), e, WaitingReview);
    AloneAgrees(ReviewGoes(DiesAfterGo(e), e), e, Resumed);
  }

  lemma AloneAgrees(w: World, e: Event, state: State)
    requires Alone(w, e, state)
    ensures Agreed(w)
  {}

  // ----- the daemon's invariant holds there -----

  /** One instance of the board's one event, with nothing settled wrongly. */
  lemma ShownOk(d: D.Daemon, w: World, e: Event, state: State)
    requires Shows(d, w, e) && Agreed(w) && OwnerOrder(w.db) && CleanSource(e.src) && e.seqNo > 0
    requires w.db.instances == map[e.src := Instance(e.kind, state, e.endpoint)]
    requires w.db.waits == map[] && w.book.lost <= d.store.crashes && w.db.cursor.Some?
    requires 0 <= w.db.cursor.value <= e.seqNo
    requires w.db.cursor.value == 0 || (e.kind != CodeFix && e.kind != SemanticRefusal)
    requires d.store.crashes > 0 || e.kind != OwnerInput
    ensures d.Ok()
  {
    hide Inv, HistoryOk, EdgesOk, OwnerOrder, DistinctIds;
    BoardApart(w.db, w.tasks);
    assert D.Matches(d.log[0], e.src, w.db.instances[e.src]);
  }

  lemma BoardApart(db: Db, tasks: Tasks)
    requires Inv(db, tasks)
    ensures DistinctIds(tasks)
  {}

  /** A daemon that has died once can be in either state of the first run. */
  lemma CrashStatesOk(d: D.Daemon, e: Event)
    requires CleanSource(e.src) && e.kind == OwnerInput && e.seqNo > 0 && d.store.crashes > 0
    requires Shows(d, DiesAfterGo(e), e) || Shows(d, ReviewGoes(DiesAfterGo(e), e), e)
    ensures d.Ok()
  {
    hide Shows, Agreed, OwnerOk, DiesAfterGo, ReviewGoes, InstanceKey, DigestOf, OwnerOrder;
    DiedAfterGo(e);
    ReviewWent(e);
    if Shows(d, DiesAfterGo(e), e) {
      AloneFacts(DiesAfterGo(e), e, WaitingReview);
      ShownOk(d, DiesAfterGo(e), e, WaitingReview);
    } else {
      AloneFacts(ReviewGoes(DiesAfterGo(e), e), e, Resumed);
      ShownOk(d, ReviewGoes(DiesAfterGo(e), e), e, Resumed);
    }
  }

  /** And any daemon can be in either state of the second. */
  lemma EdgeStatesOk(d: D.Daemon, e: Event)
    requires CleanSource(e.src) && e.kind == CodeFix && e.endpoint != "" && e.seqNo > 0
    requires Shows(d, EdgePending(e), e) || Shows(d, EdgeApplied(e), e)
    ensures d.Ok()
  {
    hide Agreed, InstanceKey, DigestOf, EdgePending, Shows, OwnerOrder, Attempted;
    EdgePendingAgrees(e);
    NestedAckCountsAsApplied(e);
    var w, w' := EdgePending(e), EdgeApplied(e);
    NoOwner(w, e);
    AppliedFacts(w, Sub(e), Succeeds(8.0, ""));
    NoOwner(w', e);
    ShownOk(d, if Shows(d, w, e) then w else w', e, FailedRetryable);
  }

  lemma AppliedFacts(w: World, key: Key, t: Try)
    ensures var w' := Attempted(w, key, t);
      && w'.db == w.db.(outbox := w'.db.outbox) && w'.book.lost == w.book.lost
  {}

  lemma NoOwner(w: World, e: Event)
    requires e.kind == CodeFix && w.db.instances == map[e.src := Instance(CodeFix, FailedRetryable, e.endpoint)]
    ensures OwnerOrder(w.db)
  {}
}
