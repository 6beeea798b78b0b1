/** CodeFixHandler (continuations/code_fix.py): one runnable fix task, one review
    task linked to it, one return edge, each through the durable outbox. */
module CodeFixHandler {
  import opened Domain
  import opened Store
  import opened Adapter
  import opened History
  import opened Protocol
  import opened Outbox
  import opened Handlers

  predicate PendingOf(outbox: map<Key, Row>, s: Source, k: Key) {
    k in outbox && outbox[k].src == s && outbox[k].state == Pending
  }

  /** outbox_pending_retry_at: the source has pending rows and none is due. */
  predicate NoneDue(outbox: map<Key, Row>, s: Source, at: real) {
    && (exists k :: k in outbox && PendingOf(outbox, s, k))
    && (forall k :: k in outbox && PendingOf(outbox, s, k) ==> outbox[k].nextAt > at)
  }

  predicate AllDue(outbox: map<Key, Row>, s: Source, at: real) {
    forall k :: k in outbox && PendingOf(outbox, s, k) ==> outbox[k].nextAt <= at
  }

  /** _create: the step, and the board task under its key. */
  method Create(store: ContinuationStore, adapter: BoardAdapter, s: Source, key: Key,
                parentKey: Option<Key>, payload: Payload)
    returns (r: Outcome<Option<string>>)
    requires WorldOk(store, adapter) && OpOf(key) == CreateTask && KindOf(key) == CodeFix
    requires key.ReviewKey? ==> parentKey == Some(FixKey(key.digest)) && (s, FixKey(key.digest)) in store.steps
    requires Ready(store.View(), adapter.tasks, key, FreshRow(s, Some(key), CreateTask, payload))
    modifies store, adapter
    ensures WorldOk(store, adapter) && store.now >= old(store.now)
    ensures Grows(old(store.View()), old(adapter.tasks), store.View(), adapter.tasks)
    ensures old(adapter.subscriptions) <= adapter.subscriptions
    ensures OthersSame(old(store.outbox), store.outbox, key)
    ensures r.Done? && r.value.Some? ==> AppliedIn(store.View(), key) && r.value.value == store.outbox[key].boardTask
    ensures r.Done? ==> (s, key) in store.steps
    ensures store.crashes == old(store.crashes) + r.Toll()
    ensures adapter.failures >= old(adapter.failures)
    ensures r.Done? && adapter.failures == old(adapter.failures) && DueRow(old(store.outbox), key, old(store.now)) ==> r.value.Some?
  {
    hide Inv, Grows, EdgesOk, HistoryOk, OthersSame, DueRow, Ready;
    ghost var db0, tasks0 := store.View(), adapter.tasks;
    GrowsReflexive(db0, tasks0);
    SameOutbox(store.outbox, key);
    var parent := if parentKey.Some? && (s, parentKey.value) in store.steps then parentKey else None;
    ReadyStill(db0, tasks0, s, key, parent, payload);
    AddStepKeeps(db0, tasks0, s, key, parent);
    var step :- store.AddStep(s, key, parent);
    ghost var db1 := store.View();
    InvStep(db1, tasks0, s, key);
    if !step.0 && step.1.boardTask != "" { return Done(Some(step.1.boardTask)); }
    r := CreateOnBoard(store, adapter, s, key, payload);
    GrowsTransitive(db0, tasks0, db1, tasks0, store.View(), adapter.tasks);
  }

  lemma SameOutbox(outbox: map<Key, Row>, key: Key)
    ensures OthersSame(outbox, outbox, key)
  {}

  lemma ReadyStill(db: Db, tasks: Tasks, s: Source, key: Key, parent: Option<Key>, payload: Payload)
    requires Ready(db, tasks, key, FreshRow(s, Some(key), CreateTask, payload))
    ensures s in db.instances && key.digest == DigestOf(s) && KindOf(key) == db.instances[s].kind
    ensures Ready(AddStepDb(db, s, key, parent), tasks, key, FreshRow(s, Some(key), CreateTask, payload))
  {}

  /** What one of the two creates needs to be enqueued. */
  lemma CreateReady(db: Db, tasks: Tasks, s: Source, key: Key, payload: Payload)
    requires Inv(db, tasks) && s in db.instances && db.instances[s].kind == CodeFix
    requires key == FixKey(DigestOf(s)) || key == ReviewKey(DigestOf(s))
    requires key.FixKey? ==> payload.parent == ""
    requires key.ReviewKey? ==>
      AppliedIn(db, FixKey(DigestOf(s))) && payload.parent == db.outbox[FixKey(DigestOf(s))].boardTask
    ensures Ready(db, tasks, key, FreshRow(s, Some(key), CreateTask, payload))
  {
    InvInstance(db, tasks, s);
  }

  lemma EdgeReady(db: Db, tasks: Tasks, s: Source, endpoint: string, task: string)
    requires Inv(db, tasks) && s in db.instances && db.instances[s].kind == CodeFix
    requires AppliedIn(db, ReviewKey(DigestOf(s))) && task == db.outbox[ReviewKey(DigestOf(s))].boardTask
    ensures Ready(db, tasks, SubscribeKey(DigestOf(s), endpoint),
      FreshRow(s, None, Subscribe, Payload(task, endpoint, "", "")))
  {
    hide Inv, InstanceKey;
    CleanInstance(db, tasks, s);
  }

  lemma AckReady(db: Db, tasks: Tasks, s: Source, endpoint: string, status: string)
    requires Inv(db, tasks) && s in db.instances && db.instances[s].kind == CodeFix
    ensures Ready(db, tasks, FixAckKey(DigestOf(s), endpoint),
      FreshRow(s, None, RecordAck, Payload(s.task, endpoint, "", status)))
  {
    hide Inv, InstanceKey;
    CleanInstance(db, tasks, s);
  }

  /** Rows other than an applied one are as they were, and time has passed. */
  lemma StillDue(outbox: map<Key, Row>, at: real, outbox': map<Key, Row>, at': real, s: Source, key: Key)
    requires AllDue(outbox, s, at) && at <= at' && OthersSame(outbox, outbox', key)
    requires key in outbox' && outbox'[key].state == Applied
    ensures AllDue(outbox', s, at')
  {}

  /** Steps 1 and 2: the fix task and the review task. Some(id) is the review's. */
  method BuildTasks(store: ContinuationStore, adapter: BoardAdapter, s: Source)
    returns (r: Outcome<Option<string>>, reason: string)
    requires WorldOk(store, adapter) && s in store.instances && store.instances[s].kind == CodeFix
    modifies store, adapter
    ensures WorldOk(store, adapter) && store.now >= old(store.now)
    ensures Grows(old(store.View()), old(adapter.tasks), store.View(), adapter.tasks)
    ensures old(adapter.subscriptions) <= adapter.subscriptions
    ensures r.Done? && r.value.Some? ==>
      && AppliedIn(store.View(), FixKey(DigestOf(s))) && AppliedIn(store.View(), ReviewKey(DigestOf(s)))
      && r.value.value == store.outbox[ReviewKey(DigestOf(s))].boardTask
      && (s, FixKey(DigestOf(s))) in store.steps && (s, ReviewKey(DigestOf(s))) in store.steps
    ensures RowsOnly(old(store.outbox), store.outbox, s)
    ensures store.crashes == old(store.crashes) + r.Toll()
    ensures adapter.failures >= old(adapter.failures)
    ensures r.Done? && adapter.failures == old(adapter.failures) && AllDue(old(store.outbox), s, old(store.now))
      ==> r.value.Some? && AllDue(store.outbox, s, store.now)
  {
    hide Inv, Grows, LogOk, Ready, OthersSame, AllDue, EdgesOk, HistoryOk, RowsOnly;
    ghost var db0, tasks0, now0 := store.View(), adapter.tasks, store.now;
    var d := DigestOf(s);
    reason := "";
    CreateReady(db0, tasks0, s, FixKey(d), NO_PAYLOAD);
    DueNow(db0, tasks0, s, FixKey(d), now0);
    var fix := Create(store, adapter, s, FixKey(d), None, NO_PAYLOAD);
    ghost var db1, tasks1, now1 := store.View(), adapter.tasks, store.now;
    GrowsFacts(db0, tasks0, db1, tasks1);
    RowsOfOne(db0, db1, tasks1, s, FixKey(d));
    if fix.Crashed? { return Crashed, ""; }
    if fix.value.None? { return Done(None), "fix_create_failed"; }
    var payload := NO_PAYLOAD.(parent := fix.value.value);
    CreateReady(db1, tasks1, s, ReviewKey(d), payload);
    if AllDue(db0.outbox, s, now0) { StillDue(db0.outbox, now0, db1.outbox, now1, s, FixKey(d)); }
    DueNow(db1, tasks1, s, ReviewKey(d), now1);
    r := Create(store, adapter, s, ReviewKey(d), Some(FixKey(d)), payload);
    ghost var db2, tasks2 := store.View(), adapter.tasks;
    GrowsTransitive(db0, tasks0, db1, tasks1, db2, tasks2);
    GrowsFacts(db1, tasks1, db2, tasks2);
    RowsOfOne(db1, db2, tasks2, s, ReviewKey(d));
    RowsOnlyTransitive(db0.outbox, db1.outbox, db2.outbox, s);
    AppliedStays(db1, tasks1, db2, tasks2, FixKey(d));
    StepStays(db1, tasks1, db2, tasks2, s, FixKey(d));
    if r.Done? && r.value.Some? && AllDue(db1.outbox, s, now1) {
      StillDue(db1.outbox, now1, db2.outbox, store.now, s, ReviewKey(d));
    }
    reason := "review_create_failed";
  }

  /** Rows under a source's digest are its rows, hence due when all of them are. */
  lemma DueNow(db: Db, tasks: Tasks, s: Source, key: Key, at: real)
    requires Inv(db, tasks) && s in db.instances && key.digest == DigestOf(s)
    ensures AllDue(db.outbox, s, at) ==> DueRow(db.outbox, key, at)
  {
    RowSource(db, tasks, s, key);
  }

  /** Step 3, the return edge, and step 4, the best-effort ACK. */
  method ReturnEdge(store: ContinuationStore, adapter: BoardAdapter, s: Source, endpoint: string, task: string)
    returns (r: Outcome<bool>)
    requires WorldOk(store, adapter) && s in store.instances && store.instances[s].kind == CodeFix
    requires AppliedIn(store.View(), ReviewKey(DigestOf(s)))
    requires task == store.outbox[ReviewKey(DigestOf(s))].boardTask
    modifies store, adapter
    ensures WorldOk(store, adapter) && store.now >= old(store.now)
    ensures Grows(old(store.View()), old(adapter.tasks), store.View(), adapter.tasks)
    ensures old(adapter.subscriptions) <= adapter.subscriptions
    ensures r.Done? && r.value ==>
      AppliedIn(store.View(), SubscribeKey(DigestOf(s), endpoint)) && FixAckKey(DigestOf(s), endpoint) in store.outbox
    ensures RowsOnly(old(store.outbox), store.outbox, s)
    ensures store.crashes == old(store.crashes) + r.Toll()
    ensures adapter.failures >= old(adapter.failures)
    ensures r.Done? && adapter.failures == old(adapter.failures) && AllDue(old(store.outbox), s, old(store.now)) ==> r.value
  {
    hide Inv, Grows, LogOk, Ready, OthersSame, AllDue, EdgesOk, HistoryOk, RowsOnly;
    ghost var db0, tasks0 := store.View(), adapter.tasks;
    var d := DigestOf(s);
    EdgeReady(db0, tasks0, s, endpoint, task);
    DueNow(db0, tasks0, s, SubscribeKey(d, endpoint), store.now);
    var sub, _ := ApplyMutation(store, adapter, s, None, SubscribeKey(d, endpoint), Payload(task, endpoint, "", ""));
    ghost var db1, tasks1 := store.View(), adapter.tasks;
    GrowsFacts(db0, tasks0, db1, tasks1);
    RowsOfOne(db0, db1, tasks1, s, SubscribeKey(d, endpoint));
    if sub.Crashed? { return Crashed; }
    if !sub.value.ok { return Done(false); }
    AckReady(db1, tasks1, s, endpoint, "semantic_block_remediation_created");
    var row := EnqueueRow(store, adapter, s, None, FixAckKey(d, endpoint),
      Payload(s.task, endpoint, "", "semantic_block_remediation_created"));
    ghost var db2, tasks2 := store.View(), adapter.tasks;
    GrowsTransitive(db0, tasks0, db1, tasks1, db2, tasks2);
    if row.Crashed? { return Crashed; }
    var ack, _ := DriveAck(store, adapter, FixAckKey(d, endpoint));
    GrowsTransitive(db0, tasks0, db2, tasks2, store.View(), adapter.tasks);
    GrowsTransitive(db1, tasks1, db2, tasks2, store.View(), adapter.tasks);
    GrowsFacts(db1, tasks1, store.View(), adapter.tasks);
    DrivenOne(db1, db2, FixAckKey(d, endpoint), store.outbox[FixAckKey(d, endpoint)]);
    RowsOfOne(db1, store.View(), adapter.tasks, s, FixAckKey(d, endpoint));
    RowsOnlyTransitive(db0.outbox, db1.outbox, store.outbox, s);
    if ack.Crashed? { return Crashed; }
    AppliedStays(db1, tasks1, store.View(), adapter.tasks, SubscribeKey(d, endpoint));
    return Done(true);
  }

  /** Steps 1 to 4. */
  method BuildGraph(store: ContinuationStore, adapter: BoardAdapter, s: Source, endpoint: string)
    returns (r: Outcome<bool>, reason: string)
    requires WorldOk(store, adapter) && s in store.instances && store.instances[s].kind == CodeFix
    modifies store, adapter
    ensures WorldOk(store, adapter) && store.now >= old(store.now)
    ensures Grows(old(store.View()), old(adapter.tasks), store.View(), adapter.tasks)
    ensures old(adapter.subscriptions) <= adapter.subscriptions
    ensures r.Done? && r.value ==>
      GraphDone(store.View(), s, endpoint) && (endpoint != "" ==> FixAckKey(DigestOf(s), endpoint) in store.outbox)
    ensures RowsOnly(old(store.outbox), store.outbox, s)
    ensures store.crashes == old(store.crashes) + r.Toll()
    ensures adapter.failures >= old(adapter.failures)
    ensures r.Done? && adapter.failures == old(adapter.failures) && AllDue(old(store.outbox), s, old(store.now)) ==> r.value
  {
    hide Inv, Grows, LogOk, AllDue, EdgesOk, HistoryOk, RowsOnly;
    ghost var db0, tasks0 := store.View(), adapter.tasks;
    var review;
    review, reason := BuildTasks(store, adapter, s);
    if review.Crashed? { return Crashed, ""; }
    if review.value.None? { return Done(false), reason; }
    if endpoint == "" { return Done(true), ""; }
    ghost var db1, tasks1 := store.View(), adapter.tasks;
    GrowsFacts(db0, tasks0, db1, tasks1);
    r := ReturnEdge(store, adapter, s, endpoint, review.value.value);
    RowsOnlyTransitive(db0.outbox, db1.outbox, store.outbox, s);
    GrowsTransitive(db0, tasks0, db1, tasks1, store.View(), adapter.tasks);
    AppliedStays(db1, tasks1, store.View(), adapter.tasks, FixKey(DigestOf(s)));
    AppliedStays(db1, tasks1, store.View(), adapter.tasks, ReviewKey(DigestOf(s)));
    reason := "review_subscribe_failed";
  }

  /** The state the handler works in, after the retry gate let it through. */
  method Enter(store: ContinuationStore, ghost adapter: BoardAdapter, s: Source)
    returns (r: Outcome<State>)
    requires WorldOk(store, adapter) && s in store.instances && store.instances[s].kind == CodeFix
    modifies store
    ensures WorldOk(store, adapter) && store.now == old(store.now) && store.outbox == old(store.outbox)
    ensures Handles(old(store.View()), adapter.tasks, store.View(), adapter.tasks, s)
    ensures r.Done? ==> s in store.instances && r.value == store.instances[s].state
    ensures r.Done? ==> r.value == Materializing || r.value == WaitingReview
    ensures store.crashes == old(store.crashes) + r.Toll()
  {
    hide Inv, Handles, LogOk, EdgesOk, HistoryOk;
    ghost var db0 := store.View();
    InvInstance(db0, adapter.tasks, s);
    InvLogged(db0, adapter.tasks, s);
    var state := store.instances[s].state;
    if state == Detected || state == FailedRetryable {
      var _ :- Move(store, adapter, s, Materializing, "code_fix_detected");
      return Done(store.instances[s].state);
    }
    GrowsReflexive(db0, adapter.tasks);
    GrowsHandles(db0, adapter.tasks, db0, adapter.tasks, s);
    return Done(state);
  }

  /** The last transition: a built graph waits for its review, anything else is
      left to a retry (_fail). */
  method Finish(store: ContinuationStore, ghost adapter: BoardAdapter, s: Source, built: bool, reason: string)
    returns (r: Outcome<StepResult>)
    requires WorldOk(store, adapter) && s in store.instances && store.instances[s].kind == CodeFix
    requires store.instances[s].state == Materializing || store.instances[s].state == WaitingReview
    requires built ==> GraphDone(store.View(), s, store.instances[s].endpoint)
    modifies store
    ensures WorldOk(store, adapter) && store.now == old(store.now) && store.outbox == old(store.outbox)
    ensures Handles(old(store.View()), adapter.tasks, store.View(), adapter.tasks, s)
    ensures r.Done? ==> r.value == (if built then StepResult(true, "") else StepResult(false, reason))
    ensures r.Done? ==> s in store.instances && store.instances[s].state == if built then WaitingReview else FailedRetryable
    ensures store.crashes == old(store.crashes) + r.Toll()
  {
    hide Inv, Handles, LogOk, EdgesOk, HistoryOk, GraphDone;
    ghost var db := store.View();
    InvLogged(db, adapter.tasks, s);
    GrowsReflexive(db, adapter.tasks);
    NoRows(db.outbox, s);
    GrowsHandles(db, adapter.tasks, db, adapter.tasks, s);
    if built && store.instances[s].state == WaitingReview { return Done(StepResult(true, "")); }
    var to := if built then WaitingReview else FailedRetryable;
    var moved := Move(store, adapter, s, to, if built then "code_fix_graph_materialized" else reason);
    if moved.Crashed? { return Crashed; }
    return Done(if built then StepResult(true, "") else StepResult(false, reason));
  }

  /** Everything after the retry gate. */
  method Advance(store: ContinuationStore, adapter: BoardAdapter, e: Event)
    returns (r: Outcome<StepResult>)
    requires WorldOk(store, adapter) && e.kind == CodeFix && Knows(store.View(), e) && e.src in store.instances
    modifies store, adapter
    ensures WorldOk(store, adapter) && store.now >= old(store.now)
    ensures Handles(old(store.View()), old(adapter.tasks), store.View(), adapter.tasks, e.src)
    ensures old(adapter.subscriptions) <= adapter.subscriptions
    ensures Knows(store.View(), e)
    ensures r.Done? ==>
      && e.src in store.instances
      && store.instances[e.src].state == if r.value.ok then WaitingReview else FailedRetryable
    ensures r.Done? && r.value.ok && e.endpoint != "" ==> FixAckKey(DigestOf(e.src), e.endpoint) in store.outbox
    ensures store.crashes == old(store.crashes) + r.Toll()
    ensures adapter.failures >= old(adapter.failures)
    ensures r.Done? && adapter.failures == old(adapter.failures) && AllDue(old(store.outbox), e.src, old(store.now)) ==> r.value.ok
  {
    hide Inv, Handles, LogOk, EdgesOk, HistoryOk, GraphDone, Grows, AllDue, NoneDue, PendingOf, RowsOnly, AppliedIn;
    var s := e.src;
    ghost var db0, tasks0 := store.View(), adapter.tasks;
    var state := Enter(store, adapter, s);
    ghost var db1 := store.View();
    HandlesKnows(db0, tasks0, db1, tasks0, e);
    if state.Crashed? { return Crashed; }
    var built, reason := BuildGraph(store, adapter, s, e.endpoint);
    ghost var db2, tasks2 := store.View(), adapter.tasks;
    GrowsHandles(db1, tasks0, db2, tasks2, s);
    HandlesTransitive(db0, tasks0, db1, tasks0, db2, tasks2, s);
    GrowsFacts(db1, tasks0, db2, tasks2);
    if built.Crashed? { return Crashed; }
    r := Finish(store, adapter, s, built.value, reason);
    HandlesTransitive(db0, tasks0, db2, tasks2, store.View(), adapter.tasks, s);
    HandlesKnows(db2, tasks2, store.View(), adapter.tasks, e);
  }

  /** materialize: from whatever a run of calls and crashes left behind, build
      the graph or park the instance for a retry. */
  method Materialize(store: ContinuationStore, adapter: BoardAdapter, e: Event)
    returns (r: Outcome<StepResult>)
    requires WorldOk(store, adapter) && CleanSource(e.src) && e.kind == CodeFix && Knows(store.View(), e)
    modifies store, adapter
    ensures WorldOk(store, adapter) && store.now >= old(store.now)
    ensures Handles(old(store.View()), old(adapter.tasks), store.View(), adapter.tasks, e.src)
    ensures old(adapter.subscriptions) <= adapter.subscriptions
    ensures Knows(store.View(), e)
    ensures r.Done? ==>
      && e.src in store.instances
      && store.instances[e.src].state == if r.value.ok then WaitingReview else FailedRetryable
    ensures r.Done? && r.value.ok && e.endpoint != "" ==> FixAckKey(DigestOf(e.src), e.endpoint) in store.outbox
    // convergence: with a cooperating adapter and every pending row due
    ensures store.crashes == old(store.crashes) + r.Toll()
    ensures adapter.failures >= old(adapter.failures)
    ensures r.Done? && adapter.failures == old(adapter.failures) && AllDue(old(store.outbox), e.src, old(store.now)) ==> r.value.ok
    // a replay while no pending row is due costs nothing
    ensures (&& e.src in old(store.instances) && old(store.instances)[e.src].state == FailedRetryable
             && NoneDue(old(store.outbox), e.src, store.now)) ==>
        && store.View() == old(store.View()) && adapter.calls == old(adapter.calls)
        && adapter.tasks == old(adapter.tasks) && adapter.subscriptions == old(adapter.subscriptions)
        && (r.Done? ==> r.value == StepResult(false, "outbox_retry_not_due"))
  {
    hide Inv, Handles, LogOk, EdgesOk, HistoryOk, GraphDone, Grows;
    var s := e.src;
    ghost var db0, tasks0 := store.View(), adapter.tasks;
    var found := Open(store, adapter, e);
    if found.Crashed? { return Crashed; }
    ghost var db1 := store.View();
    if store.instances[s].state == FailedRetryable {
      var at := store.Time();
      if NoneDue(store.outbox, s, at) { return Done(StepResult(false, "outbox_retry_not_due")); }
    }
    assert store.View() == db1;
    r := Advance(store, adapter, e);
    HandlesTransitive(db0, tasks0, db1, tasks0, store.View(), adapter.tasks, s);
  }
}
