/** SemanticRefusalHandler (continuations/semantic_refusal.py): quarantine an
    unsafe outcome durably, wake its origin, and create no task. */
module SemanticRefusalHandler {
  import opened Domain
  import opened Store
  import opened Adapter
  import opened Backoff
  import C = Callbacks
  import opened History
  import opened Protocol
  import opened Outbox
  import opened Handlers

  lemma WakeReady(db: Db, tasks: Tasks, s: Source, endpoint: string)
    requires Inv(db, tasks) && s in db.instances && db.instances[s].kind == SemanticRefusal
    ensures Ready(db, tasks, WakeKey(DigestOf(s), endpoint),
      FreshRow(s, None, ScheduleWake, Payload(s.task, endpoint, "", "")))
  {
    hide Inv, InstanceKey;
    CleanInstance(db, tasks, s);
  }

  lemma AckReady(db: Db, tasks: Tasks, s: Source, endpoint: string)
    requires Inv(db, tasks) && s in db.instances && db.instances[s].kind == SemanticRefusal
    ensures Ready(db, tasks, RefusalAckKey(DigestOf(s), endpoint),
      FreshRow(s, None, RecordAck, Payload(s.task, endpoint, "", "semantic_refusal_ack")))
  {
    hide Inv, InstanceKey;
    CleanInstance(db, tasks, s);
  }

  /** _mark_wake_pending: the bounded backoff, without the retry cap. */
  method MarkWakePending(store: ContinuationStore, ghost adapter: BoardAdapter, key: Key, error: string)
    returns (r: Outcome<()>, ghost mark: real)
    requires CoreOk(store, adapter) && key in store.outbox && store.outbox[key].op == ScheduleWake
    modifies store
    ensures CoreOk(store, adapter) && old(store.now) <= mark <= store.now
    ensures Grows(old(store.View()), adapter.tasks, store.View(), adapter.tasks)
    ensures store.crashes == old(store.crashes) + r.Toll()
    ensures r.Crashed? ==> store.View() == old(store.View())
    ensures r.Done? ==>
      store.View() == WithRow(old(store.View()), key, C.WakePending(old(store.outbox)[key], error, mark))
  {
    hide Inv, Grows, EdgesOk, HistoryOk;
    GrowsReflexive(store.View(), adapter.tasks);
    var row := store.outbox[key];
    var now := store.Time();
    mark := now;
    var next := now + Delay(row.attempts + 1);
    MarkCallbackKeeps(store.View(), adapter.tasks, adapter.subscriptions, key, Pending, next, error);
    r := store.Mark(key, Pending, "", next, error);
  }

  /** _ensure_origin_wake on an enqueued row. */
  method AskOrigin(store: ContinuationStore, adapter: BoardAdapter, key: Key)
    returns (r: Outcome<OpResult>, ghost v: Turn)
    requires CoreOk(store, adapter) && key in store.outbox && store.outbox[key].op == ScheduleWake
    modifies store, adapter
    ensures CoreOk(store, adapter) && store.now >= old(store.now)
    ensures Grows(old(store.View()), old(adapter.tasks), store.View(), adapter.tasks)
    ensures adapter.subscriptions == old(adapter.subscriptions) && adapter.tasks == old(adapter.tasks)
    ensures store.View() == WithRow(old(store.View()), key, C.WakeRow(old(store.outbox)[key], v))
    ensures v.driver == ViaHandler && v.lost == r.Crashed? && adapter.failures == old(adapter.failures)
    ensures adapter.book == ScheduledBy(old(adapter.book), key, old(store.outbox)[key], v)
    ensures v.result.ok ==> v.result.error == ""
    ensures store.crashes == old(store.crashes) + r.Toll()
  {
    hide Inv, Grows, EdgesOk, HistoryOk, Marked, C.WakePending, C.ErrorText;
    var row := store.outbox[key];
    ghost var db := store.View();
    GrowsReflexive(db, adapter.tasks);
    assert WithRow(db, key, row) == db by { assert db.outbox[key := row] == db.outbox; }
    v := Turn(ViaHandler, store.now, store.now, false, Result(false, "", "", NoAck), false, false);
    var satisfied := adapter.Probe();
    v := v.(before := satisfied);
    if row.state == Applied && satisfied { return Done(OpResult(true, row.boardTask, "")), v; }
    var error := C.NOT_YET;
    if row.state != Applied && !satisfied {
      var at := store.Time();
      v := v.(at := at);
      if row.nextAt > at { return Done(OpResult(false, "", "outbox_retry_not_due")), v; }
      if row.lastError != C.NOT_YET {
        var res := adapter.ScheduleOriginWake(key);
        v := v.(result := res);
        if res.ok { satisfied := adapter.Probe(); } else { error := C.ErrorText(res.error, "origin_wake_schedule_failed"); }
        v := v.(after := satisfied);
      }
    }
    v := v.(lost := true);
    if satisfied {
      var _ :- MarkDelivered(store, adapter, key);
      v := v.(lost := false);
      return Done(OpResult(true, "", "")), v;
    }
    ghost var mark;
    var done;
    done, mark := MarkWakePending(store, adapter, key, error);
    if done.Crashed? { return Crashed, v; }
    v := v.(mark := mark, lost := false);
    return Done(OpResult(false, "", error)), v;
  }

  /** The same, noted in the row's history. */
  method EnsureWake(store: ContinuationStore, adapter: BoardAdapter, key: Key)
    returns (r: Outcome<OpResult>, ghost v: Turn)
    requires WorldOk(store, adapter) && key in store.outbox && store.outbox[key].op == ScheduleWake
    modifies store, adapter
    ensures WorldOk(store, adapter) && store.now >= old(store.now)
    ensures Grows(old(store.View()), old(adapter.tasks), store.View(), adapter.tasks)
    ensures adapter.subscriptions == old(adapter.subscriptions) && adapter.tasks == old(adapter.tasks)
    ensures store.View() == WithRow(old(store.View()), key, C.WakeRow(old(store.outbox)[key], v))
    ensures v.driver == ViaHandler && v.lost == r.Crashed? && adapter.failures == old(adapter.failures)
    ensures adapter.book == Turned(ScheduledBy(old(adapter.book), key, old(store.outbox)[key], v), key, v)
    ensures store.crashes == old(store.crashes) + r.Toll()
  {
    hide Inv, Grows, EdgesOk, HistoryOk, C.WakeRow, C.Schedules;
    ghost var rows, book := store.outbox, adapter.book;
    r, v := AskOrigin(store, adapter, key);
    HistoryWoken(rows, book, adapter.book, key, v);
    adapter.book := Turned(adapter.book, key, v);
  }

  lemma RefusalStates(db: Db, tasks: Tasks, s: Source)
    requires Inv(db, tasks) && IsKind(db, s, SemanticRefusal)
    ensures db.instances[s].state in {Detected, Materializing, BlockedInvalid} && s in db.events
  {
    InvInstance(db, tasks, s);
    InvLogged(db, tasks, s);
  }

  /** Out of a fresh detection into the working state. */
  method Normalize(store: ContinuationStore, ghost adapter: BoardAdapter, s: Source)
    returns (r: Outcome<()>)
    requires WorldOk(store, adapter) && IsKind(store.View(), s, SemanticRefusal)
    modifies store
    ensures WorldOk(store, adapter) && store.now == old(store.now) && store.outbox == old(store.outbox)
    ensures Handles(old(store.View()), adapter.tasks, store.View(), adapter.tasks, s)
    ensures r.Done? ==> IsKind(store.View(), s, SemanticRefusal) && store.instances[s].state != Detected
    ensures store.crashes == old(store.crashes) + r.Toll()
  {
    hide Inv, Handles, LogOk, EdgesOk, HistoryOk;
    ghost var db, tasks := store.View(), adapter.tasks;
    RefusalStates(db, tasks, s);
    GrowsReflexive(db, tasks);
    GrowsHandles(db, tasks, db, tasks, s);
    if store.instances[s].state == Detected || store.instances[s].state == FailedRetryable {
      r := Move(store, adapter, s, Materializing, "semantic_refusal_detected");
    } else {
      r := Done(());
    }
  }

  /** Step 1: the durable acknowledgement, then the quarantine. */
  method Quarantine(store: ContinuationStore, ghost adapter: BoardAdapter, s: Source)
    returns (r: Outcome<()>)
    requires WorldOk(store, adapter) && IsKind(store.View(), s, SemanticRefusal)
    modifies store
    ensures WorldOk(store, adapter) && store.now == old(store.now) && store.outbox == old(store.outbox)
    ensures Handles(old(store.View()), adapter.tasks, store.View(), adapter.tasks, s)
    ensures r.Done? ==> s in store.instances && store.instances[s].state == BlockedInvalid
    ensures store.crashes == old(store.crashes) + r.Toll()
  {
    hide Inv, Handles, LogOk, EdgesOk, HistoryOk, GraphDone;
    ghost var db0, tasks := store.View(), adapter.tasks;
    var ready := Normalize(store, adapter, s);
    if ready.Crashed? { return Crashed; }
    ghost var db1 := store.View();
    SatisfyKeeps(db1, tasks, s, REFUSAL_FIELD);
    var noted := store.RecordSatisfaction(s, REFUSAL_FIELD);
    if noted.Crashed? { return Crashed; }
    ghost var db2 := store.View();
    HandlesTransitive(db0, tasks, db1, tasks, db2, tasks, s);
    RefusalStates(db2, tasks, s);
    if store.instances[s].state != BlockedInvalid {
      r := Move(store, adapter, s, BlockedInvalid, "semantic_refusal_quarantined");
      HandlesTransitive(db0, tasks, db2, tasks, store.View(), tasks, s);
    } else {
      r := Done(());
    }
  }

  /** Step 2: the wake and the consumer ACK, both best effort. */
  method Callbacks(store: ContinuationStore, adapter: BoardAdapter, s: Source, endpoint: string)
    returns (r: Outcome<()>)
    requires WorldOk(store, adapter) && s in store.instances && store.instances[s].kind == SemanticRefusal
    modifies store, adapter
    ensures WorldOk(store, adapter) && store.now >= old(store.now)
    ensures Grows(old(store.View()), old(adapter.tasks), store.View(), adapter.tasks)
    ensures adapter.subscriptions == old(adapter.subscriptions) && adapter.tasks == old(adapter.tasks)
    ensures RowsOnly(old(store.outbox), store.outbox, s) && adapter.failures == old(adapter.failures)
    ensures store.crashes == old(store.crashes) + r.Toll()
    ensures r.Done? ==> WakeKey(DigestOf(s), endpoint) in store.outbox && RefusalAckKey(DigestOf(s), endpoint) in store.outbox
  {
    hide Inv, Grows, EdgesOk, HistoryOk, Ready, LogOk, RowsOnly, OthersSame, C.WakeRow, C.AckRow;
    ghost var db0, tasks := store.View(), adapter.tasks;
    var wake, ack := WakeKey(DigestOf(s), endpoint), RefusalAckKey(DigestOf(s), endpoint);
    WakeReady(db0, tasks, s, endpoint);
    var w := EnqueueRow(store, adapter, s, None, wake, Payload(s.task, endpoint, "", ""));
    if w.Crashed? { NoRows(db0.outbox, s); return Crashed; }
    ghost var db1 := store.View();
    var woken, _ := EnsureWake(store, adapter, wake);
    ghost var db2 := store.View();
    GrowsTransitive(db0, tasks, db1, tasks, db2, tasks);
    GrowsFacts(db0, tasks, db2, tasks);
    DrivenOne(db0, db1, wake, db2.outbox[wake]);
    RowsOfOne(db0, db2, tasks, s, wake);
    if woken.Crashed? { return Crashed; }
    AckReady(db2, tasks, s, endpoint);
    var a := EnqueueRow(store, adapter, s, None, ack, Payload(s.task, endpoint, "", "semantic_refusal_ack"));
    ghost var db3 := store.View();
    GrowsTransitive(db0, tasks, db2, tasks, db3, tasks);
    if a.Crashed? { return Crashed; }
    var acked, _ := DriveAck(store, adapter, ack);
    GrowsTransitive(db0, tasks, db3, tasks, store.View(), tasks);
    GrowsFacts(db0, tasks, store.View(), tasks);
    DrivenOne(db2, db3, ack, store.outbox[ack]);
    RowsOfOne(db2, store.View(), tasks, s, ack);
    RowsOnlyTransitive(db0.outbox, db2.outbox, store.outbox, s);
    r := if acked.Crashed? then Crashed else Done(());
  }

  /** materialize: never fails short of a crash, never touches the board's tasks
      or edges, and always ends in quarantine. */
  method Materialize(store: ContinuationStore, adapter: BoardAdapter, e: Event)
    returns (r: Outcome<StepResult>)
    requires WorldOk(store, adapter) && CleanSource(e.src) && e.kind == SemanticRefusal && Knows(store.View(), e)
    modifies store, adapter
    ensures WorldOk(store, adapter) && store.now >= old(store.now)
    ensures Handles(old(store.View()), old(adapter.tasks), store.View(), adapter.tasks, e.src)
    ensures adapter.subscriptions == old(adapter.subscriptions) && adapter.tasks == old(adapter.tasks)
    ensures adapter.failures == old(adapter.failures) && Knows(store.View(), e)
    ensures r.Done? ==> r.value.ok && e.src in store.instances && store.instances[e.src].state == BlockedInvalid
    ensures store.crashes == old(store.crashes) + r.Toll()
    ensures r.Done? && e.endpoint != "" ==>
      && WakeKey(DigestOf(e.src), e.endpoint) in store.outbox
      && RefusalAckKey(DigestOf(e.src), e.endpoint) in store.outbox
  {
    hide Inv, Handles, LogOk, EdgesOk, HistoryOk, Grows, RowsOnly;
    var s := e.src;
    ghost var db0, tasks := store.View(), adapter.tasks;
    var found := Open(store, adapter, e);
    if found.Crashed? { return Crashed; }
    ghost var db1 := store.View();
    var parked := Quarantine(store, adapter, s);
    ghost var db2 := store.View();
    HandlesTransitive(db0, tasks, db1, tasks, db2, tasks, s);
    HandlesKnows(db1, tasks, db2, tasks, e);
    if parked.Crashed? { return Crashed; }
    if e.endpoint == "" { return Done(StepResult(true, "")); }
    var called := Callbacks(store, adapter, s, e.endpoint);
    GrowsHandles(db2, tasks, store.View(), tasks, s);
    HandlesTransitive(db0, tasks, db2, tasks, store.View(), tasks, s);
    GrowsFacts(db2, tasks, store.View(), tasks);
    r := if called.Crashed? then Crashed else Done(StepResult(true, ""));
  }
}
