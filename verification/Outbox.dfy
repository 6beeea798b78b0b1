/** The durable intent / attempt / applied cycle of one board operation
    (continuations/base.py): enqueue by key, check the backoff, call the adapter,
    record the outcome. */
module Outbox {
  import opened Domain
  import opened Store
  import opened Adapter
  import opened Backoff
  import C = Callbacks
  import opened History
  import opened Protocol

  datatype OpResult = OpResult(ok: bool, task: string, error: string)

  /** Store and board agree, and the agreement covers the board's edges. */
  ghost predicate CoreOk(store: ContinuationStore, adapter: BoardAdapter)
    reads store, adapter
  {
    && adapter.Valid() && store.now >= 0.0
    && Inv(store.View(), adapter.tasks)
    && EdgesOk(store.outbox, adapter.subscriptions)
    && adapter.book.lost <= store.crashes && adapter.book.last <= store.now
  }

  /** And every row is what its recorded history made of it. */
  ghost predicate WorldOk(store: ContinuationStore, adapter: BoardAdapter)
    reads store, adapter
  {
    CoreOk(store, adapter) && HistoryOk(store.outbox, adapter.book)
  }

  /** The row that an operation would enqueue is one the invariant allows. */
  ghost predicate Ready(db: Db, tasks: Tasks, key: Key, row: Row) {
    && row.state == Pending && row.nextAt == 0.0
    && RowOk(db, tasks, key, row) && ChainOk(db, key, row)
  }

  /** The tables after one visit to the (possibly just enqueued) row. */
  function VisitDb(db: Db, key: Key, row: Row, t: Try): Db {
    var db1 := EnqueueDb(db, key, row);
    db1.(outbox := db1.outbox[key := Visit(db1.outbox[key], t)])
  }

  function FailureText(r: Result): string {
    var e := if r.error != "" then r.error
             else if !HasFailedNestedAck(r) then ""
             else match r.ack
               case Ack(_, Some(text)) => text
               case Ack(_, None) => "ack_ensure_failed"
               case _ => "ack_malformed";
    C.ErrorText(e, "adapter_error")
  }

  /** When apply_board_operation takes a result for an applied mutation, and when
      reconcile_outbox does. */
  predicate ApplyAccepts(r: Result) { r.ok && !HasFailedNestedAck(r) }
  predicate ReconcileAccepts(r: Result) { r.ok }

  /** The row each of them stores for an answer. */
  function ApplyStores(row: Row, r: Result, mark: real): Row {
    if ApplyAccepts(r) then Marked(row, Applied, r.task, 0.0, "")
    else Marked(row, Pending, "", mark + Delay(row.attempts + 1), FailureText(r))
  }

  function ReconcileStores(row: Row, r: Result, mark: real): Row {
    if ReconcileAccepts(r) then Marked(row, Applied, r.task, 0.0, "")
    else Marked(row, Pending, "", mark + Delay(row.attempts + 1), C.ErrorText(r.error, "adapter_error"))
  }

  /** A top-level success with a failed nested ack must never count as applied.
      What the two drivers store for one row and one answer differs in state, and
      in the retry that follows, exactly there. */
  lemma DriversDifferIff(row: Row, r: Result, mark: real)
    ensures var a, b := ApplyStores(row, r, mark), ReconcileStores(row, r, mark);
      && (a.state != b.state <==> r.ok && HasFailedNestedAck(r))
      && (a.state != b.state ==> b.state == Applied && a.state == Pending && Due(a, a.nextAt))
      && (a.state == b.state ==> a.(lastError := b.lastError) == b)
  {}

  /** The adapter call a mutation row stands for. */
  method CallMutation(adapter: BoardAdapter, key: Key, payload: Payload, ghost db: Db) returns (r: Result)
    requires adapter.Valid() && Mutation(OpOf(key))
    requires Inv(db, adapter.tasks) && key in db.outbox && db.outbox[key].op == OpOf(key)
    requires OpOf(key) == CreateTask ==> db.outbox[key].payload.parent == payload.parent
    modifies adapter
    ensures adapter.Valid() && adapter.calls == old(adapter.calls) + 1
    ensures adapter.book == old(adapter.book)
    ensures Inv(db, adapter.tasks) && Grows(db, old(adapter.tasks), db, adapter.tasks)
    ensures old(adapter.subscriptions) <= adapter.subscriptions
    ensures r.ok && OpOf(key) == CreateTask ==> key in adapter.tasks && r.task == adapter.tasks[key].id && r.task != ""
    ensures r.ok && OpOf(key) != CreateTask ==> r.task == ""
    ensures r.ok && OpOf(key) == Subscribe ==> (payload.task, payload.endpoint) in adapter.subscriptions
    ensures adapter.failures >= old(adapter.failures)
    ensures adapter.failures == old(adapter.failures) ==> ApplyAccepts(r)
  {
    hide Inv, Grows;
    GrowsReflexive(db, adapter.tasks);
    if OpOf(key) == CreateTask {
      r := adapter.CreateTask(key, payload.parent);
      if key !in old(adapter.tasks) && key in adapter.tasks {
        BoardKeeps(db, old(adapter.tasks), key, adapter.tasks[key]);
      }
    } else if OpOf(key) == Subscribe {
      r := adapter.Subscribe(payload.task, payload.endpoint);
    } else {
      r := adapter.CompleteOwnerAnchor(payload.task);
    }
  }

  /** One row changed by one visit, nothing else in the tables. */
  ghost predicate Visited(db: Db, db': Db, key: Key, t: Try)
    requires key in db.outbox
  {
    db' == db.(outbox := db.outbox[key := Visit(db.outbox[key], t)])
  }

  lemma MarkAppliedKeeps(db: Db, tasks: Tasks, subs: set<(string, string)>, key: Key, task: string)
    requires Inv(db, tasks) && EdgesOk(db.outbox, subs)
    requires key in db.outbox && db.outbox[key].state == Pending && Mutation(db.outbox[key].op)
    requires db.outbox[key].op == CreateTask ==> key in tasks && task == tasks[key].id != ""
    requires key.SubscribeKey? ==> (db.outbox[key].payload.task, db.outbox[key].payload.endpoint) in subs
    ensures var db' := MarkDb(db, key, Applied, task, 0.0, "");
      Inv(db', tasks) && Grows(db, tasks, db', tasks) && EdgesOk(db'.outbox, subs)
  {
    hide Inv, Grows;
    MarkKeeps(db, tasks, key, Applied, task, 0.0, "");
  }

  lemma MarkPendingKeeps(db: Db, tasks: Tasks, subs: set<(string, string)>, key: Key, nextAt: real, error: string)
    requires Inv(db, tasks) && EdgesOk(db.outbox, subs)
    requires key in db.outbox && db.outbox[key].state == Pending && Mutation(db.outbox[key].op)
    ensures var db' := MarkDb(db, key, Pending, "", nextAt, error);
      Inv(db', tasks) && Grows(db, tasks, db', tasks) && EdgesOk(db'.outbox, subs)
  {
    hide Inv, Grows;
    MarkKeeps(db, tasks, key, Pending, "", nextAt, error);
  }

  /** Call the adapter for a due mutation row and store what came of it. */
  method CallAndMark(store: ContinuationStore, adapter: BoardAdapter, key: Key, payload: Payload, at: real)
    returns (r: Outcome<OpResult>, ghost t: Try, ghost res: Result)
    requires CoreOk(store, adapter) && Mutation(OpOf(key)) && at <= store.now
    requires key in store.outbox && Due(store.outbox[key], at) && store.outbox[key].op == OpOf(key)
    requires OpOf(key) == CreateTask ==> store.outbox[key].payload.parent == payload.parent
    requires key.SubscribeKey? ==>
      (store.outbox[key].payload.task, store.outbox[key].payload.endpoint) == (payload.task, payload.endpoint)
    modifies store, adapter
    ensures CoreOk(store, adapter) && store.now >= old(store.now) && adapter.book == old(adapter.book)
    ensures Grows(old(store.View()), old(adapter.tasks), store.View(), adapter.tasks)
    ensures old(adapter.subscriptions) <= adapter.subscriptions
    ensures t.at == at <= t.mark <= store.now && Visited(old(store.View()), store.View(), key, t)
    ensures adapter.calls == old(adapter.calls) + 1
    ensures r.Done? ==> store.outbox[key] == ApplyStores(old(store.outbox)[key], res, t.mark)
    ensures r.Done? ==> r.value.ok == ApplyAccepts(res)
    ensures r.Done? && r.value.ok && OpOf(key) == CreateTask ==> r.value.task == store.outbox[key].boardTask != ""
    ensures store.crashes == old(store.crashes) + r.Toll()
    ensures adapter.failures >= old(adapter.failures)
    ensures r.Done? && adapter.failures == old(adapter.failures) ==> r.value.ok
  {
    hide Inv, Grows, FailureText;
    ghost var db0, tasks0 := store.View(), adapter.tasks;
    var row := store.outbox[key];
    t := Try(at, store.now, false, "", "", true);
    assert db0.outbox == db0.outbox[key := row];
    var answer := CallMutation(adapter, key, payload, db0);
    res := answer;
    if ApplyAccepts(answer) {
      MarkAppliedKeeps(db0, adapter.tasks, adapter.subscriptions, key, answer.task);
      GrowsTransitive(db0, tasks0, db0, adapter.tasks, MarkDb(db0, key, Applied, answer.task, 0.0, ""), adapter.tasks);
      var _ :- store.Mark(key, Applied, answer.task, 0.0, "");
      t := t.(ok := true, task := answer.task, lost := false);
      return Done(OpResult(true, answer.task, "")), t, res;
    }
    var error := FailureText(answer);
    var mark := store.Time();
    t := t.(mark := mark);
    var next := mark + Delay(row.attempts + 1);
    MarkPendingKeeps(db0, adapter.tasks, adapter.subscriptions, key, next, error);
    GrowsTransitive(db0, tasks0, db0, adapter.tasks, MarkDb(db0, key, Pending, "", next, error), adapter.tasks);
    var _ :- store.Mark(key, Pending, "", next, error);
    t := t.(error := error, lost := false);
    return Done(OpResult(false, "", error)), t, res;
  }

  /** The same, noted in the row's history. */
  method Attempt(store: ContinuationStore, adapter: BoardAdapter, key: Key, payload: Payload, at: real)
    returns (r: Outcome<OpResult>, ghost t: Try, ghost res: Result)
    requires WorldOk(store, adapter) && Mutation(OpOf(key)) && adapter.book.last <= at <= store.now
    requires key in store.outbox && Due(store.outbox[key], at) && store.outbox[key].op == OpOf(key)
    requires OpOf(key) == CreateTask ==> store.outbox[key].payload.parent == payload.parent
    requires key.SubscribeKey? ==>
      (store.outbox[key].payload.task, store.outbox[key].payload.endpoint) == (payload.task, payload.endpoint)
    modifies store, adapter
    ensures WorldOk(store, adapter) && store.now >= old(store.now)
    ensures Grows(old(store.View()), old(adapter.tasks), store.View(), adapter.tasks)
    ensures old(adapter.subscriptions) <= adapter.subscriptions
    ensures t.at == at <= t.mark && Visited(old(store.View()), store.View(), key, t)
    ensures adapter.calls == old(adapter.calls) + 1 && adapter.book == Tried(old(adapter.book), key, t)
    // what is stored is the judgement of the answer
    ensures r.Done? ==> store.outbox[key] == ApplyStores(old(store.outbox)[key], res, t.mark)
    ensures r.Done? ==> (AppliedIn(store.View(), key) <==> ApplyAccepts(res)) && r.value.ok == ApplyAccepts(res)
    ensures r.Done? && r.value.ok && OpOf(key) == CreateTask ==> r.value.task == store.outbox[key].boardTask != ""
    ensures store.crashes == old(store.crashes) + r.Toll()
    ensures adapter.failures >= old(adapter.failures)
    ensures r.Done? && adapter.failures == old(adapter.failures) ==> r.value.ok
  {
    hide Inv, Grows, EdgesOk, HistoryOk, FailureText, Visit;
    ghost var rows, book := store.outbox, adapter.book;
    MarksBefore(rows, book, key, at);
    r, t, res := CallAndMark(store, adapter, key, payload, at);
    HistoryTried(rows, book, key, t);
    adapter.book := Tried(book, key, t);
  }

  lemma MarksBefore(outbox: map<Key, Row>, book: Book, key: Key, at: real)
    requires HistoryOk(outbox, book) && key in outbox && Mutation(outbox[key].op) && book.last <= at
    ensures MarkedBy(TriesOf(book, key), at)
  {
    assert KeyHistory(outbox, book, key);
  }

  /** The row an operation works on, and the calls one visit to it costs. */
  function RowFor(outbox: map<Key, Row>, key: Key, made: Row): Row { if key in outbox then outbox[key] else made }

  function CallsFor(row: Row, t: Try): nat { if Due(row, t.at) then 1 else 0 }

  /** No backoff keeps the key's row from being tried now. */
  predicate DueRow(outbox: map<Key, Row>, key: Key, at: real) {
    key in outbox && outbox[key].state == Pending ==> outbox[key].nextAt <= at
  }

  /** apply_board_operation for create_task, subscribe, complete_owner_anchor.
      `t` is the visit made to the row; a crash after the call is a lost one. */
  method ApplyMutation(store: ContinuationStore, adapter: BoardAdapter,
                       s: Source, step: Option<Key>, key: Key, payload: Payload)
    returns (r: Outcome<OpResult>, ghost t: Try)
    requires WorldOk(store, adapter) && Mutation(OpOf(key))
    requires Ready(store.View(), adapter.tasks, key, FreshRow(s, step, OpOf(key), payload))
    modifies store, adapter
    ensures WorldOk(store, adapter) && store.now >= old(store.now)
    ensures Grows(old(store.View()), old(adapter.tasks), store.View(), adapter.tasks)
    ensures old(adapter.subscriptions) <= adapter.subscriptions
    ensures old(store.now) <= t.at <= t.mark
    ensures r.Done? ==> store.View() == VisitDb(old(store.View()), key, FreshRow(s, step, OpOf(key), payload), t)
    ensures r.Done? && r.value.ok ==> AppliedIn(store.View(), key)
    ensures r.Done? && r.value.ok && OpOf(key) == CreateTask ==> r.value.task == store.outbox[key].boardTask != ""
    ensures store.crashes == old(store.crashes) + r.Toll()
    ensures adapter.failures >= old(adapter.failures)
    ensures r.Done? && adapter.failures == old(adapter.failures) && DueRow(old(store.outbox), key, old(store.now)) ==> r.value.ok
    ensures OthersSame(old(store.outbox), store.outbox, key) && store.steps == old(store.steps)
    // an applied row, or one still backing off, costs no call; a due one costs one
    ensures r.Done? ==>
      adapter.calls - old(adapter.calls) == CallsFor(RowFor(old(store.outbox), key, FreshRow(s, step, OpOf(key), payload)), t)
  {
    hide Inv, Grows, EdgesOk, Ready, HistoryOk, FailureText, ApplyStores, RowOk, ChainOk;
    ghost var row0 := FreshRow(s, step, OpOf(key), payload);
    ghost var db0, tasks0 := store.View(), adapter.tasks;
    t := Try(store.now, store.now, false, "", "", true);
    GrowsReflexive(db0, tasks0);
    EnqueueReady(db0, tasks0, adapter.subscriptions, key, row0);
    HistoryEnqueued(db0.outbox, adapter.book, key, row0);
    var row :- store.Enqueue(key, s, step, OpOf(key), payload);
    ghost var db1 := store.View();
    assert db1.outbox == db1.outbox[key := row];
    if row.state == Applied { return Done(OpResult(true, row.boardTask, "")), t; }
    var at := store.Time();
    t := t.(at := at, mark := at);
    if row.state == Pending && row.nextAt > at { return Done(OpResult(false, "", "outbox_retry_not_due")), t; }
    ghost var res;
    r, t, res := Attempt(store, adapter, key, payload, at);
    GrowsTransitive(db0, tasks0, db1, tasks0, store.View(), adapter.tasks);
  }

  /** Enqueueing a ready row keeps everything, and the row its key then has asks
      for the same. */
  lemma EnqueueReady(db: Db, tasks: Tasks, subs: set<(string, string)>, key: Key, row: Row)
    requires Inv(db, tasks) && EdgesOk(db.outbox, subs) && Ready(db, tasks, key, row) && Mutation(row.op)
    ensures var db' := EnqueueDb(db, key, row);
      && Inv(db', tasks) && Grows(db, tasks, db', tasks) && EdgesOk(db'.outbox, subs)
      && var there := db'.outbox[key];
        && there.op == row.op == OpOf(key) && there.state != Deadletter
        && (there.state == Applied && OpOf(key) == CreateTask ==> there.boardTask != "")
        && (row.op == CreateTask ==> there.payload.parent == row.payload.parent)
        && (key.SubscribeKey? ==>
             there.payload.task == row.payload.task && there.payload.endpoint == row.payload.endpoint)
  {
    hide Inv, Grows;
    EnqueueKeeps(db, tasks, key, row);
    if key in db.outbox { EnqueueMatches(db, tasks, key, row); }
    InvRow(EnqueueDb(db, key, row), tasks, key);
    if key in tasks { NamedTask(db, tasks, key); }
  }

  lemma NamedTask(db: Db, tasks: Tasks, key: Key)
    requires Inv(db, tasks) && key in tasks
    ensures tasks[key].id != ""
  {}

  // ----- callback-only rows -----

  lemma MarkCallbackKeeps(db: Db, tasks: Tasks, subs: set<(string, string)>, key: Key,
                          state: RowState, nextAt: real, error: string)
    requires Inv(db, tasks) && EdgesOk(db.outbox, subs)
    requires key in db.outbox && C.CallbackOnly(db.outbox[key].op)
    requires db.outbox[key].op == RecordAck ==> C.AckCapped(Marked(db.outbox[key], state, "", nextAt, error))
    ensures var db' := MarkDb(db, key, state, "", nextAt, error);
      Inv(db', tasks) && Grows(db, tasks, db', tasks) && EdgesOk(db'.outbox, subs)
  {
    hide Inv, Grows;
    InvRow(db, tasks, key);
    MarkKeeps(db, tasks, key, state, "", nextAt, error);
  }

  /** The tables with one row replaced. */
  function WithRow(db: Db, key: Key, row: Row): Db { db.(outbox := db.outbox[key := row]) }

  /** _mark_outbox_pending: one more failed attempt, deadlettered at the cap. */
  method MarkFailed(store: ContinuationStore, ghost adapter: BoardAdapter, key: Key, error: string)
    returns (r: Outcome<()>, ghost mark: real)
    requires CoreOk(store, adapter) && key in store.outbox && C.CallbackOnly(store.outbox[key].op)
    requires store.outbox[key].op == RecordAck ==> store.outbox[key].state != Deadletter
    modifies store
    ensures CoreOk(store, adapter) && old(store.now) <= mark <= store.now
    ensures Grows(old(store.View()), adapter.tasks, store.View(), adapter.tasks)
    ensures store.crashes == old(store.crashes) + r.Toll()
    ensures r.Crashed? ==> store.View() == old(store.View())
    ensures r.Done? ==> store.View() == WithRow(old(store.View()), key, C.Failed(old(store.outbox)[key], error, mark))
  {
    hide Inv, Grows;
    var row := store.outbox[key];
    InvRow(store.View(), adapter.tasks, key);
    GrowsReflexive(store.View(), adapter.tasks);
    var now := store.Time();
    mark := now;
    if row.attempts + 1 >= C.RETRY_CAP {
      MarkCallbackKeeps(store.View(), adapter.tasks, adapter.subscriptions, key, Deadletter, 0.0, error);
      r := store.Mark(key, Deadletter, "", 0.0, error);
    } else {
      var next := now + Delay(row.attempts + 1);
      MarkCallbackKeeps(store.View(), adapter.tasks, adapter.subscriptions, key, Pending, next, error);
      r := store.Mark(key, Pending, "", next, error);
    }
  }

  method MarkDelivered(store: ContinuationStore, ghost adapter: BoardAdapter, key: Key)
    returns (r: Outcome<()>)
    requires CoreOk(store, adapter) && key in store.outbox && C.CallbackOnly(store.outbox[key].op)
    requires store.outbox[key].op == RecordAck ==> store.outbox[key].state == Pending
    modifies store
    ensures CoreOk(store, adapter) && store.now == old(store.now)
    ensures Grows(old(store.View()), adapter.tasks, store.View(), adapter.tasks)
    ensures store.crashes == old(store.crashes) + r.Toll()
    ensures r.Crashed? ==> store.View() == old(store.View())
    ensures r.Done? ==> store.View() == WithRow(old(store.View()), key, Marked(old(store.outbox)[key], Applied, "", 0.0, ""))
  {
    hide Inv, Grows;
    InvRow(store.View(), adapter.tasks, key);
    GrowsReflexive(store.View(), adapter.tasks);
    MarkCallbackKeeps(store.View(), adapter.tasks, adapter.subscriptions, key, Applied, 0.0, "");
    r := store.Mark(key, Applied, "", 0.0, "");
  }

  /** Enqueue an operation's row, or find the one its key already has. */
  method EnqueueRow(store: ContinuationStore, ghost adapter: BoardAdapter,
                    s: Source, step: Option<Key>, key: Key, payload: Payload)
    returns (r: Outcome<Row>)
    requires WorldOk(store, adapter)
    requires Ready(store.View(), adapter.tasks, key, FreshRow(s, step, OpOf(key), payload))
    modifies store
    ensures WorldOk(store, adapter) && store.now == old(store.now)
    ensures Grows(old(store.View()), adapter.tasks, store.View(), adapter.tasks)
    ensures store.crashes == old(store.crashes) + r.Toll()
    ensures r.Crashed? ==> store.View() == old(store.View())
    ensures r.Done? ==> store.View() == EnqueueDb(old(store.View()), key, FreshRow(s, step, OpOf(key), payload))
    ensures r.Done? ==> r.value == store.outbox[key] && r.value.op == OpOf(key)
    ensures OthersSame(old(store.outbox), store.outbox, key)
  {
    hide Inv, Grows, HistoryOk;
    GrowsReflexive(store.View(), adapter.tasks);
    HistoryEnqueued(store.outbox, adapter.book, key, FreshRow(s, step, OpOf(key), payload));
    EnqueueKeeps(store.View(), adapter.tasks, key, FreshRow(s, step, OpOf(key), payload));
    r := store.Enqueue(key, s, step, OpOf(key), payload);
    if r.Done? { InvRow(store.View(), adapter.tasks, key); }
  }

  /** Enqueueing and then driving a row changes that row alone. */
  lemma DrivenOne(db: Db, db1: Db, key: Key, row: Row)
    requires OthersSame(db.outbox, db1.outbox, key) && key in db1.outbox
    ensures OthersSame(db.outbox, WithRow(db1, key, row).outbox, key)
  {}

  /** The book once a turn's record or schedule call is counted. */
  function RecordedBy(b: Book, key: Key, row: Row, v: Turn): Book {
    b.(recorded := Bumped(b.recorded, key, C.AckRecords(row, v)))
  }
  function ScheduledBy(b: Book, key: Key, row: Row, v: Turn): Book {
    b.(scheduled := Bumped(b.scheduled, key, C.Schedules(row, v)))
  }

  /** _apply_record_consumer_ack on an enqueued row. */
  method AskAck(store: ContinuationStore, adapter: BoardAdapter, key: Key)
    returns (r: Outcome<OpResult>, ghost v: Turn)
    requires CoreOk(store, adapter) && key in store.outbox && store.outbox[key].op == RecordAck
    modifies store, adapter
    ensures CoreOk(store, adapter) && store.now >= old(store.now)
    ensures Grows(old(store.View()), old(adapter.tasks), store.View(), adapter.tasks)
    ensures adapter.subscriptions == old(adapter.subscriptions) && adapter.tasks == old(adapter.tasks)
    ensures store.View() == WithRow(old(store.View()), key, C.AckRow(old(store.outbox)[key], v))
    ensures adapter.failures == old(adapter.failures)
    ensures v.driver == ViaApply && v.lost == r.Crashed?
    ensures !C.AckAsks(old(store.outbox)[key], v) ==> adapter.calls == old(adapter.calls)
    ensures adapter.book == RecordedBy(old(adapter.book), key, old(store.outbox)[key], v)
    ensures store.crashes == old(store.crashes) + r.Toll()
  {
    hide Inv, Grows, EdgesOk, Marked, C.Failed, C.ErrorText;
    var row := store.outbox[key];
    ghost var db := store.View();
    GrowsReflexive(db, adapter.tasks);
    assert WithRow(db, key, row) == db by { assert db.outbox[key := row] == db.outbox; }
    v := Turn(ViaApply, store.now, store.now, true, Result(false, "", "", NoAck), false, false);
    if row.state == Deadletter {
      return Done(OpResult(false, "", C.ErrorText(row.lastError, "callback_deadletter"))), v;
    }
    var error: string;
    if row.state == Applied {
      var verified := adapter.Probe();
      if verified { return Done(OpResult(true, row.boardTask, "")), v; }
      v := v.(before := false);
      error := "consumer_ack_not_verified";
    } else {
      var at := store.Time();
      v := v.(at := at);
      if row.nextAt > at { return Done(OpResult(false, "", "outbox_retry_not_due")), v; }
      var res := adapter.RecordConsumerAck(key);
      v := v.(result := res);
      if res.ok {
        var verified := adapter.Probe();
        if verified {
          v := v.(after := true, lost := true);
          var _ :- MarkDelivered(store, adapter, key);
          v := v.(lost := false);
          return Done(OpResult(true, row.boardTask, "")), v;
        }
        error := "consumer_ack_not_verified";
      } else {
        error := C.ErrorText(res.error, "consumer_ack_failed");
      }
    }
    v := v.(lost := true);
    ghost var mark;
    var done;
    done, mark := MarkFailed(store, adapter, key, error);
    if done.Crashed? { return Crashed, v; }
    v := v.(mark := mark, lost := false);
    return Done(OpResult(false, "", error)), v;
  }

  /** The same, noted in the row's history. */
  method DriveAck(store: ContinuationStore, adapter: BoardAdapter, key: Key)
    returns (r: Outcome<OpResult>, ghost v: Turn)
    requires WorldOk(store, adapter) && key in store.outbox && store.outbox[key].op == RecordAck
    modifies store, adapter
    ensures WorldOk(store, adapter) && store.now >= old(store.now)
    ensures Grows(old(store.View()), old(adapter.tasks), store.View(), adapter.tasks)
    ensures adapter.subscriptions == old(adapter.subscriptions) && adapter.tasks == old(adapter.tasks)
    ensures store.View() == WithRow(old(store.View()), key, C.AckRow(old(store.outbox)[key], v))
    ensures adapter.failures == old(adapter.failures)
    ensures v.driver == ViaApply && v.lost == r.Crashed?
    ensures !C.AckAsks(old(store.outbox)[key], v) ==> adapter.calls == old(adapter.calls)
    ensures adapter.book == Turned(RecordedBy(old(adapter.book), key, old(store.outbox)[key], v), key, v)
    ensures store.crashes == old(store.crashes) + r.Toll()
  {
    hide Inv, Grows, EdgesOk, HistoryOk, C.AckRow, C.AckRecords, C.AckAsks;
    ghost var rows, book := store.outbox, adapter.book;
    r, v := AskAck(store, adapter, key);
    HistoryAcked(rows, book, adapter.book, key, v);
    adapter.book := Turned(adapter.book, key, v);
  }

  /** _apply_schedule_origin_wake on an enqueued row. */
  method AskWake(store: ContinuationStore, adapter: BoardAdapter, key: Key)
    returns (r: Outcome<OpResult>, ghost v: Turn)
    requires CoreOk(store, adapter) && key in store.outbox && store.outbox[key].op == ScheduleWake
    modifies store, adapter
    ensures CoreOk(store, adapter) && store.now >= old(store.now)
    ensures Grows(old(store.View()), old(adapter.tasks), store.View(), adapter.tasks)
    ensures adapter.subscriptions == old(adapter.subscriptions) && adapter.tasks == old(adapter.tasks)
    ensures store.View() == WithRow(old(store.View()), key, C.WakeRow(old(store.outbox)[key], v))
    ensures adapter.failures == old(adapter.failures)
    ensures adapter.book == ScheduledBy(old(adapter.book), key, old(store.outbox)[key], v)
    ensures v.result.ok ==> v.result.error == ""
    ensures v.driver == ViaApply && v.lost == r.Crashed?
    ensures store.crashes == old(store.crashes) + r.Toll()
  {
    hide Inv, Grows, EdgesOk, Marked, C.Failed, C.ErrorText;
    var row := store.outbox[key];
    ghost var db := store.View();
    GrowsReflexive(db, adapter.tasks);
    assert WithRow(db, key, row) == db by { assert db.outbox[key := row] == db.outbox; }
    v := Turn(ViaApply, store.now, store.now, false, Result(false, "", "", NoAck), false, false);
    if row.state == Deadletter {
      return Done(OpResult(false, "", C.ErrorText(row.lastError, "callback_deadletter"))), v;
    }
    var error := C.NOT_YET;
    if row.state == Applied {
      var satisfied := adapter.Probe();
      v := v.(before := satisfied);
      if satisfied { return Done(OpResult(true, row.boardTask, "")), v; }
    } else {
      var at := store.Time();
      v := v.(at := at);
      if row.nextAt > at { return Done(OpResult(false, "", "outbox_retry_not_due")), v; }
      var satisfied := adapter.Probe();
      v := v.(before := satisfied);
      if !satisfied && row.lastError != C.NOT_YET {
        var res := adapter.ScheduleOriginWake(key);
        v := v.(result := res);
        if res.ok { satisfied := adapter.Probe(); }
        v := v.(after := satisfied);
        error := C.ErrorText(res.error, C.NOT_YET);
      }
      if satisfied {
        v := v.(lost := true);
        var _ :- MarkDelivered(store, adapter, key);
        v := v.(lost := false);
        return Done(OpResult(true, row.boardTask, "")), v;
      }
    }
    v := v.(lost := true);
    ghost var mark;
    var done;
    done, mark := MarkFailed(store, adapter, key, error);
    if done.Crashed? { return Crashed, v; }
    v := v.(mark := mark, lost := false);
    return Done(OpResult(false, "", error)), v;
  }

  /** The same, noted in the row's history. */
  method DriveWake(store: ContinuationStore, adapter: BoardAdapter, key: Key)
    returns (r: Outcome<OpResult>, ghost v: Turn)
    requires WorldOk(store, adapter) && key in store.outbox && store.outbox[key].op == ScheduleWake
    modifies store, adapter
    ensures WorldOk(store, adapter) && store.now >= old(store.now)
    ensures Grows(old(store.View()), old(adapter.tasks), store.View(), adapter.tasks)
    ensures adapter.subscriptions == old(adapter.subscriptions) && adapter.tasks == old(adapter.tasks)
    ensures store.View() == WithRow(old(store.View()), key, C.WakeRow(old(store.outbox)[key], v))
    ensures adapter.failures == old(adapter.failures)
    ensures adapter.book == Turned(ScheduledBy(old(adapter.book), key, old(store.outbox)[key], v), key, v)
    ensures v.driver == ViaApply && v.lost == r.Crashed?
    ensures store.crashes == old(store.crashes) + r.Toll()
  {
    hide Inv, Grows, EdgesOk, HistoryOk, C.WakeRow, C.Schedules;
    ghost var rows, book := store.outbox, adapter.book;
    r, v := AskWake(store, adapter, key);
    HistoryWoken(rows, book, adapter.book, key, v);
    adapter.book := Turned(adapter.book, key, v);
  }
}
