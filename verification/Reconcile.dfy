/** reconcile_outbox (continuation_engine.py): one recorded attempt for every
    pending row that is due, whichever handler enqueued it. */
module Reconciler {
  import opened Domain
  import opened Store
  import opened Adapter
  import opened Backoff
  import C = Callbacks
  import opened History
  import opened Protocol
  import opened Outbox

  /** What one retried row looks like afterwards: one attempt more and, for a
      mutation the adapter carried out, applied. */
  predicate Retried(row: Row, row': Row) {
    && row'.attempts == row.attempts + 1
    && (row'.state == Pending ==> row'.nextAt > row.nextAt)
  }

  /** The row's step, when it has one, is marked applied under the task. */
  predicate StepMarked(row: Row, steps: map<(Source, Key), Step>, task: string) {
    row.step.Some? && (row.src, row.step.value) in steps ==>
      var step := steps[(row.src, row.step.value)];
      step.applied && (task != "" ==> step.boardTask == task)
  }

  /** mark_step of the row's step, when it has one. */
  method MarkRowStep(store: ContinuationStore, ghost adapter: BoardAdapter, key: Key, task: string)
    returns (r: Outcome<()>)
    requires CoreOk(store, adapter) && key in store.outbox
    requires task != "" ==>
      AppliedIn(store.View(), key) && store.outbox[key].boardTask == task && store.outbox[key].op == CreateTask
    modifies store
    ensures CoreOk(store, adapter) && store.now == old(store.now) && store.outbox == old(store.outbox)
    ensures Grows(old(store.View()), adapter.tasks, store.View(), adapter.tasks)
    ensures store.steps.Keys == old(store.steps.Keys)
    ensures r.Done? ==> StepMarked(store.outbox[key], store.steps, task)
    ensures store.crashes == old(store.crashes) + r.Toll()
  {
    hide Inv, Grows, EdgesOk;
    ghost var db, tasks := store.View(), adapter.tasks;
    GrowsReflexive(db, tasks);
    InvRow(db, tasks, key);
    var row := store.outbox[key];
    if row.step.None? { return Done(()); }
    MarkStepKeeps(db, tasks, row.src, row.step.value, task);
    r := store.MarkStep(row.src, row.step.value, task);
  }

  /** Call the adapter for a due create, subscribe or anchor completion and store
      what came of it. Only the top-level success counts here. */
  method CallAndStore(store: ContinuationStore, adapter: BoardAdapter, key: Key, at: real)
    returns (r: Outcome<()>, ghost t: Try, ghost res: Result)
    requires CoreOk(store, adapter) && at <= store.now && Mutation(OpOf(key))
    requires key in store.outbox && Due(store.outbox[key], at) && store.outbox[key].op == OpOf(key)
    modifies store, adapter
    ensures CoreOk(store, adapter) && store.now >= old(store.now)
    ensures Grows(old(store.View()), old(adapter.tasks), store.View(), adapter.tasks)
    ensures old(adapter.subscriptions) <= adapter.subscriptions && store.steps.Keys == old(store.steps.Keys)
    ensures t.at == at <= t.mark <= store.now && store.outbox == old(store.outbox)[key := Visit(old(store.outbox)[key], t)]
    ensures adapter.book == old(adapter.book)
    ensures r.Done? ==> store.outbox[key] == ReconcileStores(old(store.outbox)[key], res, t.mark)
    ensures r.Done? ==> t.ok == ReconcileAccepts(res)
    ensures r.Done? ==> !t.lost && (t.ok ==> StepMarked(store.outbox[key], store.steps, t.task))
    ensures store.crashes == old(store.crashes) + r.Toll()
    ensures adapter.failures >= old(adapter.failures)
    ensures r.Done? && adapter.failures == old(adapter.failures) ==> t.ok
  {
    hide Inv, Grows, HistoryOk;
    ghost var db0, tasks0 := store.View(), adapter.tasks;
    var row := store.outbox[key];
    t := Try(at, store.now, false, "", "", true);
    assert db0.outbox == db0.outbox[key := row];
    var answer := CallMutation(adapter, key, row.payload, db0);
    res := answer;
    if ReconcileAccepts(answer) {
      ghost var db1 := MarkDb(db0, key, Applied, answer.task, 0.0, "");
      MarkedApplied(db0, adapter.tasks, adapter.subscriptions, key, answer.task, row.payload);
      GrowsTransitive(db0, tasks0, db0, adapter.tasks, db1, adapter.tasks);
      var _ :- store.Mark(key, Applied, answer.task, 0.0, "");
      t := t.(ok := true, task := answer.task, lost := false);
      r := MarkRowStep(store, adapter, key, answer.task);
      GrowsTransitive(db0, tasks0, db1, adapter.tasks, store.View(), adapter.tasks);
    } else {
      var mark := store.Time();
      var error := C.ErrorText(answer.error, "adapter_error");
      var next := mark + Delay(row.attempts + 1);
      t := t.(mark := mark);
      MarkPendingKeeps(db0, adapter.tasks, adapter.subscriptions, key, next, error);
      GrowsTransitive(db0, tasks0, db0, adapter.tasks, MarkDb(db0, key, Pending, "", next, error), adapter.tasks);
      r := store.Mark(key, Pending, "", next, error);
      t := t.(error := error, lost := r.Crashed?);
    }
  }

  /** The same, noted in the row's history. */
  method RetryMutation(store: ContinuationStore, adapter: BoardAdapter, key: Key, at: real)
    returns (r: Outcome<()>, ghost t: Try, ghost res: Result)
    requires WorldOk(store, adapter) && at <= store.now && Mutation(OpOf(key)) && MarkedBy(TriesOf(adapter.book, key), at)
    requires key in store.outbox && Due(store.outbox[key], at) && store.outbox[key].op == OpOf(key)
    modifies store, adapter
    ensures WorldOk(store, adapter) && store.now >= old(store.now)
    ensures Grows(old(store.View()), old(adapter.tasks), store.View(), adapter.tasks)
    ensures old(adapter.subscriptions) <= adapter.subscriptions && store.steps.Keys == old(store.steps.Keys)
    ensures t.at == at <= t.mark && store.outbox == old(store.outbox)[key := Visit(old(store.outbox)[key], t)]
    ensures adapter.book == Tried(old(adapter.book), key, t)
    // what is stored is the judgement of the answer
    ensures r.Done? ==> store.outbox[key] == ReconcileStores(old(store.outbox)[key], res, t.mark)
    ensures r.Done? ==> (AppliedIn(store.View(), key) <==> ReconcileAccepts(res)) && t.ok == ReconcileAccepts(res)
    ensures r.Done? ==> !t.lost && (t.ok ==> StepMarked(store.outbox[key], store.steps, t.task))
    ensures store.crashes == old(store.crashes) + r.Toll()
    ensures adapter.failures >= old(adapter.failures)
    ensures r.Done? && adapter.failures == old(adapter.failures) ==> t.ok
  {
    hide Inv, Grows, EdgesOk, HistoryOk, Visit;
    ghost var rows, book := store.outbox, adapter.book;
    r, t, res := CallAndStore(store, adapter, key, at);
    HistoryTried(rows, book, key, t);
    adapter.book := Tried(book, key, t);
  }

  lemma MarkedApplied(db: Db, tasks: Tasks, subs: set<(string, string)>, key: Key, task: string, payload: Payload)
    requires Inv(db, tasks) && EdgesOk(db.outbox, subs)
    requires key in db.outbox && db.outbox[key].state == Pending && db.outbox[key].op == OpOf(key)
    requires Mutation(OpOf(key)) && payload == db.outbox[key].payload
    requires OpOf(key) == CreateTask ==> key in tasks && task == tasks[key].id != ""
    requires OpOf(key) == Subscribe ==> (payload.task, payload.endpoint) in subs
    ensures var db' := MarkDb(db, key, Applied, task, 0.0, "");
      Inv(db', tasks) && Grows(db, tasks, db', tasks) && EdgesOk(db'.outbox, subs)
  {
    hide Inv, Grows, EdgesOk;
    MarkAppliedKeeps(db, tasks, subs, key, task);
  }

  /** A due consumer ACK: probe first, then record, then verify. */
  method AskAgain(store: ContinuationStore, adapter: BoardAdapter, key: Key, at: real)
    returns (r: Outcome<()>, ghost v: Turn)
    requires CoreOk(store, adapter) && at <= store.now
    requires key in store.outbox && Due(store.outbox[key], at) && store.outbox[key].op == RecordAck
    modifies store, adapter
    ensures CoreOk(store, adapter) && store.now >= old(store.now)
    ensures Grows(old(store.View()), old(adapter.tasks), store.View(), adapter.tasks)
    ensures adapter.subscriptions == old(adapter.subscriptions) && adapter.tasks == old(adapter.tasks)
    ensures adapter.failures == old(adapter.failures)
    ensures adapter.book == RecordedBy(old(adapter.book), key, old(store.outbox)[key], v)
    ensures store.View() == WithRow(old(store.View()), key, C.AckRow(old(store.outbox)[key], v))
    ensures v.driver == ViaReconcile && v.at == at <= v.mark && v.lost == r.Crashed?
    ensures store.crashes == old(store.crashes) + r.Toll()
  {
    hide Inv, Grows, EdgesOk;
    var row := store.outbox[key];
    ghost var db := store.View();
    GrowsReflexive(db, adapter.tasks);
    assert WithRow(db, key, row) == db by { assert db.outbox[key := row] == db.outbox; }
    var before := adapter.Probe();
    v := Turn(ViaReconcile, at, store.now, before, Result(false, "", "", NoAck), false, true);
    var delivered, error := before, "";
    if !before {
      var res := adapter.RecordConsumerAck(key);
      v := v.(result := res);
      if res.ok {
        delivered := adapter.Probe();
        v := v.(after := delivered);
        error := "consumer_ack_not_verified";
      } else {
        error := C.ErrorText(res.error, "adapter_error");
      }
    }
    if delivered {
      r := MarkDelivered(store, adapter, key);
      v := v.(lost := r.Crashed?);
    } else {
      ghost var mark;
      r, mark := MarkFailed(store, adapter, key, error);
      v := v.(mark := mark, lost := r.Crashed?);
    }
  }

  /** The same, noted in the row's history. */
  method RetryAck(store: ContinuationStore, adapter: BoardAdapter, key: Key, at: real)
    returns (r: Outcome<()>, ghost v: Turn)
    requires WorldOk(store, adapter) && at <= store.now
    requires key in store.outbox && Due(store.outbox[key], at) && store.outbox[key].op == RecordAck
    modifies store, adapter
    ensures WorldOk(store, adapter) && store.now >= old(store.now)
    ensures Grows(old(store.View()), old(adapter.tasks), store.View(), adapter.tasks)
    ensures adapter.subscriptions == old(adapter.subscriptions) && adapter.tasks == old(adapter.tasks)
    ensures adapter.failures == old(adapter.failures)
    ensures adapter.book == Turned(RecordedBy(old(adapter.book), key, old(store.outbox)[key], v), key, v)
    ensures store.View() == WithRow(old(store.View()), key, C.AckRow(old(store.outbox)[key], v))
    ensures v.driver == ViaReconcile && v.at == at <= v.mark && v.lost == r.Crashed?
    ensures store.crashes == old(store.crashes) + r.Toll()
  {
    hide Inv, Grows, EdgesOk, HistoryOk, C.AckRow, C.AckRecords;
    ghost var rows, book := store.outbox, adapter.book;
    r, v := AskAgain(store, adapter, key, at);
    HistoryAcked(rows, book, adapter.book, key, v);
    adapter.book := Turned(adapter.book, key, v);
  }

  /** A due origin wake: at most one schedule call until it is accepted. */
  method WakeAgain(store: ContinuationStore, adapter: BoardAdapter, key: Key, at: real)
    returns (r: Outcome<()>, ghost v: Turn)
    requires CoreOk(store, adapter) && at <= store.now
    requires key in store.outbox && Due(store.outbox[key], at) && store.outbox[key].op == ScheduleWake
    modifies store, adapter
    ensures CoreOk(store, adapter) && store.now >= old(store.now)
    ensures Grows(old(store.View()), old(adapter.tasks), store.View(), adapter.tasks)
    ensures adapter.subscriptions == old(adapter.subscriptions) && adapter.tasks == old(adapter.tasks)
    ensures adapter.failures == old(adapter.failures)
    ensures adapter.book == ScheduledBy(old(adapter.book), key, old(store.outbox)[key], v)
    ensures v.result.ok ==> v.result.error == ""
    ensures store.View() == WithRow(old(store.View()), key, C.WakeRow(old(store.outbox)[key], v))
    ensures v.driver == ViaReconcile && v.at == at <= v.mark && v.lost == r.Crashed?
    ensures store.crashes == old(store.crashes) + r.Toll()
  {
    hide Inv, Grows, EdgesOk;
    var row := store.outbox[key];
    ghost var db := store.View();
    GrowsReflexive(db, adapter.tasks);
    assert WithRow(db, key, row) == db by { assert db.outbox[key := row] == db.outbox; }
    var before := adapter.Probe();
    v := Turn(ViaReconcile, at, store.now, before, Result(false, "", "", NoAck), false, true);
    var delivered, error := before, C.NOT_YET;
    if !before && row.lastError != C.NOT_YET {
      var res := adapter.ScheduleOriginWake(key);
      v := v.(result := res);
      if res.ok {
        delivered := adapter.Probe();
        v := v.(after := delivered);
      } else {
        error := C.ErrorText(res.error, "adapter_error");
      }
    }
    if delivered {
      r := MarkDelivered(store, adapter, key);
      v := v.(lost := r.Crashed?);
    } else {
      ghost var mark;
      r, mark := MarkFailed(store, adapter, key, error);
      v := v.(mark := mark, lost := r.Crashed?);
    }
  }

  /** The same, noted in the row's history. */
  method RetryWake(store: ContinuationStore, adapter: BoardAdapter, key: Key, at: real)
    returns (r: Outcome<()>, ghost v: Turn)
    requires WorldOk(store, adapter) && at <= store.now
    requires key in store.outbox && Due(store.outbox[key], at) && store.outbox[key].op == ScheduleWake
    modifies store, adapter
    ensures WorldOk(store, adapter) && store.now >= old(store.now)
    ensures Grows(old(store.View()), old(adapter.tasks), store.View(), adapter.tasks)
    ensures adapter.subscriptions == old(adapter.subscriptions) && adapter.tasks == old(adapter.tasks)
    ensures adapter.failures == old(adapter.failures)
    ensures adapter.book == Turned(ScheduledBy(old(adapter.book), key, old(store.outbox)[key], v), key, v)
    ensures store.View() == WithRow(old(store.View()), key, C.WakeRow(old(store.outbox)[key], v))
    ensures v.driver == ViaReconcile && v.at == at <= v.mark && v.lost == r.Crashed?
    ensures store.crashes == old(store.crashes) + r.Toll()
  {
    hide Inv, Grows, EdgesOk, HistoryOk, C.WakeRow, C.Schedules;
    ghost var rows, book := store.outbox, adapter.book;
    r, v := WakeAgain(store, adapter, key, at);
    HistoryWoken(rows, book, adapter.book, key, v);
    adapter.book := Turned(adapter.book, key, v);
  }

  lemma VisitRetries(row: Row, t: Try)
    requires Due(row, t.at) && t.at <= t.mark && !t.lost
    ensures Retried(row, Visit(row, t)) && (t.ok ==> Visit(row, t).state == Applied)
  {
    DelayBoundedMonotone(row.attempts + 1, row.attempts + 1);
  }

  lemma CallbackRetries(row: Row, v: Turn)
    requires Due(row, v.at) && v.at <= v.mark && !v.lost && v.driver == ViaReconcile
    ensures Retried(row, C.AckRow(row, v)) && Retried(row, C.WakeRow(row, v))
  {
    DelayBoundedMonotone(row.attempts + 1, row.attempts + 1);
  }

  /** One due row, whatever its operation. */
  method RetryRow(store: ContinuationStore, adapter: BoardAdapter, key: Key, at: real)
    returns (r: Outcome<()>)
    requires WorldOk(store, adapter) && at <= store.now
    requires key in store.outbox && Due(store.outbox[key], at)
    requires MarkedBy(TriesOf(adapter.book, key), at)
    modifies store, adapter
    ensures WorldOk(store, adapter) && store.now >= old(store.now)
    ensures Grows(old(store.View()), old(adapter.tasks), store.View(), adapter.tasks)
    ensures old(adapter.subscriptions) <= adapter.subscriptions && store.steps.Keys == old(store.steps.Keys)
    ensures store.outbox.Keys == old(store.outbox).Keys
    ensures forall k :: k in store.outbox && k != key ==> store.outbox[k] == old(store.outbox)[k]
    ensures r.Done? ==> Retried(old(store.outbox)[key], store.outbox[key])
    ensures forall k :: k != key ==> TriesOf(adapter.book, k) == TriesOf(old(adapter.book), k)
    ensures store.crashes == old(store.crashes) + r.Toll()
    ensures adapter.failures >= old(adapter.failures)
    ensures r.Done? && adapter.failures == old(adapter.failures) && Mutation(store.outbox[key].op)
      ==> store.outbox[key].state == Applied
  {
    hide Inv, Grows, EdgesOk, HistoryOk, Retried, RowOk, ChainOk, Visit, C.AckRow, C.WakeRow;
    RowOp(store.View(), adapter.tasks, key);
    var row := store.outbox[key];
    if Mutation(row.op) {
      ghost var tried, res;
      r, tried, res := RetryMutation(store, adapter, key, at);
      if r.Done? { VisitRetries(row, tried); }
    } else if row.op == RecordAck {
      ghost var acked;
      r, acked := RetryAck(store, adapter, key, at);
      if r.Done? { CallbackRetries(row, acked); }
    } else {
      ghost var woken;
      r, woken := RetryWake(store, adapter, key, at);
      if r.Done? { CallbackRetries(row, woken); }
    }
    SameOp(key, old(store.View()), old(adapter.tasks), store.View(), adapter.tasks);
  }

  lemma RowOp(db: Db, tasks: Tasks, key: Key)
    requires Inv(db, tasks) && key in db.outbox
    ensures db.outbox[key].op == OpOf(key)
  {
    InvRow(db, tasks, key);
  }

  lemma SameOp(key: Key, db: Db, tasks: Tasks, db': Db, tasks': Tasks)
    requires Grows(db, tasks, db', tasks') && key in db.outbox
    ensures key in db'.outbox && db'.outbox[key].op == db.outbox[key].op
  {}

  /** All tries so far were marked before a pass begins. */
  lemma AllMarksBefore(outbox: map<Key, Row>, book: Book, at: real)
    requires HistoryOk(outbox, book) && book.last <= at
    ensures forall k :: k in outbox ==> MarkedBy(TriesOf(book, k), at)
  {
    forall k | k in outbox ensures MarkedBy(TriesOf(book, k), at) {
      assert KeyHistory(outbox, book, k);
      assert RowHistory(outbox[k], book, k);
    }
  }

  /** How far a pass over the due rows has come: rows in `todo` and rows not due
      are as they were, every other row has been retried. */
  ghost predicate Passed(rows: map<Key, Row>, outbox: map<Key, Row>, todo: set<Key>, at: real, clean: bool) {
    && outbox.Keys == rows.Keys
    && (forall k :: k in todo ==> k in rows && Due(rows[k], at))
    && (forall k :: k in rows && (k in todo || !Due(rows[k], at)) ==> outbox[k] == rows[k])
    && (forall k :: k in rows && k !in todo && Due(rows[k], at) ==>
         && Retried(rows[k], outbox[k])
         && (clean && Mutation(outbox[k].op) ==> outbox[k].state == Applied))
  }

  lemma PassStarts(rows: map<Key, Row>, todo: set<Key>, at: real)
    requires todo == set k | k in rows && Due(rows[k], at)
    ensures Passed(rows, rows, todo, at, true)
  {}

  lemma PassStep(rows: map<Key, Row>, outbox: map<Key, Row>, outbox': map<Key, Row>, todo: set<Key>, at: real,
                 clean: bool, clean': bool, key: Key)
    requires Passed(rows, outbox, todo, at, clean) && key in todo && (clean' ==> clean)
    requires outbox'.Keys == outbox.Keys && forall k :: k in outbox' && k != key ==> outbox'[k] == outbox[k]
    requires Retried(outbox[key], outbox'[key])
    requires clean' && Mutation(outbox'[key].op) ==> outbox'[key].state == Applied
    ensures Passed(rows, outbox', todo - {key}, at, clean')
  {
    hide Retried, Due, Mutation;
  }

  lemma PassDue(rows: map<Key, Row>, outbox: map<Key, Row>, todo: set<Key>, at: real, clean: bool, key: Key)
    requires Passed(rows, outbox, todo, at, clean) && key in todo
    ensures key in outbox && outbox[key] == rows[key] && Due(outbox[key], at)
  {}

  lemma PassEnds(rows: map<Key, Row>, outbox: map<Key, Row>, todo: set<Key>, at: real, clean: bool)
    requires Passed(rows, outbox, todo, at, clean)
    ensures outbox.Keys == rows.Keys
    ensures forall k :: k in outbox && !Due(rows[k], at) ==> outbox[k] == rows[k]
    ensures todo == {} ==> forall k :: k in outbox && Due(rows[k], at) ==>
      Retried(rows[k], outbox[k]) && (clean && Mutation(outbox[k].op) ==> outbox[k].state == Applied)
  {}

  /** A crash part way through one row leaves the rows that were not due alone. */
  lemma PassCut(rows: map<Key, Row>, outbox: map<Key, Row>, outbox': map<Key, Row>, todo: set<Key>, at: real,
                clean: bool, key: Key)
    requires Passed(rows, outbox, todo, at, clean) && key in todo
    requires outbox'.Keys == outbox.Keys && forall k :: k in outbox' && k != key ==> outbox'[k] == outbox[k]
    ensures outbox'.Keys == rows.Keys
    ensures forall k :: k in outbox' && !Due(rows[k], at) ==> outbox'[k] == rows[k]
  {}

  /** reconcile_outbox: rows not due when it starts are left alone, every due row
      gets one recorded attempt, and a cooperating board applies every due
      mutation. */
  method Reconcile(store: ContinuationStore, adapter: BoardAdapter)
    returns (r: Outcome<()>, ghost at: real)
    requires WorldOk(store, adapter)
    modifies store, adapter
    ensures WorldOk(store, adapter) && store.now >= at >= old(store.now)
    ensures Grows(old(store.View()), old(adapter.tasks), store.View(), adapter.tasks)
    ensures old(adapter.subscriptions) <= adapter.subscriptions && store.steps.Keys == old(store.steps.Keys)
    ensures store.outbox.Keys == old(store.outbox).Keys
    ensures forall k :: k in store.outbox && !Due(old(store.outbox)[k], at) ==> store.outbox[k] == old(store.outbox)[k]
    ensures r.Done? ==> forall k :: k in store.outbox && Due(old(store.outbox)[k], at) ==>
      && Retried(old(store.outbox)[k], store.outbox[k])
      && (adapter.failures == old(adapter.failures) && Mutation(store.outbox[k].op) ==> store.outbox[k].state == Applied)
    ensures store.crashes == old(store.crashes) + r.Toll()
    ensures adapter.failures >= old(adapter.failures)
  {
    hide Inv, Grows, EdgesOk, HistoryOk, Retried, Due, Mutation, Passed;
    ghost var db0, tasks0 := store.View(), adapter.tasks;
    GrowsReflexive(db0, tasks0);
    var now := store.Time();
    at := now;
    ghost var rows := store.outbox;
    var todo := set k | k in store.outbox && Due(store.outbox[k], now);
    PassStarts(rows, todo, at);
    AllMarksBefore(rows, adapter.book, at);
    while todo != {}
      invariant WorldOk(store, adapter) && store.now >= at
      invariant Grows(db0, tasks0, store.View(), adapter.tasks)
      invariant old(adapter.subscriptions) <= adapter.subscriptions && store.steps.Keys == old(store.steps.Keys)
      invariant Passed(rows, store.outbox, todo, at, adapter.failures == old(adapter.failures))
      invariant store.crashes == old(store.crashes)
      invariant adapter.failures >= old(adapter.failures)
      invariant forall k :: k in todo ==> MarkedBy(TriesOf(adapter.book, k), at)
    {
      var key :| key in todo;
      ghost var db1, tasks1, clean := store.View(), adapter.tasks, adapter.failures == old(adapter.failures);
      PassDue(rows, db1.outbox, todo, at, clean, key);
      var done := RetryRow(store, adapter, key, now);
      GrowsTransitive(db0, tasks0, db1, tasks1, store.View(), adapter.tasks);
      if done.Crashed? {
        PassCut(rows, db1.outbox, store.outbox, todo, at, clean, key);
        return Crashed, at;
      }
      PassStep(rows, db1.outbox, store.outbox, todo, at, clean, adapter.failures == old(adapter.failures), key);
      todo := todo - {key};
    }
    PassEnds(rows, store.outbox, todo, at, adapter.failures == old(adapter.failures));
    r := Done(());
  }
}
