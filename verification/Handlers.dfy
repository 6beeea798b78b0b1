/** What the continuation handlers share: find or create the event's instance,
    and move it by one committed transition. */
module Handlers {
  import opened Domain
  import opened Store
  import opened Adapter
  import opened History
  import opened Protocol
  import opened Outbox

  datatype StepResult = StepResult(ok: bool, reason: string)

  lemma SatisfyKeeps(db: Db, tasks: Tasks, s: Source, field: string)
    requires Inv(db, tasks)
    ensures var db' := db.(satisfied := db.satisfied + {(s, field)});
      Inv(db', tasks) && Handles(db, tasks, db', tasks, s)
  {
    hide Inv, LogOk;
    var db' := db.(satisfied := db.satisfied + {(s, field)});
    InvLog(db, tasks);
    LogOnly(db, db');
    if s in db.instances {
      InvInstance(db, tasks, s);
      assert InstanceOk(db', s, db'.instances[s]);
    }
    LedgerWriteKeeps(db, tasks, db', s);
    assert Handles(db, tasks, db', tasks, s);
  }

  lemma LogOnly(db: Db, db': Db)
    requires LogOk(db) && db'.instances == db.instances && db'.events == db.events
    ensures LogOk(db')
  {}

  /** A committed transition of the source's own instance. */
  method Move(store: ContinuationStore, ghost adapter: BoardAdapter, s: Source, to: State, reason: string)
    returns (r: Outcome<()>)
    requires WorldOk(store, adapter) && TransitionOk(store.View(), s, to)
    modifies store
    ensures WorldOk(store, adapter) && store.now == old(store.now) && store.outbox == old(store.outbox)
    ensures Handles(old(store.View()), adapter.tasks, store.View(), adapter.tasks, s)
    ensures store.crashes == old(store.crashes) + r.Toll()
    ensures r.Crashed? ==> store.View() == old(store.View())
    ensures r.Done? ==> store.View() == TransitionDb(old(store.View()), s, to, reason)
  {
    hide Inv, Handles, LogOk;
    TransitionKeeps(store.View(), adapter.tasks, s, to, reason);
    TransitionHandles(store.View(), adapter.tasks, s, to, reason);
    GrowsReflexive(store.View(), adapter.tasks);
    GrowsHandles(store.View(), adapter.tasks, store.View(), adapter.tasks, s);
    var moved := store.Transition(s, to, reason);
    r := if moved.Crashed? then Crashed else Done(());
  }

  /** The instance of an event: found by its source tuple or created. */
  method Open(store: ContinuationStore, ghost adapter: BoardAdapter, e: Event)
    returns (r: Outcome<(bool, Instance)>)
    requires WorldOk(store, adapter) && CleanSource(e.src) && Knows(store.View(), e)
    modifies store
    ensures WorldOk(store, adapter) && store.now == old(store.now) && store.outbox == old(store.outbox)
    ensures Handles(old(store.View()), adapter.tasks, store.View(), adapter.tasks, e.src)
    ensures store.crashes == old(store.crashes) + r.Toll()
    ensures r.Crashed? ==> store.View() == old(store.View())
    ensures r.Done? ==> store.View() == CreateDb(old(store.View()), e)
    ensures r.Done? ==> e.src in store.instances && Knows(store.View(), e)
    ensures r.Done? ==> r.value == (e.src !in old(store.instances), store.instances[e.src])
  {
    hide Inv, Handles, LogOk;
    CreateKeeps(store.View(), adapter.tasks, e);
    CreateHandles(store.View(), adapter.tasks, e);
    GrowsReflexive(store.View(), adapter.tasks);
    GrowsHandles(store.View(), adapter.tasks, store.View(), adapter.tasks, e.src);
    r := store.CreateInstance(e);
  }

  const NO_PAYLOAD := Payload("", "", "", "")

  /** The create behind a step and, when it succeeds, the step's mark. */
  method CreateOnBoard(store: ContinuationStore, adapter: BoardAdapter, s: Source, key: Key, payload: Payload)
    returns (r: Outcome<Option<string>>)
    requires WorldOk(store, adapter) && OpOf(key) == CreateTask
    requires Ready(store.View(), adapter.tasks, key, FreshRow(s, Some(key), CreateTask, payload))
    modifies store, adapter
    ensures WorldOk(store, adapter) && store.now >= old(store.now)
    ensures Grows(old(store.View()), old(adapter.tasks), store.View(), adapter.tasks)
    ensures old(adapter.subscriptions) <= adapter.subscriptions
    ensures OthersSame(old(store.outbox), store.outbox, key) && store.steps.Keys == old(store.steps.Keys)
    ensures r.Done? && r.value.Some? ==> AppliedIn(store.View(), key) && r.value.value == store.outbox[key].boardTask
    ensures store.crashes == old(store.crashes) + r.Toll()
    ensures adapter.failures >= old(adapter.failures)
    ensures r.Done? && adapter.failures == old(adapter.failures) && DueRow(old(store.outbox), key, old(store.now))
      ==> r.value.Some?
  {
    hide Inv, EdgesOk, HistoryOk, Grows, Ready, OthersSame, DueRow;
    ghost var db0, tasks0 := store.View(), adapter.tasks;
    var result, _ := ApplyMutation(store, adapter, s, Some(key), key, payload);
    if result.Crashed? { return Crashed; }
    if !result.value.ok { return Done(None); }
    ghost var db1, tasks1 := store.View(), adapter.tasks;
    ghost var db2 := MarkStepDb(db1, s, key, result.value.task);
    MarkStepKeeps(db1, tasks1, s, key, result.value.task);
    GrowsTransitive(db0, tasks0, db1, tasks1, db2, tasks1);
    var marked := store.MarkStep(s, key, result.value.task);
    r := if marked.Crashed? then Crashed else Done(Some(result.value.task));
  }
}
