/** OwnerInputHandler (continuations/owner_input.py): an anchor task, then a
    materialization only behind a validated owner receipt, a review only behind
    its GO, and a packet rerun only behind the review's GO. */
module OwnerInputHandler {
  import opened Domain
  import opened Store
  import opened Adapter
  import opened History
  import opened Protocol
  import opened Outbox
  import opened Handlers
  import opened InputContracts

  // ----- the order the steps come in -----

  const MATERIALIZATION_GO := "materialization_go"
  const REVIEW_GO := "review_go"

  /** The log holds a transition made for this reason; the two reasons above are
      only ever given for the verdict GO. */
  ghost predicate Logged(db: Db, s: Source, reason: string) {
    s in db.events && exists i :: 0 <= i < |db.events[s]| && Says(db.events[s][i], reason)
  }

  predicate Says(entry: LogEntry, reason: string) {
    entry.what.Transition? && entry.what.reason == reason
  }

  ghost predicate Materialized(db: Db, s: Source) {
    (s, MaterializeKey(DigestOf(s))) in db.steps
  }

  ghost predicate Reviewed(db: Db, s: Source) {
    (s, OwnerReviewKey(DigestOf(s))) in db.steps
  }

  ghost predicate Rerun(db: Db, s: Source) {
    (s, RerunKey(DigestOf(s))) in db.steps
  }

  /** What one owner-input instance keeps, crashes included. */
  ghost predicate OwnerOk(db: Db, s: Source)
    requires s in db.instances
  {
    var state := db.instances[s].state;
    && (Materialized(db, s) || state == InputAccepted ==> Receipts(db, s) != [])
    && (Reviewed(db, s) ==> Materialized(db, s) && Logged(db, s, MATERIALIZATION_GO))
    && (Rerun(db, s) ==>
         Materialized(db, s) && Logged(db, s, MATERIALIZATION_GO) && Logged(db, s, REVIEW_GO))
    && (state == Materializing ==> Materialized(db, s))
    && (state == WaitingReview ==> Materialized(db, s) && Logged(db, s, MATERIALIZATION_GO))
    && (state == Resumable || state == Resumed ==>
         Materialized(db, s) && Logged(db, s, MATERIALIZATION_GO) && Logged(db, s, REVIEW_GO))
  }

  /** What it keeps besides as long as no call is cut short by a crash. */
  ghost predicate ReviewKept(db: Db, s: Source)
    requires s in db.instances
  {
    var state := db.instances[s].state;
    && (Rerun(db, s) ==> Reviewed(db, s))
    && (state == WaitingReview || state == Resumable || state == Resumed ==> Reviewed(db, s))
  }

  predicate IsOwner(db: Db, s: Source) { s in db.instances && db.instances[s].kind == OwnerInput }

  ghost predicate OwnerOrder(db: Db) {
    forall s :: IsOwner(db, s) ==> OwnerOk(db, s)
  }

  ghost predicate ReviewsKept(db: Db) {
    forall s :: IsOwner(db, s) ==> ReviewKept(db, s)
  }

  /** Nothing the order depends on changes for this source. */
  ghost predicate SameProgress(db: Db, db': Db, s: Source) {
    && s in db.instances && s in db'.instances && db'.instances[s] == db.instances[s]
    && Receipts(db', s) == Receipts(db, s)
    && s in db.events && s in db'.events && db'.events[s] == db.events[s]
    && (Materialized(db', s) <==> Materialized(db, s))
    && (Reviewed(db', s) <==> Reviewed(db, s))
    && (Rerun(db', s) <==> Rerun(db, s))
  }

  lemma SameProgressKeeps(db: Db, db': Db, s: Source)
    requires SameProgress(db, db', s)
    ensures OwnerOk(db', s) == OwnerOk(db, s) && ReviewKept(db', s) == ReviewKept(db, s)
  {
    assert Logged(db', s, MATERIALIZATION_GO) == Logged(db, s, MATERIALIZATION_GO);
    assert Logged(db', s, REVIEW_GO) == Logged(db, s, REVIEW_GO);
  }

  /** Handling one source leaves every other owner-input instance where it was. */
  lemma OthersKeep(db: Db, tasks: Tasks, db': Db, tasks': Tasks, s: Source)
    requires Handles(db, tasks, db', tasks', s) && LogOk(db) && LogOk(db')
    ensures forall t :: t != s && IsOwner(db', t) ==> IsOwner(db, t) && SameProgress(db, db', t)
  {
    hide LogOk;
    forall t | t != s && IsOwner(db', t) ensures IsOwner(db, t) && SameProgress(db, db', t) {
      OtherKeeps(db, tasks, db', tasks', s, t);
    }
  }

  lemma OtherKeeps(db: Db, tasks: Tasks, db': Db, tasks': Tasks, s: Source, t: Source)
    requires Handles(db, tasks, db', tasks', s) && LogOk(db) && LogOk(db')
    requires t != s && IsOwner(db', t)
    ensures IsOwner(db, t) && SameProgress(db, db', t)
  {
    OtherEntry(db.instances, db'.instances, s, t);
    OtherEntry(db.events, db'.events, s, t);
    OtherEntry(db.receipts, db'.receipts, s, t);
  }

  lemma OtherEntry<V>(m: map<Source, V>, m': map<Source, V>, s: Source, t: Source)
    requires m - {s} == m' - {s} && t != s
    ensures (t in m <==> t in m') && (t in m ==> m'[t] == m[t])
  {
    if t in m { assert t in m - {s} && (m - {s})[t] == m[t] && t in m' - {s}; }
    if t in m' { assert t in m' - {s} && t in m - {s}; }
  }

  /** The order survives when it survives for the one source being handled. */
  lemma OrderKept(db: Db, tasks: Tasks, db': Db, tasks': Tasks, s: Source)
    requires Handles(db, tasks, db', tasks', s) && LogOk(db) && LogOk(db')
    ensures OwnerOrder(db) && (IsOwner(db', s) ==> OwnerOk(db', s)) ==> OwnerOrder(db')
    ensures ReviewsKept(db) && (IsOwner(db', s) ==> ReviewKept(db', s)) ==> ReviewsKept(db')
  {
    hide Handles, LogOk, OwnerOk, ReviewKept, SameProgress;
    OthersKeep(db, tasks, db', tasks', s);
    forall t | t != s && IsOwner(db', t)
      ensures IsOwner(db, t) && OwnerOk(db', t) == OwnerOk(db, t) && ReviewKept(db', t) == ReviewKept(db, t)
    {
      SameProgressKeeps(db, db', t);
    }
  }

  // ----- single steps -----

  /** When a move fits the order. */
  ghost predicate MoveFits(db: Db, s: Source, to: State, reason: string)
    requires s in db.instances
  {
    match to
    case WaitingOwner => true
    case InputAccepted => Receipts(db, s) != []
    case Materializing => Materialized(db, s)
    case WaitingReview => Materialized(db, s) && reason == MATERIALIZATION_GO
    case Resumable => db.instances[s].state == WaitingReview && reason == REVIEW_GO
    case Resumed => db.instances[s].state == Resumable
    case FailedRetryable => true
    case _ => false
  }

  lemma LoggedMore(db: Db, s: Source, to: State, reason: string, other: string)
    requires s in db.instances && s in db.events && Legal(db.instances[s].state, to)
    ensures var db' := TransitionDb(db, s, to, reason);
      Logged(db', s, other) <==> Logged(db, s, other) || other == reason
  {
    var db' := TransitionDb(db, s, to, reason);
    var log, log' := db.events[s], db'.events[s];
    assert forall i :: 0 <= i < |log| ==> log'[i] == log[i];
    if Logged(db, s, other) {
      var i :| 0 <= i < |log| && Says(log[i], other);
      assert Says(log'[i], other);
    }
    assert Says(log'[|log|], reason);
  }

  lemma MoveKeepsOrder(db: Db, s: Source, to: State, reason: string)
    requires s in db.instances && s in db.events && OwnerOk(db, s) && MoveFits(db, s, to, reason)
    ensures s in TransitionDb(db, s, to, reason).instances
    ensures OwnerOk(TransitionDb(db, s, to, reason), s)
  {
    if Legal(db.instances[s].state, to) {
      LoggedMore(db, s, to, reason, MATERIALIZATION_GO);
      LoggedMore(db, s, to, reason, REVIEW_GO);
    }
  }

  /** A move of an owner-input instance that fits the order. */
  method MoveOwner(store: ContinuationStore, ghost adapter: BoardAdapter, s: Source, to: State, reason: string)
    returns (r: Outcome<()>)
    requires WorldOk(store, adapter) && OwnerOrder(store.View()) && IsOwner(store.View(), s)
    requires MoveFits(store.View(), s, to, reason)
    modifies store
    ensures WorldOk(store, adapter) && store.now == old(store.now) && store.outbox == old(store.outbox)
    ensures OwnerOrder(store.View()) && IsOwner(store.View(), s)
    ensures Handles(old(store.View()), adapter.tasks, store.View(), adapter.tasks, s)
    ensures store.steps == old(store.steps) && store.receipts == old(store.receipts)
    ensures store.crashes == old(store.crashes) + r.Toll()
    ensures r.Crashed? ==> store.View() == old(store.View())
    ensures r.Done? && Legal(old(store.instances)[s].state, to) ==> store.instances[s].state == to
    ensures r.Done? ==> store.View() == TransitionDb(old(store.View()), s, to, reason)
  {
    hide Inv, Handles, LogOk, EdgesOk, HistoryOk, OwnerOk, MoveFits;
    ghost var db0 := store.View();
    InvLog(db0, adapter.tasks);
    InvLogged(db0, adapter.tasks, s);
    MoveKeepsOrder(db0, s, to, reason);
    r := Move(store, adapter, s, to, reason);
    InvLog(store.View(), adapter.tasks);
    OrderKept(db0, adapter.tasks, store.View(), adapter.tasks, s);
  }

  /** When a step may be opened. */
  ghost predicate StepFits(db: Db, s: Source, key: Key) {
    && key.digest == DigestOf(s) && OpOf(key) == CreateTask && KindOf(key) == OwnerInput
    && (key.MaterializeKey? ==> Receipts(db, s) != [])
    && (key.OwnerReviewKey? ==> Materialized(db, s) && Logged(db, s, MATERIALIZATION_GO))
    && (key.RerunKey? ==>
         Materialized(db, s) && Logged(db, s, MATERIALIZATION_GO) && Logged(db, s, REVIEW_GO))
  }

  /** Only rows change, and the steps gain at most this key. */
  predicate Opens(db: Db, db': Db, s: Source, key: Key) {
    && db' == db.(steps := db'.steps, outbox := db'.outbox)
    && (db'.steps.Keys == db.steps.Keys || db'.steps.Keys == db.steps.Keys + {(s, key)})
  }

  lemma OpensKeeps(db: Db, db': Db, s: Source, key: Key)
    requires s in db.instances && OwnerOk(db, s) && StepFits(db, s, key) && Opens(db, db', s, key)
    ensures OwnerOk(db', s)
    ensures Reviewed(db, s) ==> Reviewed(db', s)
    ensures !key.RerunKey? && Rerun(db', s) ==> Rerun(db, s)
    ensures !key.OwnerReviewKey? && Reviewed(db', s) ==> Reviewed(db, s)
  {
    assert Logged(db', s, MATERIALIZATION_GO) == Logged(db, s, MATERIALIZATION_GO);
    assert Logged(db', s, REVIEW_GO) == Logged(db, s, REVIEW_GO);
  }

  lemma TaskReady(db: Db, tasks: Tasks, s: Source, key: Key)
    requires Inv(db, tasks) && IsOwner(db, s)
    requires key.digest == DigestOf(s) && OpOf(key) == CreateTask && KindOf(key) == OwnerInput
    ensures Ready(db, tasks, key, FreshRow(s, Some(key), CreateTask, NO_PAYLOAD))
  {
    hide Inv, InstanceKey;
    CleanInstance(db, tasks, s);
  }

  /** A step with neither step nor row before has its task on the board. */
  predicate Created(db: Db, db': Db, s: Source, key: Key) {
    (s, key) !in db.steps && key !in db.outbox ==> AppliedIn(db', key)
  }

  /** add_step and, when the step is new, its create through the outbox. */
  method OpenTask(store: ContinuationStore, adapter: BoardAdapter, s: Source, key: Key)
    returns (r: Outcome<string>)
    requires WorldOk(store, adapter) && OwnerOrder(store.View()) && IsOwner(store.View(), s)
    requires StepFits(store.View(), s, key)
    modifies store, adapter
    ensures WorldOk(store, adapter) && store.now >= old(store.now)
    ensures OwnerOrder(store.View()) && IsOwner(store.View(), s)
    ensures Handles(old(store.View()), old(adapter.tasks), store.View(), adapter.tasks, s)
    ensures old(adapter.subscriptions) <= adapter.subscriptions
    ensures Opens(old(store.View()), store.View(), s, key)
    ensures r.Done? ==> (s, key) in store.steps
    ensures r.Done? && r.value != "" ==> AppliedIn(store.View(), key) && store.outbox[key].boardTask == r.value
    ensures store.crashes == old(store.crashes) + r.Toll()
    ensures adapter.failures >= old(adapter.failures)
    ensures r.Done? && adapter.failures == old(adapter.failures) ==>
      Created(old(store.View()), store.View(), s, key)
  {
    hide Inv, Handles, LogOk, EdgesOk, HistoryOk, OwnerOk, StepFits, Grows, Ready, AppliedIn;
    ghost var db0, tasks0 := store.View(), adapter.tasks;
    r := OpenStep(store, adapter, s, key);
    ghost var db1 := store.View();
    InvLog(db0, tasks0);
    InvLog(db1, adapter.tasks);
    OpensKeeps(db0, db1, s, key);
    OrderKept(db0, tasks0, db1, adapter.tasks, s);
  }

  method OpenStep(store: ContinuationStore, adapter: BoardAdapter, s: Source, key: Key)
    returns (r: Outcome<string>)
    requires WorldOk(store, adapter) && IsOwner(store.View(), s)
    requires StepFits(store.View(), s, key)
    modifies store, adapter
    ensures WorldOk(store, adapter) && store.now >= old(store.now)
    ensures Handles(old(store.View()), old(adapter.tasks), store.View(), adapter.tasks, s)
    ensures old(adapter.subscriptions) <= adapter.subscriptions
    ensures Opens(old(store.View()), store.View(), s, key)
    ensures r.Done? ==> (s, key) in store.steps
    ensures r.Done? && r.value != "" ==> AppliedIn(store.View(), key) && store.outbox[key].boardTask == r.value
    ensures store.crashes == old(store.crashes) + r.Toll()
    ensures adapter.failures >= old(adapter.failures)
    ensures r.Done? && adapter.failures == old(adapter.failures) ==>
      Created(old(store.View()), store.View(), s, key)
  {
    ghost var db0, tasks0 := store.View(), adapter.tasks;
    assert key.digest == DigestOf(s) && OpOf(key) == CreateTask && KindOf(key) == OwnerInput;
    hide Inv, Handles, LogOk, EdgesOk, HistoryOk, StepFits, Grows, Ready, OthersSame, DueRow, RowsOnly, AppliedIn, Opens;
    NoRows(db0.outbox, s);
    GrowsReflexive(db0, tasks0);
    GrowsHandles(db0, tasks0, db0, tasks0, s);
    AddStepKeeps(db0, tasks0, s, key, None);
    var step :- store.AddStep(s, key, None);
    ghost var db1 := store.View();
    OpensFrom(db0, db1, s, key);
    if !step.0 { return Done(""); }
    TaskReady(db1, tasks0, s, key);
    var task := CreateOnBoard(store, adapter, s, key, NO_PAYLOAD);
    r := if task.Crashed? then Crashed else Done(if task.value.None? then "" else task.value.value);
    ghost var db2 := store.View();
    StepHandles(db0, tasks0, db1, db2, adapter.tasks, s, key);
  }

  lemma StepHandles(db0: Db, tasks0: Tasks, db1: Db, db2: Db, tasks2: Tasks, s: Source, key: Key)
    requires db1 == AddStepDb(db0, s, key, None) && Handles(db0, tasks0, db1, tasks0, s)
    requires Inv(db2, tasks2) && Grows(db1, tasks0, db2, tasks2) && s in db1.instances && key.digest == DigestOf(s)
    requires OthersSame(db1.outbox, db2.outbox, key) && db2.steps.Keys == db1.steps.Keys
    ensures Handles(db0, tasks0, db2, tasks2, s) && Opens(db0, db2, s, key) && db2.instances == db1.instances
  {
    hide Inv, Handles, Grows, OthersSame, RowsOnly, Opens, InstanceKey;
    GrowsFacts(db1, tasks0, db2, tasks2);
    GrowsShape(db1, tasks0, db2, tasks2);
    RowsOfOne(db1, db2, tasks2, s, key);
    GrowsHandles(db1, tasks0, db2, tasks2, s);
    HandlesTransitive(db0, tasks0, db1, tasks0, db2, tasks2, s);
    OpensFrom(db0, db2, s, key);
  }

  lemma OpensFrom(db: Db, db': Db, s: Source, key: Key)
    requires db' == AddStepDb(db, s, key, None).(outbox := db'.outbox, steps := db'.steps)
    requires db'.steps.Keys == AddStepDb(db, s, key, None).steps.Keys
    ensures Opens(db, db', s, key)
  {}

  lemma EdgeReady(db: Db, tasks: Tasks, s: Source, key: Key, payload: Payload)
    requires Inv(db, tasks) && IsOwner(db, s)
    requires key.digest == DigestOf(s) && (key.AnchorSubscribeKey? || key.CompleteAnchorKey?)
    ensures Ready(db, tasks, key, FreshRow(s, Some(AnchorKey(DigestOf(s))), OpOf(key), payload))
  {
    hide Inv, InstanceKey;
    CleanInstance(db, tasks, s);
  }

  /** The anchor's own return edge and its completion: one outbox row each. */
  method ApplyEdge(store: ContinuationStore, adapter: BoardAdapter, s: Source, key: Key, payload: Payload)
    returns (r: Outcome<()>)
    requires WorldOk(store, adapter) && OwnerOrder(store.View()) && IsOwner(store.View(), s)
    requires key.digest == DigestOf(s) && (key.AnchorSubscribeKey? || key.CompleteAnchorKey?)
    modifies store, adapter
    ensures WorldOk(store, adapter) && store.now >= old(store.now)
    ensures OwnerOrder(store.View())
    ensures Handles(old(store.View()), old(adapter.tasks), store.View(), adapter.tasks, s)
    ensures old(adapter.subscriptions) <= adapter.subscriptions
    ensures store.View() == old(store.View()).(outbox := store.outbox)
    ensures store.crashes == old(store.crashes) + r.Toll()
    ensures adapter.failures >= old(adapter.failures)
    ensures OthersSame(old(store.outbox), store.outbox, key)
    ensures r.Done? ==> key in store.outbox
  {
    hide Inv, Handles, LogOk, EdgesOk, HistoryOk, OwnerOk, Grows, Ready, OthersSame;
    ghost var db0, tasks0 := store.View(), adapter.tasks;
    EdgeReady(db0, tasks0, s, key, payload);
    var result, _ := ApplyMutation(store, adapter, s, Some(AnchorKey(DigestOf(s))), key, payload);
    ghost var db1 := store.View();
    InvLog(db0, tasks0);
    InvLog(db1, adapter.tasks);
    GrowsFacts(db0, tasks0, db1, adapter.tasks);
    RowsOfOne(db0, db1, adapter.tasks, s, key);
    GrowsHandles(db0, tasks0, db1, adapter.tasks, s);
    GrowsShape(db0, tasks0, db1, adapter.tasks);
    InvLogged(db0, tasks0, s);
    assert SameProgress(db0, db1, s);
    SameProgressKeeps(db0, db1, s);
    OrderKept(db0, tasks0, db1, adapter.tasks, s);
    r := if result.Crashed? then Crashed else Done(());
  }

  lemma OpenKeepsOrder(db: Db, tasks: Tasks, e: Event)
    requires Inv(db, tasks) && e.kind == OwnerInput && Knows(db, e)
    ensures OwnerOrder(db) ==> OwnerOrder(CreateDb(db, e))
    ensures ReviewsKept(db) ==> ReviewsKept(CreateDb(db, e))
  {
    hide Inv, LogOk, Handles;
    if e.src !in db.instances {
      var db' := CreateDb(db, e);
      var d := DigestOf(e.src);
      if (e.src, MaterializeKey(d)) in db.steps { InvStep(db, tasks, e.src, MaterializeKey(d)); }
      if (e.src, OwnerReviewKey(d)) in db.steps { InvStep(db, tasks, e.src, OwnerReviewKey(d)); }
      if (e.src, RerunKey(d)) in db.steps { InvStep(db, tasks, e.src, RerunKey(d)); }
      InvLog(db, tasks);
      CreateKeepsLog(db, e);
      CreateHandles(db, tasks, e);
      OrderKept(db, tasks, db', tasks, e.src);
    }
  }

  /** Moving short of WaitingReview and opening steps other than the packet rerun
      never separates a rerun from its review. */
  lemma ReviewStill(db: Db, db': Db, s: Source)
    requires ReviewsKept(db) && IsOwner(db, s) && s in db'.instances
    requires db'.instances[s].state in {db.instances[s].state, WaitingOwner, InputAccepted, Materializing, FailedRetryable}
    requires db.steps.Keys <= db'.steps.Keys && (Rerun(db', s) ==> Rerun(db, s))
    ensures ReviewKept(db', s)
  {
    assert ReviewKept(db, s);
  }

  lemma ReceiptKeepsAll(db: Db, tasks: Tasks, s: Source)
    requires Inv(db, tasks) && IsOwner(db, s) && OwnerOrder(db)
    ensures var db' := ReceiptDb(db, s);
      && Inv(db', tasks) && OwnerOrder(db') && IsOwner(db', s)
      && Handles(db, tasks, db', tasks, s)
  {
    hide Inv, LogOk;
    var db' := ReceiptDb(db, s);
    InvLog(db, tasks);
    InvLogged(db, tasks, s);
    ReceiptKeepsLog(db, s);
    InvInstance(db, tasks, s);
    assert InstanceOk(db', s, db'.instances[s]);
    LedgerWriteKeeps(db, tasks, db', s);
    ReceiptOrder(db, s);
    assert Handles(db, tasks, db', tasks, s);
    hide OwnerOk, Handles;
    OrderKept(db, tasks, db', tasks, s);
  }

  lemma ReceiptOrder(db: Db, s: Source)
    requires s in db.instances && s in db.events && OwnerOk(db, s)
    ensures OwnerOk(ReceiptDb(db, s), s)
  {
    var db' := ReceiptDb(db, s);
    assert forall i :: 0 <= i < |db.events[s]| ==> db'.events[s][i] == db.events[s][i];
    forall reason | Logged(db, s, reason) ensures Logged(db', s, reason) {
      var i :| 0 <= i < |db.events[s]| && Says(db.events[s][i], reason);
      assert Says(db'.events[s][i], reason);
    }
  }

  /** The validated receipt, then the move out of WaitingOwner. */
  method Accept(store: ContinuationStore, ghost adapter: BoardAdapter, s: Source)
    returns (r: Outcome<nat>)
    requires WorldOk(store, adapter) && OwnerOrder(store.View()) && IsOwner(store.View(), s)
    requires store.instances[s].state == WaitingOwner
    modifies store
    ensures WorldOk(store, adapter) && store.now == old(store.now)
    ensures OwnerOrder(store.View()) && IsOwner(store.View(), s)
    ensures Handles(old(store.View()), adapter.tasks, store.View(), adapter.tasks, s)
    ensures store.outbox == old(store.outbox) && store.steps == old(store.steps)
    ensures r.Done? ==> store.instances[s].state == InputAccepted
    ensures r.Done? ==> Receipts(store.View(), s) == Receipts(old(store.View()), s) + [r.value]
    ensures store.crashes == old(store.crashes) + r.Toll()
  {
    hide Inv, Handles, LogOk, EdgesOk, HistoryOk, OwnerOk, OwnerOrder;
    ghost var db0, tasks := store.View(), adapter.tasks;
    GrowsReflexive(db0, tasks);
    GrowsHandles(db0, tasks, db0, tasks, s);
    InvLogged(db0, tasks, s);
    ReceiptKeepsAll(db0, tasks, s);
    var version :- store.AddOwnerReceipt(s);
    ghost var db1 := store.View();
    var moved := MoveOwner(store, adapter, s, InputAccepted, "owner_receipt_accepted");
    HandlesTransitive(db0, tasks, db1, tasks, store.View(), tasks, s);
    r := if moved.Crashed? then Crashed else Done(version);
  }

  /** An anchor known to the board has a completion row for this receipt. */
  predicate Closing(db: Db, s: Source, version: nat) {
    var anchor := (s, AnchorKey(DigestOf(s)));
    anchor in db.steps && db.steps[anchor].boardTask != "" ==>
      CompleteAnchorKey(DigestOf(s), db.steps[anchor].boardTask, version) in db.outbox
  }

  /** The anchor's completion, when the anchor made it to the board. */
  method CloseAnchor(store: ContinuationStore, adapter: BoardAdapter, s: Source, version: nat)
    returns (r: Outcome<()>)
    requires WorldOk(store, adapter) && OwnerOrder(store.View()) && IsOwner(store.View(), s)
    modifies store, adapter
    ensures WorldOk(store, adapter) && store.now >= old(store.now)
    ensures OwnerOrder(store.View())
    ensures Handles(old(store.View()), old(adapter.tasks), store.View(), adapter.tasks, s)
    ensures old(adapter.subscriptions) <= adapter.subscriptions
    ensures store.View() == old(store.View()).(outbox := store.outbox)
    ensures forall k :: k in store.outbox && !k.CompleteAnchorKey? ==> k in old(store.outbox)
    ensures r.Done? ==> Closing(store.View(), s, version)
    ensures store.crashes == old(store.crashes) + r.Toll()
    ensures adapter.failures >= old(adapter.failures)
  {
    hide Inv, Handles, LogOk, EdgesOk, HistoryOk, OwnerOk, OwnerOrder;
    GrowsReflexive(store.View(), adapter.tasks);
    GrowsHandles(store.View(), adapter.tasks, store.View(), adapter.tasks, s);
    var d := DigestOf(s);
    r := Done(());
    if (s, AnchorKey(d)) in store.steps && store.steps[(s, AnchorKey(d))].boardTask != "" {
      var task := store.steps[(s, AnchorKey(d))].boardTask;
      r := ApplyEdge(store, adapter, s, CompleteAnchorKey(d, task, version), Payload(task, "", "", ""));
    }
  }

  /** Everything behind the receipt: close the anchor, open the materialization. */
  method Resume(store: ContinuationStore, adapter: BoardAdapter, s: Source, version: nat)
    returns (r: Outcome<()>)
    requires WorldOk(store, adapter) && OwnerOrder(store.View()) && IsOwner(store.View(), s)
    requires store.instances[s].state == InputAccepted && Receipts(store.View(), s) != []
    modifies store, adapter
    ensures WorldOk(store, adapter) && store.now >= old(store.now)
    ensures OwnerOrder(store.View()) && IsOwner(store.View(), s)
    ensures Handles(old(store.View()), old(adapter.tasks), store.View(), adapter.tasks, s)
    ensures old(adapter.subscriptions) <= adapter.subscriptions
    ensures old(store.steps.Keys) <= store.steps.Keys <= old(store.steps.Keys) + {(s, MaterializeKey(DigestOf(s)))}
    ensures Receipts(store.View(), s) == Receipts(old(store.View()), s)
    ensures r.Done? ==> store.instances[s].state == Materializing && Materialized(store.View(), s)
    ensures store.crashes == old(store.crashes) + r.Toll()
    ensures adapter.failures >= old(adapter.failures)
    ensures r.Done? && adapter.failures == old(adapter.failures) ==>
      Created(old(store.View()), store.View(), s, MaterializeKey(DigestOf(s)))
  {
    hide Inv, Handles, LogOk, EdgesOk, HistoryOk, OwnerOk, OwnerOrder, AppliedIn, Materialized, Closing, Legal, Terminal;
    ghost var db0, tasks0 := store.View(), adapter.tasks;
    var closed := CloseAnchor(store, adapter, s, version);
    if closed.Crashed? { return Crashed; }
    ghost var db1, tasks1 := store.View(), adapter.tasks;
    r := Materialize(store, adapter, s);
    HandlesTransitive(db0, tasks0, db1, tasks1, store.View(), adapter.tasks, s);
  }

  lemma MaterializingIsLegal()
    ensures Legal(InputAccepted, Materializing)
  {}

  /** The materialization's task, then the move into its state. */
  method Materialize(store: ContinuationStore, adapter: BoardAdapter, s: Source)
    returns (r: Outcome<()>)
    requires WorldOk(store, adapter) && OwnerOrder(store.View()) && IsOwner(store.View(), s)
    requires store.instances[s].state == InputAccepted && Receipts(store.View(), s) != []
    modifies store, adapter
    ensures WorldOk(store, adapter) && store.now >= old(store.now)
    ensures OwnerOrder(store.View()) && IsOwner(store.View(), s)
    ensures Handles(old(store.View()), old(adapter.tasks), store.View(), adapter.tasks, s)
    ensures old(adapter.subscriptions) <= adapter.subscriptions
    ensures old(store.steps.Keys) <= store.steps.Keys <= old(store.steps.Keys) + {(s, MaterializeKey(DigestOf(s)))}
    ensures Receipts(store.View(), s) == Receipts(old(store.View()), s)
    ensures r.Done? ==> store.instances[s].state == Materializing && Materialized(store.View(), s)
    ensures store.crashes == old(store.crashes) + r.Toll()
    ensures adapter.failures >= old(adapter.failures)
    ensures r.Done? && adapter.failures == old(adapter.failures) ==>
      Created(old(store.View()), store.View(), s, MaterializeKey(DigestOf(s)))
  {
    hide Inv, Handles, LogOk, EdgesOk, HistoryOk, OwnerOk, OwnerOrder, Legal, Terminal;
    MaterializingIsLegal();
    ghost var db1, tasks1 := store.View(), adapter.tasks;
    var task := OpenTask(store, adapter, s, MaterializeKey(DigestOf(s)));
    if task.Crashed? { return Crashed; }
    ghost var db2, tasks2 := store.View(), adapter.tasks;
    r := MoveOwner(store, adapter, s, Materializing, "materialization_task_created");
    HandlesTransitive(db1, tasks1, db2, tasks2, store.View(), tasks2, s);
  }

  // ----- the handler -----

  /** The anchor task and, for a known origin, its return edge. */
  method Anchor(store: ContinuationStore, adapter: BoardAdapter, s: Source, endpoint: string)
    returns (r: Outcome<()>)
    requires WorldOk(store, adapter) && OwnerOrder(store.View()) && IsOwner(store.View(), s)
    modifies store, adapter
    ensures WorldOk(store, adapter) && store.now >= old(store.now)
    ensures OwnerOrder(store.View()) && IsOwner(store.View(), s)
    ensures Handles(old(store.View()), old(adapter.tasks), store.View(), adapter.tasks, s)
    ensures old(adapter.subscriptions) <= adapter.subscriptions
    ensures Opens(old(store.View()), store.View(), s, AnchorKey(DigestOf(s)))
    ensures r.Done? ==> (s, AnchorKey(DigestOf(s))) in store.steps
    ensures store.crashes == old(store.crashes) + r.Toll()
    ensures adapter.failures >= old(adapter.failures)
    ensures r.Done? && adapter.failures == old(adapter.failures) ==>
      Created(old(store.View()), store.View(), s, AnchorKey(DigestOf(s)))
  {
    hide Inv, Handles, LogOk, EdgesOk, HistoryOk, OwnerOk;
    ghost var db0, tasks0 := store.View(), adapter.tasks;
    var d := DigestOf(s);
    var task := OpenTask(store, adapter, s, AnchorKey(d));
    if task.Crashed? { return Crashed; }
    if task.value != "" && endpoint != "" {
      ghost var db1, tasks1 := store.View(), adapter.tasks;
      var edge := ApplyEdge(store, adapter, s, AnchorSubscribeKey(d, endpoint), Payload(task.value, endpoint, "", ""));
      HandlesTransitive(db0, tasks0, db1, tasks1, store.View(), adapter.tasks, s);
      if edge.Crashed? { return Crashed; }
      HandlesApplied(db1, tasks1, store.View(), adapter.tasks, s, AnchorKey(d));
    }
    r := Done(());
  }

  lemma HandlesApplied(db: Db, tasks: Tasks, db': Db, tasks': Tasks, s: Source, key: Key)
    requires Inv(db, tasks) && Handles(db, tasks, db', tasks', s) && OpOf(key) == CreateTask
    ensures AppliedIn(db, key) ==> AppliedIn(db', key)
  {
    if key in db.outbox { InvRow(db, tasks, key); }
  }

  /** The instance, waiting for its owner when it is new. */
  method Await(store: ContinuationStore, ghost adapter: BoardAdapter, e: Event, reason: string)
    returns (r: Outcome<()>)
    requires WorldOk(store, adapter) && OwnerOrder(store.View())
    requires CleanSource(e.src) && e.kind == OwnerInput && Knows(store.View(), e)
    modifies store
    ensures WorldOk(store, adapter) && store.now == old(store.now)
    ensures OwnerOrder(store.View())
    ensures r.Done? && ReviewsKept(old(store.View())) ==> ReviewsKept(store.View())
    ensures Handles(old(store.View()), adapter.tasks, store.View(), adapter.tasks, e.src)
    ensures Knows(store.View(), e)
    ensures e.src in old(store.instances) ==> store.instances == old(store.instances)
    ensures r.Done? ==> IsOwner(store.View(), e.src)
    ensures r.Done? && e.src !in old(store.instances) ==> store.instances[e.src].state == WaitingOwner
    ensures store.crashes == old(store.crashes) + r.Toll()
    ensures store.outbox == old(store.outbox) && store.steps == old(store.steps) && store.receipts == old(store.receipts)
  {
    hide Inv, Handles, LogOk, EdgesOk, HistoryOk, OwnerOk, OwnerOrder, ReviewsKept, ReviewKept;
    var s := e.src;
    ghost var db0, tasks := store.View(), adapter.tasks;
    OpenKeepsOrder(db0, tasks, e);
    var found := Open(store, adapter, e);
    if found.Crashed? { return Crashed; }
    if !found.value.0 { return Done(()); }
    ghost var db1 := store.View();
    r := MoveOwner(store, adapter, s, WaitingOwner, reason);
    ghost var db2 := store.View();
    HandlesTransitive(db0, tasks, db1, tasks, db2, tasks, s);
    HandlesKnows(db1, tasks, db2, tasks, e);
    if r.Done? && ReviewsKept(db0) {
      InvLog(db0, tasks);
      InvLog(db2, tasks);
      ReviewStill(db1, db2, s);
      OrderKept(db0, tasks, db2, tasks, s);
    }
  }

  // ----- the handler -----

  /** plan: one waiting anchor per event. */
  method Plan(store: ContinuationStore, adapter: BoardAdapter, e: Event)
    returns (r: Outcome<StepResult>)
    requires WorldOk(store, adapter) && OwnerOrder(store.View())
    requires CleanSource(e.src) && e.kind == OwnerInput && Knows(store.View(), e)
    modifies store, adapter
    ensures WorldOk(store, adapter) && store.now >= old(store.now)
    ensures OwnerOrder(store.View())
    ensures r.Done? && ReviewsKept(old(store.View())) ==> ReviewsKept(store.View())
    ensures Handles(old(store.View()), old(adapter.tasks), store.View(), adapter.tasks, e.src)
    ensures old(adapter.subscriptions) <= adapter.subscriptions
    ensures Knows(store.View(), e)
    ensures e.src in old(store.instances) ==> store.instances == old(store.instances)
    ensures r.Done? ==> IsOwner(store.View(), e.src) && (e.src, AnchorKey(DigestOf(e.src))) in store.steps
    ensures r.Done? && e.src !in old(store.instances) ==> store.instances[e.src].state == WaitingOwner
    ensures store.crashes == old(store.crashes) + r.Toll()
    ensures adapter.failures >= old(adapter.failures)
    ensures r.Done? && adapter.failures == old(adapter.failures) ==>
      Created(old(store.View()), store.View(), e.src, AnchorKey(DigestOf(e.src)))
  {
    hide Inv, Handles, LogOk, EdgesOk, HistoryOk, OwnerOk, OwnerOrder, ReviewsKept, ReviewKept;
    var s := e.src;
    ghost var db0, tasks0 := store.View(), adapter.tasks;
    var waiting := Await(store, adapter, e, "needs_input_detected");
    if waiting.Crashed? { return Crashed; }
    ghost var db1 := store.View();
    var anchored := Anchor(store, adapter, s, e.endpoint);
    ghost var db2, tasks2 := store.View(), adapter.tasks;
    HandlesTransitive(db0, tasks0, db1, tasks0, db2, tasks2, s);
    if anchored.Done? && ReviewsKept(db1) {
      InvLog(db1, tasks0);
      InvLog(db2, tasks2);
      ReviewStill(db1, db2, s);
      OrderKept(db1, tasks0, db2, tasks2, s);
    }
    r := if anchored.Crashed? then Crashed else Done(StepResult(true, ""));
  }

  /** on_receipt: refused in full, without a trace, unless the instance waits and
      the submission has no fault. */
  method OnReceipt(store: ContinuationStore, adapter: BoardAdapter, s: Source,
                   fields: seq<Field>, values: map<string, string>)
    returns (r: Outcome<StepResult>)
    requires WorldOk(store, adapter) && OwnerOrder(store.View()) && IsOwner(store.View(), s)
    modifies store, adapter
    ensures WorldOk(store, adapter) && store.now >= old(store.now)
    ensures OwnerOrder(store.View())
    ensures r.Done? && ReviewsKept(old(store.View())) ==> ReviewsKept(store.View())
    ensures Handles(old(store.View()), old(adapter.tasks), store.View(), adapter.tasks, s)
    ensures old(adapter.subscriptions) <= adapter.subscriptions
    ensures var accepted := old(store.instances)[s].state == WaitingOwner
        && forall fault :: !Faulty(fields, values, fault);
      && (r.Done? ==> r.value.ok == accepted)
      && (!accepted ==> store.View() == old(store.View()) && adapter.calls == old(adapter.calls)
                        && adapter.tasks == old(adapter.tasks))
    ensures r.Done? && r.value.ok ==>
      && IsOwner(store.View(), s) && store.instances[s].state == Materializing && Materialized(store.View(), s)
      && |Receipts(store.View(), s)| == |Receipts(old(store.View()), s)| + 1
    ensures store.steps.Keys <= old(store.steps.Keys) + {(s, MaterializeKey(DigestOf(s)))}
    ensures store.crashes == old(store.crashes) + r.Toll()
    ensures adapter.failures >= old(adapter.failures)
    ensures r.Done? && r.value.ok && adapter.failures == old(adapter.failures) ==>
      Created(old(store.View()), store.View(), s, MaterializeKey(DigestOf(s)))
  {
    hide Inv, Handles, LogOk, EdgesOk, HistoryOk, OwnerOk, OwnerOrder, ReviewsKept, ReviewKept, Faulty;
    ghost var db0, tasks0 := store.View(), adapter.tasks;
    GrowsReflexive(db0, tasks0);
    GrowsHandles(db0, tasks0, db0, tasks0, s);
    if store.instances[s].state != WaitingOwner { return Done(StepResult(false, "not_waiting_owner")); }
    var _, errors := Validate(fields, values);
    if errors != {} {
      ghost var fault :| fault in errors;
      assert Faulty(fields, values, fault);
      return Done(StepResult(false, "invalid_owner_submission"));
    }
    var version := Accept(store, adapter, s);
    if version.Crashed? { return Crashed; }
    ghost var db1 := store.View();
    var resumed := Resume(store, adapter, s, version.value);
    ghost var db2, tasks2 := store.View(), adapter.tasks;
    HandlesTransitive(db0, tasks0, db1, tasks0, db2, tasks2, s);
    if resumed.Crashed? { return Crashed; }
    if ReviewsKept(db0) {
      InvLog(db0, tasks0);
      InvLog(db2, tasks2);
      ReviewStill(db0, db2, s);
      OrderKept(db0, tasks0, db2, tasks2, s);
    }
    return Done(StepResult(true, ""));
  }

  /** advance_after_materialization: the review task only behind a GO. */
  method AdvanceAfterMaterialization(store: ContinuationStore, adapter: BoardAdapter, s: Source, verdict: string)
    returns (r: Outcome<StepResult>)
    requires WorldOk(store, adapter) && OwnerOrder(store.View()) && IsOwner(store.View(), s)
    modifies store, adapter
    ensures WorldOk(store, adapter) && store.now >= old(store.now)
    ensures OwnerOrder(store.View())
    ensures r.Done? && ReviewsKept(old(store.View())) ==> ReviewsKept(store.View())
    ensures Handles(old(store.View()), old(adapter.tasks), store.View(), adapter.tasks, s)
    ensures old(adapter.subscriptions) <= adapter.subscriptions
    ensures r.Done? ==> r.value.ok == (old(store.instances)[s].state == Materializing && verdict == "GO")
    ensures old(store.instances)[s].state != Materializing ==>
      store.View() == old(store.View()) && adapter.calls == old(adapter.calls)
    ensures verdict != "GO" ==> store.steps == old(store.steps) && adapter.calls == old(adapter.calls)
    ensures r.Done? && r.value.ok ==>
      && IsOwner(store.View(), s) && store.instances[s].state == WaitingReview && Reviewed(store.View(), s)
    ensures r.Done? && old(store.instances)[s].state == Materializing && verdict != "GO" ==>
      IsOwner(store.View(), s) && store.instances[s].state == FailedRetryable
    ensures store.crashes == old(store.crashes) + r.Toll()
    ensures adapter.failures >= old(adapter.failures)
    ensures r.Done? && r.value.ok && adapter.failures == old(adapter.failures) ==>
      Created(old(store.View()), store.View(), s, OwnerReviewKey(DigestOf(s)))
  {
    hide Inv, Handles, LogOk, EdgesOk, HistoryOk, OwnerOk, ReviewsKept, ReviewKept;
    ghost var db0, tasks0 := store.View(), adapter.tasks;
    GrowsReflexive(db0, tasks0);
    GrowsHandles(db0, tasks0, db0, tasks0, s);
    if store.instances[s].state != Materializing { return Done(StepResult(false, "not_materializing")); }
    MayMaterialize(db0, s);
    var to := if verdict == "GO" then WaitingReview else FailedRetryable;
    var moved := MoveOwner(store, adapter, s, to, if verdict == "GO" then MATERIALIZATION_GO else "materialization_not_go");
    if moved.Crashed? { return Crashed; }
    ghost var db1 := store.View();
    if verdict != "GO" {
      if ReviewsKept(db0) {
        InvLog(db0, tasks0);
        InvLog(db1, tasks0);
        ReviewStill(db0, db1, s);
        OrderKept(db0, tasks0, db1, tasks0, s);
      }
      return Done(StepResult(false, "materialization_not_go"));
    }
    ReviewMayOpen(db1, s);
    var task := OpenTask(store, adapter, s, OwnerReviewKey(DigestOf(s)));
    ghost var db2, tasks2 := store.View(), adapter.tasks;
    HandlesTransitive(db0, tasks0, db1, tasks0, db2, tasks2, s);
    if task.Crashed? { return Crashed; }
    InvLog(db0, tasks0);
    InvLog(db2, tasks2);
    ReviewThere(db2, s);
    OrderKept(db0, tasks0, db2, tasks2, s);
    return Done(StepResult(true, ""));
  }

  lemma MayMaterialize(db: Db, s: Source)
    requires OwnerOrder(db) && IsOwner(db, s) && db.instances[s].state == Materializing
    ensures MoveFits(db, s, WaitingReview, MATERIALIZATION_GO) && MoveFits(db, s, FailedRetryable, "")
  {
    assert OwnerOk(db, s);
  }

  lemma ReviewMayOpen(db: Db, s: Source)
    requires OwnerOrder(db) && IsOwner(db, s) && db.instances[s].state == WaitingReview
    ensures StepFits(db, s, OwnerReviewKey(DigestOf(s)))
  {
    assert OwnerOk(db, s);
  }

  lemma ReviewThere(db: Db, s: Source)
    requires s in db.instances && Reviewed(db, s)
    ensures ReviewKept(db, s)
  {}

  lemma RerunMayOpen(db: Db, s: Source)
    requires OwnerOrder(db) && IsOwner(db, s) && db.instances[s].state == Resumable
    ensures StepFits(db, s, RerunKey(DigestOf(s)))
  {
    assert OwnerOk(db, s);
  }

  lemma ReviewedOf(db: Db, s: Source)
    requires ReviewsKept(db) && IsOwner(db, s) && db.instances[s].state == WaitingReview
    ensures Reviewed(db, s)
  {
    assert ReviewKept(db, s);
  }

  /** advance_after_review: the packet rerun only behind a GO. It does not look
      for the review step: a rerun is preceded by a review exactly when the
      instance had one when the call was made. */
  method AdvanceAfterReview(store: ContinuationStore, adapter: BoardAdapter, s: Source, verdict: string)
    returns (r: Outcome<StepResult>)
    requires WorldOk(store, adapter) && OwnerOrder(store.View()) && IsOwner(store.View(), s)
    modifies store, adapter
    ensures WorldOk(store, adapter) && store.now >= old(store.now)
    ensures OwnerOrder(store.View())
    ensures r.Done? && ReviewsKept(old(store.View())) ==> ReviewsKept(store.View())
    ensures Handles(old(store.View()), old(adapter.tasks), store.View(), adapter.tasks, s)
    ensures old(adapter.subscriptions) <= adapter.subscriptions
    ensures r.Done? ==> r.value.ok == (old(store.instances)[s].state == WaitingReview && verdict == "GO")
    ensures old(store.instances)[s].state != WaitingReview ==>
      store.View() == old(store.View()) && adapter.calls == old(adapter.calls)
    ensures verdict != "GO" ==> store.steps == old(store.steps) && adapter.calls == old(adapter.calls)
    ensures r.Done? && r.value.ok ==>
      && IsOwner(store.View(), s) && store.instances[s].state == Resumed && Rerun(store.View(), s)
      && (Reviewed(store.View(), s) <==> old(Reviewed(store.View(), s)))
    ensures store.crashes == old(store.crashes) + r.Toll()
    ensures adapter.failures >= old(adapter.failures)
    ensures r.Done? && r.value.ok && adapter.failures == old(adapter.failures) ==>
      Created(old(store.View()), store.View(), s, RerunKey(DigestOf(s)))
  {
    hide Inv, Handles, LogOk, EdgesOk, HistoryOk, OwnerOk, ReviewsKept, ReviewKept, OwnerOrder;
    ghost var db0, tasks0 := store.View(), adapter.tasks;
    GrowsReflexive(db0, tasks0);
    GrowsHandles(db0, tasks0, db0, tasks0, s);
    if store.instances[s].state != WaitingReview { return Done(StepResult(false, "not_waiting_review")); }
    var to := if verdict == "GO" then Resumable else FailedRetryable;
    var moved := MoveOwner(store, adapter, s, to, if verdict == "GO" then REVIEW_GO else "review_not_go");
    if moved.Crashed? { return Crashed; }
    ghost var db1 := store.View();
    if verdict != "GO" {
      if ReviewsKept(db0) {
        InvLog(db0, tasks0);
        InvLog(db1, tasks0);
        ReviewStill(db0, db1, s);
        OrderKept(db0, tasks0, db1, tasks0, s);
      }
      return Done(StepResult(false, "review_not_go"));
    }
    r := RunPacket(store, adapter, s);
    ghost var db2, tasks2 := store.View(), adapter.tasks;
    HandlesTransitive(db0, tasks0, db1, tasks0, db2, tasks2, s);
    if r.Done? && ReviewsKept(db0) {
      InvLog(db0, tasks0);
      InvLog(db2, tasks2);
      ReviewedOf(db0, s);
      ReviewThere(db2, s);
      OrderKept(db0, tasks0, db2, tasks2, s);
    }
  }

  /** The packet-rerun task and the last move. */
  method RunPacket(store: ContinuationStore, adapter: BoardAdapter, s: Source)
    returns (r: Outcome<StepResult>)
    requires WorldOk(store, adapter) && OwnerOrder(store.View()) && IsOwner(store.View(), s)
    requires store.instances[s].state == Resumable
    modifies store, adapter
    ensures WorldOk(store, adapter) && store.now >= old(store.now)
    ensures OwnerOrder(store.View())
    ensures Handles(old(store.View()), old(adapter.tasks), store.View(), adapter.tasks, s)
    ensures old(adapter.subscriptions) <= adapter.subscriptions
    ensures old(store.steps.Keys) <= store.steps.Keys <= old(store.steps.Keys) + {(s, RerunKey(DigestOf(s)))}
    ensures r.Done? ==> r.value.ok && IsOwner(store.View(), s) && store.instances[s].state == Resumed
    ensures r.Done? ==> Rerun(store.View(), s)
    ensures store.crashes == old(store.crashes) + r.Toll()
    ensures adapter.failures >= old(adapter.failures)
    ensures r.Done? && adapter.failures == old(adapter.failures) ==>
      Created(old(store.View()), store.View(), s, RerunKey(DigestOf(s)))
  {
    hide Inv, Handles, LogOk, EdgesOk, HistoryOk, OwnerOk, OwnerOrder;
    ghost var db1, tasks1 := store.View(), adapter.tasks;
    RerunMayOpen(db1, s);
    var task := OpenTask(store, adapter, s, RerunKey(DigestOf(s)));
    if task.Crashed? { return Crashed; }
    ghost var db2, tasks2 := store.View(), adapter.tasks;
    var done := MoveOwner(store, adapter, s, Resumed, "packet_rerun_created");
    HandlesTransitive(db1, tasks1, db2, tasks2, store.View(), tasks2, s);
    r := if done.Crashed? then Crashed else Done(StepResult(true, ""));
  }
}
