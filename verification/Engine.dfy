/** The board router (continuation_engine.py): read events in order, hand each to
    its continuation, and move the cursor only past recorded work. */
module Engine {
  import opened Domain
  import opened Store
  import opened Adapter
  import opened Backoff
  import opened History
  import opened Protocol
  import opened Outbox
  import opened Handlers
  import opened InputContracts
  import opened OwnerInputHandler
  import CodeFixHandler
  import SemanticRefusalHandler
  import Reconciler

  // ----- what the engine keeps -----

  ghost predicate WaitsOk(db: Db) {
    forall s :: s in db.waits ==> IsKind(db, s, ExternalWait)
  }

  ghost predicate EngineOk(store: ContinuationStore, adapter: BoardAdapter)
    reads store, adapter
  {
    && WorldOk(store, adapter) && OwnerOrder(store.View()) && WaitsOk(store.View())
    && (store.crashes == 0 ==> ReviewsKept(store.View()))
  }

  /** The event's work is recorded for good. */
  predicate Durable(db: Db, e: Event) {
    && (e.kind == CodeFix ==>
         e.src in db.instances && db.instances[e.src] == Instance(CodeFix, WaitingReview, e.endpoint))
    && (e.kind == SemanticRefusal ==>
         e.src in db.instances && db.instances[e.src] == Instance(SemanticRefusal, BlockedInvalid, e.endpoint))
  }

  lemma WaitsKept(db: Db, tasks: Tasks, db': Db, tasks': Tasks, s: Source)
    requires Handles(db, tasks, db', tasks', s) && WaitsOk(db)
    ensures WaitsOk(db')
  {
    forall t | t in db'.waits ensures IsKind(db', t, ExternalWait) {
      if t != s {
        assert t in db.instances - {s} && (db'.instances - {s})[t] == (db.instances - {s})[t];
      }
    }
  }

  /** Handling an event of another kind disturbs no owner-input instance. */
  lemma OwnersKept(db: Db, tasks: Tasks, db': Db, tasks': Tasks, s: Source)
    requires Handles(db, tasks, db', tasks', s) && Inv(db, tasks) && Inv(db', tasks')
    requires OwnerOrder(db) && !IsOwner(db', s)
    ensures OwnerOrder(db') && (ReviewsKept(db) ==> ReviewsKept(db'))
  {
    hide Inv, Handles, LogOk, OwnerOk, ReviewsKept, ReviewKept;
    InvLog(db, tasks);
    InvLog(db', tasks');
    OrderKept(db, tasks, db', tasks', s);
  }

  /** Nor does a pass over the outbox. */
  lemma OutboxKeepsOwners(db: Db, tasks: Tasks, db': Db, tasks': Tasks)
    requires Grows(db, tasks, db', tasks') && Inv(db, tasks) && db'.steps.Keys == db.steps.Keys
    requires OwnerOrder(db) && WaitsOk(db)
    ensures OwnerOrder(db') && WaitsOk(db') && (ReviewsKept(db) ==> ReviewsKept(db'))
  {
    hide Inv, Grows, OwnerOk, ReviewKept;
    GrowsShape(db, tasks, db', tasks');
    forall s | IsOwner(db', s) ensures OwnerOk(db', s) && ReviewKept(db', s) == ReviewKept(db, s) {
      InvLogged(db, tasks, s);
      assert SameProgress(db, db', s);
      SameProgressKeeps(db, db', s);
    }
  }

  lemma DurableStays(db: Db, tasks: Tasks, db': Db, tasks': Tasks, s: Source, e: Event)
    requires Handles(db, tasks, db', tasks', s) && Durable(db, e)
    requires e.src != s || db'.instances == db.instances
    ensures Durable(db', e)
  {
    if e.src != s && e.src in db.instances {
      assert e.src in db.instances - {s} && (db'.instances - {s})[e.src] == (db.instances - {s})[e.src];
    }
  }

  // ----- one event -----

  /** How the requirement resolver answers for an owner-input event. */
  datatype Resolution = NoContract | Ask | Auto(fields: seq<Field>, satisfied: map<string, string>)

  /** The instance of this source waits for its owner, or will once it is made. */
  predicate Awaits(db: Db, s: Source) { s in db.instances ==> db.instances[s].state == WaitingOwner }

  /** What a fully resolved event leaves: no anchor, every satisfaction, and the
      materialization exactly when an owner's submission would have started it. */
  ghost predicate AutoResolved(db: Db, db': Db, e: Event, fields: seq<Field>, satisfied: map<string, string>) {
    var accepted := Awaits(db, e.src) && forall fault :: !Faulty(fields, satisfied, fault);
    && IsOwner(db', e.src) && db'.steps.Keys <= db.steps.Keys + {(e.src, MaterializeKey(DigestOf(e.src)))}
    && (forall n :: n in satisfied ==> (e.src, n) in db'.satisfied)
    && (accepted ==> db'.instances[e.src].state == Materializing && Materialized(db', e.src))
    && (!accepted ==> db'.steps == db.steps && db'.receipts == db.receipts && Unmoved(db, db', e.src))
  }

  /** A known instance stays in its state, a new one waits for its owner. */
  predicate Unmoved(db: Db, db': Db, s: Source) {
    s in db'.instances
    && db'.instances[s].state == if s in db.instances then db.instances[s].state else WaitingOwner
  }

  /** What routing an owner-input event leaves. */
  ghost predicate Routed(db: Db, db': Db, e: Event, resolution: Resolution) {
    match resolution
    case NoContract => db' == db
    case Ask =>
      && IsOwner(db', e.src) && (e.src, AnchorKey(DigestOf(e.src))) in db'.steps
      && (e.src !in db.instances ==> db'.instances[e.src].state == WaitingOwner)
    case Auto(fields, satisfied) => AutoResolved(db, db', e, fields, satisfied)
  }

  /** The satisfactions of a fully resolved event, one committed write each. */
  method Satisfy(store: ContinuationStore, ghost adapter: BoardAdapter, s: Source, names: set<string>)
    returns (r: Outcome<()>)
    requires WorldOk(store, adapter)
    modifies store
    ensures WorldOk(store, adapter) && store.now == old(store.now)
    ensures Handles(old(store.View()), adapter.tasks, store.View(), adapter.tasks, s)
    ensures store.View() == old(store.View()).(satisfied := store.satisfied)
    ensures r.Done? ==> store.satisfied == old(store.satisfied) + (set n | n in names :: (s, n))
    ensures store.crashes == old(store.crashes) + r.Toll()
  {
    hide Inv, Handles, EdgesOk, HistoryOk;
    ghost var db0 := store.View();
    GrowsReflexive(db0, adapter.tasks);
    GrowsHandles(db0, adapter.tasks, db0, adapter.tasks, s);
    var todo := names;
    while todo != {}
      invariant WorldOk(store, adapter) && store.now == old(store.now)
      invariant Handles(db0, adapter.tasks, store.View(), adapter.tasks, s)
      invariant store.View() == db0.(satisfied := store.satisfied)
      invariant todo <= names
      invariant store.satisfied == db0.satisfied + (set n | n in names && n !in todo :: (s, n))
      invariant store.crashes == old(store.crashes)
    {
      var name :| name in todo;
      todo := todo - {name};
      ghost var db := store.View();
      SatisfyKeeps(db, adapter.tasks, s, name);
      HandlesTransitive(db0, adapter.tasks, db, adapter.tasks,
        db.(satisfied := db.satisfied + {(s, name)}), adapter.tasks, s);
      var noted := store.RecordSatisfaction(s, name);
      if noted.Crashed? { return Crashed; }
    }
    r := Done(());
  }

  lemma SatisfiedOrder(db: Db, db': Db)
    requires OwnerOrder(db) && LogOk(db) && db' == db.(satisfied := db'.satisfied)
    ensures OwnerOrder(db') && (ReviewsKept(db) ==> ReviewsKept(db'))
  {
    hide OwnerOk, ReviewKept;
    forall s | IsOwner(db', s) ensures OwnerOk(db', s) && ReviewKept(db', s) == ReviewKept(db, s) {
      assert SameProgress(db, db', s);
      SameProgressKeeps(db, db', s);
    }
  }

  /** A fully resolved owner-input event: no anchor, an automatic receipt. */
  method AutoResolve(store: ContinuationStore, adapter: BoardAdapter, e: Event,
                     fields: seq<Field>, satisfied: map<string, string>)
    returns (r: Outcome<()>)
    requires WorldOk(store, adapter) && OwnerOrder(store.View())
    requires CleanSource(e.src) && e.kind == OwnerInput && Knows(store.View(), e)
    modifies store, adapter
    ensures WorldOk(store, adapter) && store.now >= old(store.now)
    ensures OwnerOrder(store.View())
    ensures Handles(old(store.View()), old(adapter.tasks), store.View(), adapter.tasks, e.src)
    ensures old(adapter.subscriptions) <= adapter.subscriptions
    ensures r.Done? && ReviewsKept(old(store.View())) ==> ReviewsKept(store.View())
    ensures Knows(store.View(), e) && adapter.failures >= old(adapter.failures)
    ensures r.Done? ==> AutoResolved(old(store.View()), store.View(), e, fields, satisfied)
    ensures store.crashes == old(store.crashes) + r.Toll()
  {
    hide Inv, Handles, LogOk, EdgesOk, HistoryOk, OwnerOk, OwnerOrder, ReviewsKept, ReviewKept, Faulty, AutoResolved, Materialized;
    var s := e.src;
    ghost var db0, tasks0 := store.View(), adapter.tasks;
    var waiting := Await(store, adapter, e, "needs_input_detected_h0");
    if waiting.Crashed? { return Crashed; }
    ghost var db1 := store.View();
    InvLog(db1, tasks0);
    var noted := Satisfy(store, adapter, s, satisfied.Keys);
    ghost var db2 := store.View();
    SatisfiedOrder(db1, db2);
    HandlesTransitive(db0, tasks0, db1, tasks0, db2, tasks0, s);
    if noted.Crashed? { return Crashed; }
    var received := OnReceipt(store, adapter, s, fields, satisfied);
    HandlesTransitive(db0, tasks0, db2, tasks0, store.View(), adapter.tasks, s);
    HandlesKnows(db2, tasks0, store.View(), adapter.tasks, e);
    if received.Crashed? { return Crashed; }
    HandlesSatisfied(db2, tasks0, store.View(), adapter.tasks, s);
    AutoEnds(db0, db1, db2, store.View(), e, fields, satisfied);
    r := Done(());
  }

  lemma AutoEnds(db0: Db, db1: Db, db2: Db, db3: Db, e: Event, fields: seq<Field>, satisfied: map<string, string>)
    requires IsOwner(db1, e.src) && Unmoved(db0, db1, e.src) && db1.steps == db0.steps && db1.receipts == db0.receipts
    requires db2 == db1.(satisfied := db1.satisfied + (set n | n in satisfied.Keys :: (e.src, n)))
    requires db2.satisfied <= db3.satisfied && IsOwner(db3, e.src)
    requires db3.steps.Keys <= db2.steps.Keys + {(e.src, MaterializeKey(DigestOf(e.src)))}
    requires if db2.instances[e.src].state == WaitingOwner && forall fault :: !Faulty(fields, satisfied, fault)
             then db3.instances[e.src].state == Materializing && Materialized(db3, e.src) else db3 == db2
    ensures AutoResolved(db0, db3, e, fields, satisfied)
  {
    hide Faulty, Materialized;
  }

  lemma HandlesSatisfied(db: Db, tasks: Tasks, db': Db, tasks': Tasks, s: Source)
    requires Handles(db, tasks, db', tasks', s)
    ensures db.satisfied <= db'.satisfied
  {}

  /** _owner_input_like. */
  method RouteOwnerInput(store: ContinuationStore, adapter: BoardAdapter, e: Event, resolution: Resolution)
    returns (r: Outcome<()>)
    requires WorldOk(store, adapter) && OwnerOrder(store.View())
    requires CleanSource(e.src) && e.kind == OwnerInput && Knows(store.View(), e)
    modifies store, adapter
    ensures WorldOk(store, adapter) && store.now >= old(store.now)
    ensures OwnerOrder(store.View())
    ensures Handles(old(store.View()), old(adapter.tasks), store.View(), adapter.tasks, e.src)
    ensures old(adapter.subscriptions) <= adapter.subscriptions
    ensures r.Done? && ReviewsKept(old(store.View())) ==> ReviewsKept(store.View())
    ensures Knows(store.View(), e) && adapter.failures >= old(adapter.failures)
    ensures r.Done? ==> Routed(old(store.View()), store.View(), e, resolution)
    ensures store.crashes == old(store.crashes) + r.Toll()
  {
    hide Inv, Handles, LogOk, EdgesOk, HistoryOk, OwnerOk, OwnerOrder, ReviewsKept, AutoResolved, Materialized;
    match resolution {
      case NoContract =>
        GrowsReflexive(store.View(), adapter.tasks);
        GrowsHandles(store.View(), adapter.tasks, store.View(), adapter.tasks, e.src);
        r := Done(());
      case Ask =>
        var planned := Plan(store, adapter, e);
        r := if planned.Crashed? then Crashed else Done(());
      case Auto(fields, satisfied) =>
        r := AutoResolve(store, adapter, e, fields, satisfied);
    }
  }

  /** _handle_external_wait: register one condition for a new instance. */
  method RegisterWait(store: ContinuationStore, ghost adapter: BoardAdapter, e: Event)
    returns (r: Outcome<()>)
    requires WorldOk(store, adapter) && CleanSource(e.src) && e.kind == ExternalWait && Knows(store.View(), e)
    modifies store
    ensures WorldOk(store, adapter) && store.now == old(store.now)
    ensures Handles(old(store.View()), adapter.tasks, store.View(), adapter.tasks, e.src)
    ensures Knows(store.View(), e)
    ensures store.crashes == old(store.crashes) + r.Toll()
    ensures r.Done? && e.src !in old(store.instances) ==>
      IsKind(store.View(), e.src, ExternalWait) && store.instances[e.src].state == Materializing
      && e.src in store.waits
    ensures e.src in old(store.instances) ==> store.View() == old(store.View())
    ensures r.Done? ==> IsKind(store.View(), e.src, ExternalWait)
  {
    hide Inv, Handles, LogOk, EdgesOk, HistoryOk;
    var s := e.src;
    ghost var db0, tasks := store.View(), adapter.tasks;
    var found := Open(store, adapter, e);
    if found.Crashed? { return Crashed; }
    if !found.value.0 { return Done(()); }
    ghost var db1 := store.View();
    InvLogged(db1, tasks, s);
    var moved := Move(store, adapter, s, Materializing, "external_wait_registered");
    ghost var db2 := store.View();
    HandlesTransitive(db0, tasks, db1, tasks, db2, tasks, s);
    HandlesKnows(db1, tasks, db2, tasks, e);
    if moved.Crashed? { return Crashed; }
    WaitKeeps(db2, tasks, s);
    r := store.AddWait(s);
    HandlesTransitive(db0, tasks, db2, tasks, AddWaitDb(db2, s), tasks, s);
  }

  lemma WaitKeeps(db: Db, tasks: Tasks, s: Source)
    requires Inv(db, tasks) && IsKind(db, s, ExternalWait)
    ensures Inv(AddWaitDb(db, s), tasks) && Handles(db, tasks, AddWaitDb(db, s), tasks, s)
  {
    hide Inv, LogOk;
    var db' := AddWaitDb(db, s);
    InvLog(db, tasks);
    LogOnly(db, db');
    InvInstance(db, tasks, s);
    LedgerWriteKeeps(db, tasks, db', s);
    assert Handles(db, tasks, db', tasks, s);
  }

  /** No mutation failed since, and nothing of the source was backing off. */
  ghost predicate Eased(outbox: map<Key, Row>, s: Source, at: real, failures: nat, adapter: BoardAdapter)
    reads adapter
  {
    adapter.failures == failures && CodeFixHandler.AllDue(outbox, s, at)
  }

  /** Route one event. True when the cursor may pass it: only a failed fix graph
      or a failed roadmap step holds it back. */
  method RouteEvent(store: ContinuationStore, adapter: BoardAdapter, e: Event, apply: bool,
                    resolution: Resolution, roadmapOk: bool)
    returns (r: Outcome<bool>)
    requires EngineOk(store, adapter) && CleanSource(e.src) && Knows(store.View(), e)
    modifies store, adapter
    ensures EngineOk(store, adapter) && store.now >= old(store.now)
    ensures Handles(old(store.View()), old(adapter.tasks), store.View(), adapter.tasks, e.src)
    ensures Knows(store.View(), e) && adapter.failures >= old(adapter.failures)
    ensures r.Done? && r.value && apply ==> Durable(store.View(), e)
    ensures r.Done? && !r.value ==> e.kind == Roadmap || (e.kind == CodeFix && apply)
    ensures r.Done? && e.kind == OwnerInput ==> Routed(old(store.View()), store.View(), e, resolution)
    ensures r.Done? && e.kind == ExternalWait ==>
      IsKind(store.View(), e.src, ExternalWait) && (e.src in old(store.instances) || e.src in store.waits)
    // without apply, and for the other kinds, nothing is written and nobody called
    ensures e.kind in {Roadmap, Unknown} || (!apply && e.kind in {CodeFix, SemanticRefusal}) ==>
      store.View() == old(store.View()) && adapter.calls == old(adapter.calls)
    ensures store.crashes == old(store.crashes) + r.Toll()
    ensures r.Done? && roadmapOk && Eased(old(store.outbox), e.src, old(store.now), old(adapter.failures), adapter)
      ==> r.value
  {
    hide Inv, Handles, LogOk, EdgesOk, HistoryOk, OwnerOrder, WaitsOk, ReviewsKept, Routed;
    ghost var db0, tasks0 := store.View(), adapter.tasks;
    GrowsReflexive(db0, tasks0);
    GrowsHandles(db0, tasks0, db0, tasks0, e.src);
    r := Done(true);
    match e.kind {
      case OwnerInput =>
        var routed := RouteOwnerInput(store, adapter, e, resolution);
        if routed.Crashed? { r := Crashed; }
      case Roadmap => r := Done(roadmapOk);
      case CodeFix =>
        if apply {
          var step := CodeFixHandler.Materialize(store, adapter, e);
          r := if step.Crashed? then Crashed else Done(step.value.ok);
        }
      case SemanticRefusal =>
        if apply {
          var step := SemanticRefusalHandler.Materialize(store, adapter, e);
          r := if step.Crashed? then Crashed else Done(step.value.ok);
        }
      case ExternalWait =>
        var routed := RegisterWait(store, adapter, e);
        if routed.Crashed? { r := Crashed; }
      case Unknown =>
    }
    WaitsKept(db0, tasks0, store.View(), adapter.tasks, e.src);
    if e.kind != OwnerInput {
      OwnersKept(db0, tasks0, store.View(), adapter.tasks, e.src);
    }
  }

  // ----- calls that start from a stored instance -----

  /** Only instances of one kind move; nothing is created and the cursor stays. */
  ghost predicate OnlyKind(db: Db, db': Db, kind: Kind) {
    && db'.instances.Keys == db.instances.Keys && db'.cursor == db.cursor
    && forall s :: s in db.instances ==>
      && db'.instances[s].kind == db.instances[s].kind && db'.instances[s].endpoint == db.instances[s].endpoint
      && (db.instances[s].kind != kind ==> db'.instances[s] == db.instances[s])
  }

  lemma HandlesOnlyKind(db: Db, tasks: Tasks, db': Db, tasks': Tasks, s: Source)
    requires Handles(db, tasks, db', tasks', s) && s in db.instances
    ensures OnlyKind(db, db', db.instances[s].kind)
  {
    forall t | t in db.instances
      ensures t in db'.instances && (t != s ==> db'.instances[t] == db.instances[t])
    {
      if t != s { assert t in db.instances - {s} && (db'.instances - {s})[t] == (db.instances - {s})[t]; }
    }
    forall t | t in db'.instances ensures t in db.instances {
      if t != s { assert t in db'.instances - {s}; assert t in db.instances - {s}; }
    }
  }

  datatype Verdict = StillPending | Satisfied | Failed

  /** The tables after one condition was checked. */
  function Polled(db: Db, s: Source, verdict: Verdict): Db {
    match verdict
    case StillPending => db
    case Satisfied =>
      TransitionDb(TransitionDb(SettleWaitDb(db, s), s, Resumable, "external_wait_satisfied"),
        s, Resumed, "external_wait_resumed")
    case Failed => TransitionDb(SettleWaitDb(db, s), s, FailedRetryable, "external_wait_failed_permanent")
  }

  function AfterPoll(verdict: Verdict): State {
    match verdict case StillPending => Materializing case Satisfied => Resumed case Failed => FailedRetryable
  }

  /** A wait that is met resumes its instance, one that failed leaves it to retry;
      either way the condition is never checked again. */
  lemma PolledMeans(db: Db, s: Source, verdict: Verdict)
    requires IsKind(db, s, ExternalWait) && s in db.events && s in db.waits && db.instances[s].state == Materializing
    ensures var db' := Polled(db, s, verdict);
      && s in db'.instances && s in db'.waits && db'.instances[s].state == AfterPoll(verdict)
      && db'.waits[s] == (db.waits[s] && verdict == StillPending)
      && db'.outbox == db.outbox && db'.steps == db.steps && db'.cursor == db.cursor
  {
    var settled := SettleWaitDb(db, s);
    MovesOne(settled, s, Resumable, "external_wait_satisfied");
    MovesOne(settled, s, FailedRetryable, "external_wait_failed_permanent");
    MovesOne(TransitionDb(settled, s, Resumable, "external_wait_satisfied"), s, Resumed, "external_wait_resumed");
    hide TransitionDb;
  }

  /** A transition touches its own instance and log, the former only if legal. */
  lemma MovesOne(db: Db, s: Source, to: State, reason: string)
    ensures var db' := TransitionDb(db, s, to, reason);
      && db' == db.(instances := db'.instances, events := db'.events) && db'.instances - {s} == db.instances - {s}
      && (s in db.instances <==> s in db'.instances) && (s in db.events <==> s in db'.events)
      && (s in db.instances && s in db.events && Legal(db.instances[s].state, to) ==> db'.instances[s].state == to)
  {}

  /** The condition's own instance, when it still waits, and nobody else's. */
  lemma PolledOthers(db: Db, s: Source, verdict: Verdict)
    ensures var db' := Polled(db, s, verdict);
      && db'.instances - {s} == db.instances - {s} && db'.waits - {s} == db.waits - {s}
      && (s in db.instances <==> s in db'.instances)
      && (s in db.waits ==> s in db'.waits && db'.waits[s] == (db.waits[s] && verdict == StillPending))
  {
    var settled := SettleWaitDb(db, s);
    MovesOne(settled, s, Resumable, "external_wait_satisfied");
    MovesOne(settled, s, FailedRetryable, "external_wait_failed_permanent");
    MovesOne(TransitionDb(settled, s, Resumable, "external_wait_satisfied"), s, Resumed, "external_wait_resumed");
    hide TransitionDb;
  }

  /** What one poll makes of a condition that was pending when it began. */
  ghost predicate PolledAs(db: Db, db': Db, s: Source, verdict: Verdict) {
    && s in db.instances && s in db'.instances && s in db'.waits
    && db'.waits[s] == (verdict == StillPending)
    && (db.instances[s].state == Materializing ==> db'.instances[s].state == AfterPoll(verdict))
  }

  /** How far a poll has come: conditions in `todo` still wait to be checked. */
  ghost predicate PollingAt(db0: Db, db: Db, todo: set<Source>, verdicts: map<Source, Verdict>) {
    && (forall s :: s in todo ==>
         s in db0.instances && s in db.instances && db.instances[s] == db0.instances[s] && s in db.waits && db.waits[s])
    && (forall s :: s in verdicts ==> s !in todo && PolledAs(db0, db, s, verdicts[s]))
  }

  lemma PollStep(db0: Db, db: Db, todo: set<Source>, verdicts: map<Source, Verdict>, s: Source, verdict: Verdict)
    requires PollingAt(db0, db, todo, verdicts) && s in todo && IsKind(db, s, ExternalWait) && s in db.events
    ensures PollingAt(db0, Polled(db, s, verdict), todo - {s}, verdicts[s := verdict])
  {
    hide PollingAt;
    StillChecked(db0, db, todo, verdicts, s);
    PolledOthers(db, s, verdict);
    if db.instances[s].state == Materializing { PolledMeans(db, s, verdict); }
    hide Polled, AfterPoll;
    PollNext(db0, db, Polled(db, s, verdict), todo, verdicts, s, verdict);
  }

  lemma StillChecked(db0: Db, db: Db, todo: set<Source>, verdicts: map<Source, Verdict>, s: Source)
    requires PollingAt(db0, db, todo, verdicts) && s in todo
    ensures s in db0.instances && s in db.instances && db.instances[s] == db0.instances[s] && s in db.waits && db.waits[s]
  {}

  lemma PollNext(db0: Db, db: Db, db': Db, todo: set<Source>, verdicts: map<Source, Verdict>, s: Source, verdict: Verdict)
    requires PollingAt(db0, db, todo, verdicts) && s in todo && PolledAs(db0, db', s, verdict)
    requires db'.instances - {s} == db.instances - {s} && db'.waits - {s} == db.waits - {s}
    ensures PollingAt(db0, db', todo - {s}, verdicts[s := verdict])
  {
    hide AfterPoll;
    forall t | t != s
      ensures t in db.instances ==> t in db'.instances && db'.instances[t] == db.instances[t]
      ensures t in db.waits ==> t in db'.waits && db'.waits[t] == db.waits[t]
    {
      if t in db.instances { OtherEntry(db.instances, db'.instances, s, t); }
      if t in db.waits { OtherEntry(db.waits, db'.waits, s, t); }
    }
  }

  lemma OtherEntry<V>(m: map<Source, V>, m': map<Source, V>, s: Source, t: Source)
    requires m' - {s} == m - {s} && t != s && t in m
    ensures t in m' && m'[t] == m[t]
  {
    assert t in m - {s} && (m - {s})[t] == m[t];
    assert t in m' - {s} && (m' - {s})[t] == m'[t];
  }

  /** One due wait condition and what the checker says of it. */
  method PollOne(store: ContinuationStore, ghost adapter: BoardAdapter, s: Source, verdict: Verdict)
    returns (r: Outcome<()>)
    requires WorldOk(store, adapter) && IsKind(store.View(), s, ExternalWait)
    modifies store
    ensures WorldOk(store, adapter) && store.now == old(store.now)
    ensures Handles(old(store.View()), adapter.tasks, store.View(), adapter.tasks, s)
    ensures store.crashes == old(store.crashes) + r.Toll()
    ensures r.Done? ==> store.View() == Polled(old(store.View()), s, verdict)
  {
    hide Inv, Handles, LogOk, EdgesOk, HistoryOk;
    ghost var db0, tasks := store.View(), adapter.tasks;
    GrowsReflexive(db0, tasks);
    GrowsHandles(db0, tasks, db0, tasks, s);
    if verdict == StillPending { return Done(()); }
    SettleKeeps(db0, tasks, s);
    var _ :- store.SettleWait(s);
    ghost var db1 := store.View();
    var to := if verdict == Satisfied then Resumable else FailedRetryable;
    HandlesKnows(db0, tasks, db1, tasks, Event(0, s, ExternalWait, db0.instances[s].endpoint));
    var moved := Move(store, adapter, s, to,
      if verdict == Satisfied then "external_wait_satisfied" else "external_wait_failed_permanent");
    ghost var db2 := store.View();
    HandlesTransitive(db0, tasks, db1, tasks, db2, tasks, s);
    if moved.Crashed? || verdict == Failed { return moved; }
    HandlesKnows(db0, tasks, db2, tasks, Event(0, s, ExternalWait, db0.instances[s].endpoint));
    r := Move(store, adapter, s, Resumed, "external_wait_resumed");
    HandlesTransitive(db0, tasks, db2, tasks, store.View(), tasks, s);
  }

  lemma SettleKeeps(db: Db, tasks: Tasks, s: Source)
    requires Inv(db, tasks) && IsKind(db, s, ExternalWait)
    ensures Inv(SettleWaitDb(db, s), tasks) && Handles(db, tasks, SettleWaitDb(db, s), tasks, s)
  {
    hide Inv, LogOk;
    var db' := SettleWaitDb(db, s);
    InvLog(db, tasks);
    LogOnly(db, db');
    InvInstance(db, tasks, s);
    LedgerWriteKeeps(db, tasks, db', s);
    assert Handles(db, tasks, db', tasks, s);
  }

  lemma OnlyKindTransitive(a: Db, b: Db, c: Db, kind: Kind)
    requires OnlyKind(a, b, kind) && OnlyKind(b, c, kind)
    ensures OnlyKind(a, c, kind)
  {}

  /** poll_external_wait_conditions: every pending condition gets one answer and
      its instance moves as that answer says; nothing but external waits moves. */
  method Poll(store: ContinuationStore, ghost adapter: BoardAdapter)
    returns (r: Outcome<()>, ghost verdicts: map<Source, Verdict>)
    requires EngineOk(store, adapter)
    modifies store
    ensures EngineOk(store, adapter) && OnlyKind(old(store.View()), store.View(), ExternalWait)
    ensures r.Done? ==> forall s :: s in verdicts <==> s in old(store.waits) && old(store.waits)[s]
    ensures r.Done? ==> forall s :: s in verdicts ==> PolledAs(old(store.View()), store.View(), s, verdicts[s])
    ensures store.crashes == old(store.crashes) + r.Toll()
  {
    hide Inv, Handles, LogOk, EdgesOk, HistoryOk, OwnerOrder, WaitsOk, OnlyKind, ReviewsKept, Polled, PollingAt, PolledAs;
    ghost var db0, tasks := store.View(), adapter.tasks;
    SameOnlyKind(db0, ExternalWait);
    var todo := set s | s in store.waits && store.waits[s];
    ghost var all := todo;
    verdicts := map[];
    PollStarts(db0, todo);
    while todo != {}
      invariant EngineOk(store, adapter) && OnlyKind(db0, store.View(), ExternalWait)
      invariant (forall s :: s in todo ==> IsKind(store.View(), s, ExternalWait))
      invariant store.crashes == old(store.crashes)
      invariant PollingAt(db0, store.View(), todo, verdicts) && todo <= all && verdicts.Keys == all - todo
    {
      var s :| s in todo;
      ghost var db := store.View();
      var verdict: Verdict := *;
      InvLogged(db, tasks, s);
      PollStep(db0, db, todo, verdicts, s, verdict);
      var done := PollOne(store, adapter, s, verdict);
      ghost var db' := store.View();
      WaitsKept(db, tasks, db', tasks, s);
      HandlesOnlyKind(db, tasks, db', tasks, s);
      OnlyKindTransitive(db0, db, db', ExternalWait);
      KindsStay(db, db', todo);
      OwnersKept(db, tasks, db', tasks, s);
      if done.Crashed? { return Crashed, verdicts; }
      todo, verdicts := todo - {s}, verdicts[s := verdict];
    }
    PollEnds(db0, store.View(), verdicts);
    r := Done(());
  }

  lemma PollStarts(db: Db, todo: set<Source>)
    requires WaitsOk(db) && todo == set s | s in db.waits && db.waits[s]
    ensures PollingAt(db, db, todo, map[]) && forall s :: s in todo ==> IsKind(db, s, ExternalWait)
  {}

  lemma PollEnds(db0: Db, db: Db, verdicts: map<Source, Verdict>)
    requires PollingAt(db0, db, {}, verdicts)
    ensures forall s :: s in verdicts ==> PolledAs(db0, db, s, verdicts[s])
  {}

  lemma SameOnlyKind(db: Db, kind: Kind)
    ensures OnlyKind(db, db, kind)
  {}

  lemma KindsStay(db: Db, db': Db, todo: set<Source>)
    requires OnlyKind(db, db', ExternalWait) && forall s :: s in todo ==> IsKind(db, s, ExternalWait)
    ensures forall s :: s in todo ==> IsKind(db', s, ExternalWait) && !IsOwner(db', s)
  {}

  /** What an owner or a finished board task reports for a stored instance. */
  datatype OwnerCall =
    | Submit(fields: seq<Field>, values: map<string, string>)
    | MaterializationDone(verdict: string)
    | ReviewDone(verdict: string)

  /** When the handler acts on a call instead of refusing it. */
  ghost predicate Accepts(state: State, call: OwnerCall) {
    match call
    case Submit(fields, values) => state == WaitingOwner && forall fault :: !Faulty(fields, values, fault)
    case MaterializationDone(verdict) => state == Materializing && verdict == "GO"
    case ReviewDone(verdict) => state == WaitingReview && verdict == "GO"
  }

  function Target(call: OwnerCall): State {
    match call
    case Submit(_, _) => Materializing
    case MaterializationDone(_) => WaitingReview
    case ReviewDone(_) => Resumed
  }

  /** on_receipt and the two advance calls, on a freshly read instance. */
  method Call(store: ContinuationStore, adapter: BoardAdapter, s: Source, call: OwnerCall)
    returns (r: Outcome<StepResult>)
    requires EngineOk(store, adapter) && IsOwner(store.View(), s)
    modifies store, adapter
    ensures EngineOk(store, adapter) && store.now >= old(store.now)
    ensures OnlyKind(old(store.View()), store.View(), OwnerInput)
    ensures r.Done? && ReviewsKept(old(store.View())) ==> ReviewsKept(store.View())
    ensures r.Done? ==> r.value.ok == Accepts(old(store.instances)[s].state, call)
    ensures r.Done? && r.value.ok ==> IsOwner(store.View(), s) && store.instances[s].state == Target(call)
    ensures store.crashes == old(store.crashes) + r.Toll()
  {
    hide Inv, Handles, LogOk, EdgesOk, HistoryOk, OwnerOrder, WaitsOk, OnlyKind, ReviewsKept, Faulty;
    ghost var db0, tasks0 := store.View(), adapter.tasks;
    match call {
      case Submit(fields, values) => r := OnReceipt(store, adapter, s, fields, values);
      case MaterializationDone(verdict) => r := AdvanceAfterMaterialization(store, adapter, s, verdict);
      case ReviewDone(verdict) => r := AdvanceAfterReview(store, adapter, s, verdict);
    }
    WaitsKept(db0, tasks0, store.View(), adapter.tasks, s);
    HandlesOnlyKind(db0, tasks0, store.View(), adapter.tasks, s);
  }

  /** A pass over the outbox moves no instance at all. */
  method Retry(store: ContinuationStore, adapter: BoardAdapter) returns (r: Outcome<()>, ghost at: real)
    requires EngineOk(store, adapter)
    modifies store, adapter
    ensures EngineOk(store, adapter) && store.now >= at >= old(store.now)
    ensures store.instances == old(store.instances) && store.cursor == old(store.cursor)
    ensures store.outbox.Keys == old(store.outbox).Keys
    ensures r.Done? ==> forall k :: k in store.outbox ==>
      if Due(old(store.outbox)[k], at) then Reconciler.Retried(old(store.outbox)[k], store.outbox[k])
      else store.outbox[k] == old(store.outbox)[k]
    ensures store.crashes == old(store.crashes) + r.Toll()
  {
    hide Inv, Grows, LogOk, EdgesOk, HistoryOk, OwnerOrder, WaitsOk, ReviewsKept;
    ghost var db0, tasks0 := store.View(), adapter.tasks;
    r, at := Reconciler.Reconcile(store, adapter);
    GrowsFacts(db0, tasks0, store.View(), adapter.tasks);
    OutboxKeepsOwners(db0, tasks0, store.View(), adapter.tasks);
  }
}
