/** What the continuation tables and the board always agree on, and that every
    single committed write or board effect keeps it. */
module Protocol {
  import opened Domain
  import opened Store
  import opened Adapter
  import C = Callbacks

  type Tasks = map<Key, Task>

  function OpOf(k: Key): Operation {
    match k
    case SubscribeKey(_, _) => Subscribe
    case AnchorSubscribeKey(_, _) => Subscribe
    case CompleteAnchorKey(_, _, _) => CompleteAnchor
    case WakeKey(_, _) => ScheduleWake
    case FixAckKey(_, _) => RecordAck
    case RefusalAckKey(_, _) => RecordAck
    case _ => CreateTask
  }

  function KindOf(k: Key): Kind {
    if k.FixKey? || k.ReviewKey? || k.SubscribeKey? || k.FixAckKey? then CodeFix
    else if k.WakeKey? || k.RefusalAckKey? then SemanticRefusal
    else OwnerInput
  }

  predicate AppliedIn(db: Db, k: Key) { k in db.outbox && db.outbox[k].state == Applied }

  /** A row belongs to a known instance of the key's kind and carries the key of
      that instance's source; applied creates name the board's task. */
  ghost predicate RowOk(db: Db, tasks: Tasks, k: Key, row: Row) {
    && row.op == OpOf(k)
    && CleanSource(row.src) && k.digest == DigestOf(row.src)
    && row.src in db.instances && db.instances[row.src].kind == KindOf(k)
    && (Mutation(row.op) ==> row.state != Deadletter)
    && (row.op == CreateTask ==> row.step == Some(k))
    && (row.op == RecordAck ==> C.AckCapped(row))
    && (row.op == CreateTask && row.state == Applied ==> k in tasks && row.boardTask == tasks[k].id)
  }

  predicate Mutation(op: Operation) { op == CreateTask || op == Subscribe || op == CompleteAnchor }

  /** The review row exists only once the fix row is applied, and the subscribe
      row only once the review row is; each carries its predecessor's task. No
      other create has a parent. */
  ghost predicate ChainOk(db: Db, k: Key, row: Row) {
    match k
    case ReviewKey(d) => AppliedIn(db, FixKey(d)) && row.payload.parent == db.outbox[FixKey(d)].boardTask
    case SubscribeKey(d, e) =>
      && AppliedIn(db, ReviewKey(d))
      && row.payload.task == db.outbox[ReviewKey(d)].boardTask && row.payload.endpoint == e
    case _ => row.op == CreateTask ==> row.payload.parent == ""
  }

  ghost predicate TaskOk(db: Db, k: Key, task: Task) {
    && k in db.outbox && db.outbox[k].op == CreateTask
    && task.parent == db.outbox[k].payload.parent
  }

  ghost predicate StepOk(db: Db, s: Source, k: Key, step: Step) {
    && s in db.instances && k.digest == DigestOf(s) && KindOf(k) == db.instances[s].kind
    && OpOf(k) == CreateTask
    && (k.ReviewKey? ==> step.parent == Some(FixKey(k.digest)))
    && (step.boardTask != "" ==> AppliedIn(db, k) && db.outbox[k].boardTask == step.boardTask)
  }

  /** Fix task, review task and (when there is an endpoint) return edge are all
      recorded as applied. */
  predicate GraphDone(db: Db, s: Source, endpoint: string) {
    && AppliedIn(db, FixKey(DigestOf(s)))
    && AppliedIn(db, ReviewKey(DigestOf(s)))
    && (endpoint != "" ==> AppliedIn(db, SubscribeKey(DigestOf(s), endpoint)))
  }

  const REFUSAL_FIELD := "semantic_refusal"

  ghost predicate InstanceOk(db: Db, s: Source, i: Instance) {
    && CleanSource(s)
    && (i.kind == CodeFix ==>
         && i.state in {Detected, Materializing, WaitingReview, FailedRetryable}
         && (i.state == WaitingReview ==> GraphDone(db, s, i.endpoint)))
    && (i.kind == SemanticRefusal ==>
         && i.state in {Detected, Materializing, BlockedInvalid}
         && (i.state == BlockedInvalid ==> (s, REFUSAL_FIELD) in db.satisfied))
  }

  ghost predicate InstancesOk(db: Db) {
    forall s :: s in db.instances ==> InstanceOk(db, s, db.instances[s])
  }

  ghost predicate RowsOk(db: Db, tasks: Tasks) {
    forall k :: k in db.outbox ==> RowOk(db, tasks, k, db.outbox[k]) && ChainOk(db, k, db.outbox[k])
  }

  ghost predicate TasksOk(db: Db, tasks: Tasks) {
    DistinctIds(tasks) && forall k :: k in tasks ==> TaskOk(db, k, tasks[k])
  }

  ghost predicate StepsOk(db: Db) {
    forall p :: p in db.steps ==> StepOk(db, p.0, p.1, db.steps[p])
  }

  ghost predicate Inv(db: Db, tasks: Tasks) {
    && LogOk(db)
    && InstancesOk(db)
    && RowsOk(db, tasks)
    && TasksOk(db, tasks)
    && StepsOk(db)
  }

  // ----- how the outbox and the board may grow -----

  predicate SameRow(a: Row, b: Row) {
    && b.src == a.src && b.step == a.step && b.op == a.op && b.payload == a.payload
    && (Mutation(a.op) && a.state == Applied ==> b == a)
  }

  /** Only the outbox, the steps and the board change: rows keep what they are
      for, applied mutations and existing tasks stay as they are. */
  ghost predicate Extends(db: Db, tasks: Tasks, db': Db, tasks': Tasks) {
    && db' == db.(outbox := db'.outbox, steps := db'.steps)
    && (forall k :: k in db.outbox ==> k in db'.outbox && SameRow(db.outbox[k], db'.outbox[k]))
    && (forall k :: k in tasks ==> k in tasks' && tasks'[k] == tasks[k])
    && db.steps.Keys <= db'.steps.Keys
  }

  /** Such a change that opens no steps but code-fix ones. */
  ghost predicate Grows(db: Db, tasks: Tasks, db': Db, tasks': Tasks) {
    && Extends(db, tasks, db', tasks')
    && (forall p :: p in db'.steps && p !in db.steps ==> KindOf(p.1) == CodeFix)
  }

  lemma GrowsTransitive(a: Db, ta: Tasks, b: Db, tb: Tasks, c: Db, tc: Tasks)
    requires Grows(a, ta, b, tb) && Grows(b, tb, c, tc)
    ensures Grows(a, ta, c, tc)
  {
    forall k | k in a.outbox ensures k in c.outbox && SameRow(a.outbox[k], c.outbox[k]) {
      assert SameRow(a.outbox[k], b.outbox[k]) && SameRow(b.outbox[k], c.outbox[k]);
    }
  }

  lemma GraphDoneGrows(db: Db, tasks: Tasks, db': Db, tasks': Tasks, s: Source, endpoint: string)
    requires Extends(db, tasks, db', tasks') && GraphDone(db, s, endpoint)
    requires forall k :: k in db.outbox ==> db.outbox[k].op == OpOf(k)
    ensures GraphDone(db', s, endpoint)
  {
    var d := DigestOf(s);
    assert SameRow(db.outbox[FixKey(d)], db'.outbox[FixKey(d)]);
    assert SameRow(db.outbox[ReviewKey(d)], db'.outbox[ReviewKey(d)]);
    if endpoint != "" {
      assert SameRow(db.outbox[SubscribeKey(d, endpoint)], db'.outbox[SubscribeKey(d, endpoint)]);
    }
  }

  lemma GrowsReflexive(db: Db, tasks: Tasks)
    ensures Grows(db, tasks, db, tasks)
  {}

  lemma InvRow(db: Db, tasks: Tasks, k: Key)
    requires Inv(db, tasks) && k in db.outbox
    ensures RowOk(db, tasks, k, db.outbox[k]) && ChainOk(db, k, db.outbox[k])
  {}

  predicate IsKind(db: Db, s: Source, kind: Kind) { s in db.instances && db.instances[s].kind == kind }

  /** No row of another source changes or appears. */
  predicate RowsOnly(outbox: map<Key, Row>, outbox': map<Key, Row>, s: Source) {
    forall k :: k in outbox' && outbox'[k].src != s ==> k in outbox && outbox'[k] == outbox[k]
  }

  /** What handling one source may change: its own instance, log, receipts, wait
      and rows; rows, steps and tasks only grow, and the cursor stays. */
  ghost predicate Handles(db: Db, tasks: Tasks, db': Db, tasks': Tasks, s: Source) {
    && db'.instances - {s} == db.instances - {s}
    && (s in db.instances ==>
         && s in db'.instances && db'.instances[s].kind == db.instances[s].kind
         && db'.instances[s].endpoint == db.instances[s].endpoint)
    && db'.events - {s} == db.events - {s}
    && db'.receipts - {s} == db.receipts - {s}
    && (forall t :: t in db'.waits ==> t in db.waits || (t == s && IsKind(db', s, ExternalWait)))
    && db.satisfied <= db'.satisfied
    && db'.cursor == db.cursor
    && (forall k :: k in db.outbox ==> k in db'.outbox && SameRow(db.outbox[k], db'.outbox[k]))
    && RowsOnly(db.outbox, db'.outbox, s)
    && (forall k :: k in tasks ==> k in tasks' && tasks'[k] == tasks[k])
    && db.steps.Keys <= db'.steps.Keys
    && (forall p :: p in db'.steps && p !in db.steps ==> p.0 == s || KindOf(p.1) == CodeFix)
  }

  /** Every table knows this source only as what the event says it is. */
  predicate Knows(db: Db, e: Event) {
    e.src in db.instances ==> db.instances[e.src].kind == e.kind && db.instances[e.src].endpoint == e.endpoint
  }

  lemma HandlesTransitive(a: Db, ta: Tasks, b: Db, tb: Tasks, c: Db, tc: Tasks, s: Source)
    requires Handles(a, ta, b, tb, s) && Handles(b, tb, c, tc, s)
    ensures Handles(a, ta, c, tc, s)
  {
    forall k | k in a.outbox ensures k in c.outbox && SameRow(a.outbox[k], c.outbox[k]) {
      assert SameRow(a.outbox[k], b.outbox[k]) && SameRow(b.outbox[k], c.outbox[k]);
    }
  }

  lemma GrowsHandles(db: Db, tasks: Tasks, db': Db, tasks': Tasks, s: Source)
    requires Grows(db, tasks, db', tasks') && RowsOnly(db.outbox, db'.outbox, s)
    ensures Handles(db, tasks, db', tasks', s)
  {}

  lemma NoRows(outbox: map<Key, Row>, s: Source)
    ensures RowsOnly(outbox, outbox, s)
  {}

  lemma RowsOnlyTransitive(a: map<Key, Row>, b: map<Key, Row>, c: map<Key, Row>, s: Source)
    requires RowsOnly(a, b, s) && RowsOnly(b, c, s)
    ensures RowsOnly(a, c, s)
  {}

  lemma HandlesKnows(db: Db, tasks: Tasks, db': Db, tasks': Tasks, e: Event)
    requires Handles(db, tasks, db', tasks', e.src) && Knows(db, e) && e.src in db.instances
    ensures Knows(db', e) && e.src in db'.instances
  {}

  lemma CreateHandles(db: Db, tasks: Tasks, e: Event)
    ensures Handles(db, tasks, CreateDb(db, e), tasks, e.src)
  {}

  lemma TransitionHandles(db: Db, tasks: Tasks, s: Source, to: State, reason: string)
    ensures Handles(db, tasks, TransitionDb(db, s, to, reason), tasks, s)
  {}

  lemma InvLog(db: Db, tasks: Tasks)
    requires Inv(db, tasks)
    ensures LogOk(db)
  {}

  lemma InvLogged(db: Db, tasks: Tasks, s: Source)
    requires Inv(db, tasks) && s in db.instances
    ensures s in db.events
  {}

  lemma InvStep(db: Db, tasks: Tasks, s: Source, k: Key)
    requires Inv(db, tasks) && (s, k) in db.steps
    ensures StepOk(db, s, k, db.steps[(s, k)])
  {}

  lemma InvInstance(db: Db, tasks: Tasks, s: Source)
    requires Inv(db, tasks) && s in db.instances
    ensures InstanceOk(db, s, db.instances[s])
  {}

  lemma CleanInstance(db: Db, tasks: Tasks, s: Source)
    requires Inv(db, tasks) && s in db.instances
    ensures CleanSource(s)
  {
    hide GraphDone;
    InvInstance(db, tasks, s);
  }

  // ----- single effects -----

  lemma GrowInstances(db: Db, tasks: Tasks, db': Db, tasks': Tasks)
    requires InstancesOk(db) && RowsOk(db, tasks) && Extends(db, tasks, db', tasks')
    ensures InstancesOk(db')
  {
    forall s | s in db'.instances ensures InstanceOk(db', s, db'.instances[s]) {
      assert InstanceOk(db, s, db.instances[s]);
      if GraphDone(db, s, db.instances[s].endpoint) {
        GraphDoneGrows(db, tasks, db', tasks', s, db.instances[s].endpoint);
      }
    }
  }

  lemma GrowRow(db: Db, tasks: Tasks, db': Db, tasks': Tasks, k: Key)
    requires RowsOk(db, tasks) && Extends(db, tasks, db', tasks') && k in db.outbox
    ensures RowOk(db', tasks', k, db.outbox[k]) && ChainOk(db', k, db.outbox[k])
  {
    assert RowOk(db, tasks, k, db.outbox[k]) && ChainOk(db, k, db.outbox[k]);
    match k {
      case ReviewKey(d) =>
        assert RowOk(db, tasks, FixKey(d), db.outbox[FixKey(d)]);
        assert SameRow(db.outbox[FixKey(d)], db'.outbox[FixKey(d)]);
      case SubscribeKey(d, _) =>
        assert RowOk(db, tasks, ReviewKey(d), db.outbox[ReviewKey(d)]);
        assert SameRow(db.outbox[ReviewKey(d)], db'.outbox[ReviewKey(d)]);
      case _ =>
    }
  }

  lemma GrowTask(db: Db, tasks: Tasks, db': Db, tasks': Tasks, k: Key)
    requires TasksOk(db, tasks) && Extends(db, tasks, db', tasks') && k in tasks
    ensures TaskOk(db', k, tasks[k])
  {
    assert TaskOk(db, k, tasks[k]) && SameRow(db.outbox[k], db'.outbox[k]);
  }

  lemma GrowStep(db: Db, tasks: Tasks, db': Db, tasks': Tasks, s: Source, k: Key)
    requires StepsOk(db) && RowsOk(db, tasks) && Extends(db, tasks, db', tasks') && (s, k) in db.steps
    ensures StepOk(db', s, k, db.steps[(s, k)])
  {
    assert StepOk(db, s, k, db.steps[(s, k)]);
    if db.steps[(s, k)].boardTask != "" {
      assert RowOk(db, tasks, k, db.outbox[k]) && SameRow(db.outbox[k], db'.outbox[k]);
    }
  }

  lemma GrowRows(db: Db, tasks: Tasks, db': Db, tasks': Tasks, k: Key)
    requires RowsOk(db, tasks) && Extends(db, tasks, db', tasks')
    requires db'.outbox - {k} == db.outbox - {k}
    requires k in db'.outbox ==> RowOk(db', tasks', k, db'.outbox[k]) && ChainOk(db', k, db'.outbox[k])
    ensures RowsOk(db', tasks')
  {
    hide RowOk, ChainOk, Extends;
    forall l | l in db'.outbox
      ensures RowOk(db', tasks', l, db'.outbox[l]) && ChainOk(db', l, db'.outbox[l])
    {
      if l != k {
        assert l in db'.outbox - {k} && (db'.outbox - {k})[l] == db'.outbox[l];
        GrowRow(db, tasks, db', tasks', l);
      }
    }
  }

  lemma GrowTasks(db: Db, tasks: Tasks, db': Db, tasks': Tasks, k: Key)
    requires TasksOk(db, tasks) && Extends(db, tasks, db', tasks')
    requires tasks' != tasks ==> DistinctIds(tasks')
    requires tasks' - {k} == tasks - {k}
    requires k in tasks' ==> TaskOk(db', k, tasks'[k])
    ensures TasksOk(db', tasks')
  {
    hide TaskOk, Extends, DistinctIds;
    forall l | l in tasks' ensures TaskOk(db', l, tasks'[l]) {
      if l != k {
        assert l in tasks' - {k} && (tasks' - {k})[l] == tasks'[l];
        GrowTask(db, tasks, db', tasks', l);
      }
    }
  }

  lemma GrowSteps(db: Db, tasks: Tasks, db': Db, tasks': Tasks, p: (Source, Key))
    requires StepsOk(db) && RowsOk(db, tasks) && Extends(db, tasks, db', tasks')
    requires db'.steps - {p} == db.steps - {p}
    requires p in db'.steps ==> StepOk(db', p.0, p.1, db'.steps[p])
    ensures StepsOk(db')
  {
    hide StepOk, RowsOk, Extends;
    forall q | q in db'.steps ensures StepOk(db', q.0, q.1, db'.steps[q]) {
      if q != p {
        assert q in db'.steps - {p} && (db'.steps - {p})[q] == db'.steps[q];
        GrowStep(db, tasks, db', tasks', q.0, q.1);
      }
    }
  }

  lemma ExtendsLog(db: Db, tasks: Tasks, db': Db, tasks': Tasks)
    requires LogOk(db) && Extends(db, tasks, db', tasks')
    ensures LogOk(db')
  {}

  /** Growth that touches only key `k`'s row and task and step `p` keeps the
      invariant when these three do. */
  lemma GrowKeeps(db: Db, tasks: Tasks, db': Db, tasks': Tasks, k: Key, p: (Source, Key))
    requires Inv(db, tasks) && Extends(db, tasks, db', tasks')
    requires tasks' != tasks ==> DistinctIds(tasks')
    requires db'.outbox - {k} == db.outbox - {k} && tasks' - {k} == tasks - {k}
    requires db'.steps - {p} == db.steps - {p}
    requires k in db'.outbox ==> RowOk(db', tasks', k, db'.outbox[k]) && ChainOk(db', k, db'.outbox[k])
    requires k in tasks' ==> TaskOk(db', k, tasks'[k])
    requires p in db'.steps ==> StepOk(db', p.0, p.1, db'.steps[p])
    ensures Inv(db', tasks')
  {
    hide LogOk, InstancesOk, RowsOk, TasksOk, StepsOk, Extends, RowOk, ChainOk, TaskOk, StepOk, DistinctIds;
    ExtendsLog(db, tasks, db', tasks');
    GrowInstances(db, tasks, db', tasks');
    GrowRows(db, tasks, db', tasks', k);
    GrowTasks(db, tasks, db', tasks', k);
    GrowSteps(db, tasks, db', tasks', p);
  }

  lemma GrowSame(db: Db, tasks: Tasks, db': Db, tasks': Tasks, k: Key, p: (Source, Key))
    requires Inv(db, tasks) && Extends(db, tasks, db', tasks')
    ensures k in db.outbox ==> RowOk(db', tasks', k, db.outbox[k]) && ChainOk(db', k, db.outbox[k])
    ensures k in tasks ==> TaskOk(db', k, tasks[k])
    ensures p in db.steps ==> StepOk(db', p.0, p.1, db.steps[p])
  {
    if k in db.outbox { GrowRow(db, tasks, db', tasks', k); }
    if k in tasks { GrowTask(db, tasks, db', tasks', k); }
    if p in db.steps { GrowStep(db, tasks, db', tasks', p.0, p.1); }
  }

  lemma EnqueueKeeps(db: Db, tasks: Tasks, k: Key, row: Row)
    requires Inv(db, tasks)
    requires k in db.outbox || (row.state == Pending && RowOk(db, tasks, k, row) && ChainOk(db, k, row))
    ensures var db' := EnqueueDb(db, k, row);
      Inv(db', tasks) && Grows(db, tasks, db', tasks)
  {
    hide Inv;
    if k !in db.outbox {
      var db' := EnqueueDb(db, k, row);
      assert Grows(db, tasks, db', tasks);
      GrowSame(db, tasks, db', tasks, k, (row.src, k));
      assert ChainOk(db', k, row);
      GrowKeeps(db, tasks, db', tasks, k, (row.src, k));
    }
  }

  /** A create reaches the board: the key's row was there first. */
  lemma BoardKeeps(db: Db, tasks: Tasks, k: Key, task: Task)
    requires Inv(db, tasks) && k !in tasks && DistinctIds(tasks[k := task])
    requires k in db.outbox && db.outbox[k].op == CreateTask && task.parent == db.outbox[k].payload.parent
    ensures Inv(db, tasks[k := task]) && Grows(db, tasks, db, tasks[k := task])
  {
    hide Inv;
    var p := (db.outbox[k].src, k);
    GrowSame(db, tasks, db, tasks[k := task], k, p);
    GrowKeeps(db, tasks, db, tasks[k := task], k, p);
  }

  /** Marking an attempt on a row that is not an applied mutation. */
  lemma MarkKeeps(db: Db, tasks: Tasks, k: Key, state: RowState, task: string, nextAt: real, error: string)
    requires Inv(db, tasks) && k in db.outbox
    requires Mutation(db.outbox[k].op) ==> db.outbox[k].state != Applied && state != Deadletter
    requires db.outbox[k].op == CreateTask && state == Applied ==> k in tasks && task == tasks[k].id != ""
    requires db.outbox[k].op == RecordAck ==> C.AckCapped(Marked(db.outbox[k], state, task, nextAt, error))
    ensures var db' := MarkDb(db, k, state, task, nextAt, error);
      Inv(db', tasks) && Grows(db, tasks, db', tasks)
  {
    hide Inv;
    InvRow(db, tasks, k);
    var row := db.outbox[k];
    var row' := Marked(row, state, task, nextAt, error);
    var db' := MarkDb(db, k, state, task, nextAt, error);
    assert SameRow(row, row') && Grows(db, tasks, db', tasks);
    GrowSame(db, tasks, db', tasks, k, (row.src, k));
    assert row'.payload == row.payload && row'.op == row.op;
    assert ChainOk(db', k, row');
    assert RowOk(db', tasks, k, row') && ChainOk(db', k, row');
    GrowKeeps(db, tasks, db', tasks, k, (row.src, k));
  }

  lemma AddStepKeeps(db: Db, tasks: Tasks, s: Source, k: Key, parent: Option<Key>)
    requires Inv(db, tasks)
    requires s in db.instances && k.digest == DigestOf(s) && KindOf(k) == db.instances[s].kind
    requires OpOf(k) == CreateTask && (k.ReviewKey? ==> parent == Some(FixKey(k.digest)))
    ensures var db' := AddStepDb(db, s, k, parent);
      Inv(db', tasks) && Handles(db, tasks, db', tasks, s) && (KindOf(k) == CodeFix ==> Grows(db, tasks, db', tasks))
  {
    hide Inv;
    if (s, k) !in db.steps {
      var db' := AddStepDb(db, s, k, parent);
      assert Extends(db, tasks, db', tasks);
      GrowSame(db, tasks, db', tasks, k, (s, k));
      GrowKeeps(db, tasks, db', tasks, k, (s, k));
    }
  }

  lemma MarkStepKeeps(db: Db, tasks: Tasks, s: Source, k: Key, task: string)
    requires Inv(db, tasks)
    requires task != "" ==> AppliedIn(db, k) && db.outbox[k].boardTask == task
    ensures var db' := MarkStepDb(db, s, k, task);
      Inv(db', tasks) && Grows(db, tasks, db', tasks)
  {
    hide Inv;
    if (s, k) in db.steps {
      var db' := MarkStepDb(db, s, k, task);
      assert Grows(db, tasks, db', tasks);
      GrowSame(db, tasks, db', tasks, k, (s, k));
      GrowKeeps(db, tasks, db', tasks, k, (s, k));
    }
  }

  /** A write to one instance that leaves outbox and steps alone and keeps every
      instance's kind. */
  ghost predicate TouchesOnly(db: Db, db': Db, s: Source) {
    && db'.outbox == db.outbox && db'.steps == db.steps && db.satisfied <= db'.satisfied
    && db'.instances - {s} == db.instances - {s}
    && (s in db.instances ==> s in db'.instances && db'.instances[s].kind == db.instances[s].kind)
  }

  lemma TouchedKinds(db: Db, db': Db, s: Source, t: Source)
    requires TouchesOnly(db, db', s)
    ensures t in db.instances ==> t in db'.instances && db'.instances[t].kind == db.instances[t].kind
    ensures t != s && t in db'.instances ==> t in db.instances && db'.instances[t] == db.instances[t]
  {
    if t != s && t in db.instances { assert t in db.instances - {s} && (db.instances - {s})[t] == (db'.instances - {s})[t]; }
    if t != s && t in db'.instances { assert t in db'.instances - {s} && t in db.instances - {s}; }
  }

  lemma TouchedInstances(db: Db, db': Db, s: Source)
    requires InstancesOk(db) && TouchesOnly(db, db', s)
    requires s in db'.instances ==> InstanceOk(db', s, db'.instances[s])
    ensures InstancesOk(db')
  {
    forall t | t in db'.instances ensures InstanceOk(db', t, db'.instances[t]) {
      if t != s {
        TouchedKinds(db, db', s, t);
        assert InstanceOk(db, t, db.instances[t]);
      }
    }
  }

  lemma TouchedRow(db: Db, tasks: Tasks, db': Db, s: Source, k: Key, row: Row)
    requires TouchesOnly(db, db', s) && RowOk(db, tasks, k, row) && ChainOk(db, k, row)
    ensures RowOk(db', tasks, k, row) && ChainOk(db', k, row)
  {
    TouchedKinds(db, db', s, row.src);
  }

  lemma TouchedStep(db: Db, db': Db, s: Source, t: Source, k: Key, step: Step)
    requires TouchesOnly(db, db', s) && StepOk(db, t, k, step)
    ensures StepOk(db', t, k, step)
  {
    TouchedKinds(db, db', s, t);
  }

  /** Such a write only has to account for the instance it touches. */
  lemma LedgerWriteKeeps(db: Db, tasks: Tasks, db': Db, s: Source)
    requires Inv(db, tasks) && LogOk(db') && TouchesOnly(db, db', s)
    requires s in db'.instances ==> InstanceOk(db', s, db'.instances[s])
    ensures Inv(db', tasks)
  {
    hide LogOk, InstanceOk, RowOk, ChainOk, StepOk, DistinctIds;
    TouchedInstances(db, db', s);
    assert db'.outbox == db.outbox && db'.steps == db.steps;
    forall k | k in db'.outbox ensures RowOk(db', tasks, k, db'.outbox[k]) && ChainOk(db', k, db'.outbox[k]) {
      TouchedRow(db, tasks, db', s, k, db.outbox[k]);
    }
    forall k | k in tasks ensures TaskOk(db', k, tasks[k]) {
      assert TaskOk(db, k, tasks[k]);
    }
    forall p | p in db'.steps ensures StepOk(db', p.0, p.1, db'.steps[p]) {
      TouchedStep(db, db', s, p.0, p.1, db.steps[p]);
    }
  }

  lemma CreateKeeps(db: Db, tasks: Tasks, e: Event)
    requires Inv(db, tasks) && CleanSource(e.src)
    ensures Inv(CreateDb(db, e), tasks)
  {
    hide Inv, LogOk;
    if e.src !in db.instances {
      InvLog(db, tasks);
      var db' := CreateDb(db, e);
      CreateKeepsLog(db, e);
      assert InstanceOk(db', e.src, db'.instances[e.src]);
      LedgerWriteKeeps(db, tasks, db', e.src);
    }
  }

  /** When a transition may be made: into WaitingReview only with the graph
      done, into BlockedInvalid only with the refusal acknowledged. */
  predicate TransitionOk(db: Db, s: Source, to: State) {
    s in db.instances ==>
      && (db.instances[s].kind == CodeFix ==>
           && to in {Materializing, WaitingReview, FailedRetryable}
           && (to == WaitingReview ==> GraphDone(db, s, db.instances[s].endpoint)))
      && (db.instances[s].kind == SemanticRefusal ==>
           && to in {Materializing, BlockedInvalid}
           && (to == BlockedInvalid ==> (s, REFUSAL_FIELD) in db.satisfied))
  }

  lemma TransitionKeeps(db: Db, tasks: Tasks, s: Source, to: State, reason: string)
    requires Inv(db, tasks) && TransitionOk(db, s, to)
    ensures Inv(TransitionDb(db, s, to, reason), tasks)
  {
    hide Inv, LogOk;
    InvLog(db, tasks);
    if s in db.instances && s in db.events && Legal(db.instances[s].state, to) {
      var db' := TransitionDb(db, s, to, reason);
      TransitionKeepsLog(db, s, to, reason);
      InvInstance(db, tasks, s);
      assert GraphDone(db', s, db.instances[s].endpoint) == GraphDone(db, s, db.instances[s].endpoint);
      assert InstanceOk(db', s, db'.instances[s]);
      LedgerWriteKeeps(db, tasks, db', s);
    }
  }

  lemma GrowsFacts(db: Db, tasks: Tasks, db': Db, tasks': Tasks)
    requires Grows(db, tasks, db', tasks')
    ensures db'.instances == db.instances && db'.cursor == db.cursor && db'.satisfied == db.satisfied
    ensures db'.events == db.events && db'.receipts == db.receipts && db'.waits == db.waits
  {}

  lemma GrowsShape(db: Db, tasks: Tasks, db': Db, tasks': Tasks)
    requires Grows(db, tasks, db', tasks')
    ensures db' == db.(outbox := db'.outbox, steps := db'.steps)
  {}

  lemma StepStays(db: Db, tasks: Tasks, db': Db, tasks': Tasks, s: Source, k: Key)
    requires Grows(db, tasks, db', tasks') && (s, k) in db.steps
    ensures (s, k) in db'.steps
  {}

  lemma AppliedStays(db: Db, tasks: Tasks, db': Db, tasks': Tasks, k: Key)
    requires Inv(db, tasks) && Grows(db, tasks, db', tasks') && AppliedIn(db, k) && Mutation(OpOf(k))
    ensures AppliedIn(db', k) && db'.outbox[k] == db.outbox[k]
  {
    InvRow(db, tasks, k);
    assert SameRow(db.outbox[k], db'.outbox[k]);
  }

  /** A row under a clean source's digest is that source's row. */
  lemma RowSource(db: Db, tasks: Tasks, s: Source, k: Key)
    requires Inv(db, tasks) && s in db.instances && k.digest == DigestOf(s)
    ensures k in db.outbox ==> db.outbox[k].src == s
  {
    if k in db.outbox {
      InvRow(db, tasks, k);
      InvInstance(db, tasks, s);
      InstanceKeyInjective(s, db.outbox[k].src);
    }
  }

  /** So a change under one such key is a change of that source's rows. */
  lemma RowsOfOne(db: Db, db': Db, tasks': Tasks, s: Source, k: Key)
    requires Inv(db', tasks') && s in db'.instances && k.digest == DigestOf(s)
    requires OthersSame(db.outbox, db'.outbox, k)
    ensures RowsOnly(db.outbox, db'.outbox, s)
  {
    RowSource(db', tasks', s, k);
    hide Inv;
  }

  ghost predicate OthersSame(outbox: map<Key, Row>, outbox': map<Key, Row>, key: Key) {
    forall k :: k in outbox' && k != key ==> k in outbox && outbox'[k] == outbox[k]
  }

  /** A second enqueue under a key asks for what its row already says. */
  lemma EnqueueMatches(db: Db, tasks: Tasks, k: Key, row: Row)
    requires Inv(db, tasks) && k in db.outbox && RowOk(db, tasks, k, row) && ChainOk(db, k, row)
    ensures db.outbox[k].src == row.src && db.outbox[k].op == row.op
    ensures row.op == CreateTask ==> db.outbox[k].payload.parent == row.payload.parent
    ensures k.SubscribeKey? ==>
      db.outbox[k].payload.task == row.payload.task && db.outbox[k].payload.endpoint == row.payload.endpoint
  {
    assert RowOk(db, tasks, k, db.outbox[k]) && ChainOk(db, k, db.outbox[k]);
    InstanceKeyInjective(row.src, db.outbox[k].src);
  }

  /** Applied return edges are on the board. */
  predicate EdgesOk(outbox: map<Key, Row>, subs: set<(string, string)>) {
    forall k :: k in outbox && k.SubscribeKey? && outbox[k].state == Applied ==>
      (outbox[k].payload.task, outbox[k].payload.endpoint) in subs
  }

  // ----- what the invariant gives a reader -----

  lemma FixTasksOnly(db: Db, tasks: Tasks, s: Source)
    requires Inv(db, tasks) && IsKind(db, s, CodeFix)
    ensures forall k :: k in tasks && k.digest == DigestOf(s) ==>
      k == FixKey(DigestOf(s)) || k == ReviewKey(DigestOf(s))
  {
    assert InstanceOk(db, s, db.instances[s]);
    forall k | k in tasks && k.digest == DigestOf(s)
      ensures k == FixKey(DigestOf(s)) || k == ReviewKey(DigestOf(s))
    {
      assert TaskOk(db, k, tasks[k]) && RowOk(db, tasks, k, db.outbox[k]);
      InstanceKeyInjective(s, db.outbox[k].src);
    }
  }

  /** Replays and crashes never leave a second fix or review task for one event,
      and two events with clean ids never share a task: whatever tasks exist
      under the two digests are pairwise different. */
  lemma ExactlyOnce(db: Db, tasks: Tasks, s: Source, t: Source)
    requires Inv(db, tasks) && CleanSource(s) && CleanSource(t) && s != t
    ensures DigestOf(s) != DigestOf(t)
    ensures forall k, l :: k in tasks && l in tasks && k.digest == DigestOf(s) && l.digest == DigestOf(t)
              ==> tasks[k].id != tasks[l].id
    ensures IsKind(db, s, CodeFix) ==>
      forall k :: k in tasks && k.digest == DigestOf(s) ==>
        k == FixKey(DigestOf(s)) || k == ReviewKey(DigestOf(s))
  {
    if DigestOf(s) == DigestOf(t) { InstanceKeyInjective(s, t); }
    if IsKind(db, s, CodeFix) { FixTasksOnly(db, tasks, s); }
  }

  /** A finished code-fix graph is on the board: the fix task and, with it as its
      parent, the review task. */
  lemma GraphOnBoard(db: Db, tasks: Tasks, s: Source, endpoint: string)
    requires Inv(db, tasks) && GraphDone(db, s, endpoint)
    ensures var d := DigestOf(s);
      && FixKey(d) in tasks && ReviewKey(d) in tasks
      && tasks[ReviewKey(d)].parent == tasks[FixKey(d)].id
      && tasks[ReviewKey(d)].id != tasks[FixKey(d)].id
    ensures endpoint != "" ==>
      db.outbox[SubscribeKey(DigestOf(s), endpoint)].payload.task == tasks[ReviewKey(DigestOf(s))].id
  {
    var d := DigestOf(s);
    assert RowOk(db, tasks, FixKey(d), db.outbox[FixKey(d)]);
    assert RowOk(db, tasks, ReviewKey(d), db.outbox[ReviewKey(d)]);
    assert ChainOk(db, ReviewKey(d), db.outbox[ReviewKey(d)]);
    assert TaskOk(db, ReviewKey(d), tasks[ReviewKey(d)]);
    if endpoint != "" {
      assert ChainOk(db, SubscribeKey(d, endpoint), db.outbox[SubscribeKey(d, endpoint)]);
    }
  }

  /** A refusal leads to no board task at all. */
  lemma RefusalHasNoTasks(db: Db, tasks: Tasks, s: Source)
    requires Inv(db, tasks) && s in db.instances && db.instances[s].kind == SemanticRefusal
    ensures forall k :: k in tasks ==> k.digest != DigestOf(s)
  {
    forall k | k in tasks ensures k.digest != DigestOf(s) {
      assert TaskOk(db, k, tasks[k]) && RowOk(db, tasks, k, db.outbox[k]);
      if k.digest == DigestOf(s) {
        assert InstanceOk(db, s, db.instances[s]);
        InstanceKeyInjective(s, db.outbox[k].src);
      }
    }
  }
}
