/** The durable continuation ledger (continuation_store.py): its tables, every
    committed write as a function on them, and the class that performs them. */
module Store {
  import opened Domain

  datatype Db = Db(
    instances: map<Source, Instance>,
    events: map<Source, seq<LogEntry>>,
    steps: map<(Source, Key), Step>,
    receipts: map<Source, seq<nat>>,
    satisfied: set<(Source, string)>,
    outbox: map<Key, Row>,
    waits: map<Source, bool>,
    cursor: Option<int>)

  const EmptyDb := Db(map[], map[], map[], map[], {}, map[], map[], None)

  // ----- legal transitions -----

  predicate Terminal(s: State) { s == Resumed || s == BlockedInvalid }

  function Allowed(s: State): set<State> {
    match s
    case Detected => {WaitingOwner, Materializing}
    case WaitingOwner => {InputAccepted}
    case InputAccepted => {Materializing}
    case Materializing => {WaitingReview, Resumable, FailedRetryable}
    case WaitingReview => {Resumable, FailedRetryable}
    case Resumable => {Resumed}
    case FailedRetryable => {Materializing, WaitingReview}
    case Resumed => {}
    case BlockedInvalid => {}
  }

  predicate Legal(cur: State, to: State) {
    if Terminal(cur) then false
    else if to == BlockedInvalid then true
    else to in Allowed(cur)
  }

  // ----- the event log -----

  function MaxSeq(log: seq<LogEntry>): nat {
    if log == [] then 0
    else if log[0].seqNo > MaxSeq(log[1..]) then log[0].seqNo
    else MaxSeq(log[1..])
  }

  function Recorded(log: seq<LogEntry>, what: LogKind): seq<LogEntry> {
    log + [LogEntry(MaxSeq(log) + 1, what)]
  }

  predicate Numbered(log: seq<LogEntry>) {
    forall i :: 0 <= i < |log| ==> log[i].seqNo == i + 1
  }

  /** The state the log's entries lead to, or None when they are not a legal
      chain that starts with the creation in Detected. */
  function LogState(log: seq<LogEntry>): Option<State> {
    if log == [] then None
    else
      var init, last := log[..|log| - 1], log[|log| - 1].what;
      match last
      case Created => if init == [] then Some(Detected) else None
      case OwnerReceipt(_) => LogState(init)
      case Transition(from, to, _) =>
        if LogState(init) == Some(from) && Legal(from, to) then Some(to) else None
  }

  ghost predicate LogOk(db: Db) {
    && db.events.Keys == db.instances.Keys
    && forall s :: s in db.instances ==>
      Numbered(db.events[s]) && LogState(db.events[s]) == Some(db.instances[s].state)
  }

  lemma {:induction false} MaxSeqNumbered(log: seq<LogEntry>, base: nat)
    requires forall i :: 0 <= i < |log| ==> log[i].seqNo == base + i + 1
    ensures MaxSeq(log) == if log == [] then 0 else base + |log|
  {
    if log != [] {
      MaxSeqNumbered(log[1..], base + 1);
    }
  }

  lemma RecordedNumbered(log: seq<LogEntry>, what: LogKind)
    requires Numbered(log)
    ensures Numbered(Recorded(log, what))
    ensures Recorded(log, what)[..|log|] == log
  {
    MaxSeqNumbered(log, 0);
  }

  // ----- committed writes -----

  function CreateDb(db: Db, e: Event): Db {
    if e.src in db.instances then db
    else db.(
      instances := db.instances[e.src := Instance(e.kind, Detected, e.endpoint)],
      events := db.events[e.src := Recorded([], Created)])
  }

  function TransitionDb(db: Db, s: Source, to: State, reason: string): Db {
    if s !in db.instances || s !in db.events then db
    else if !Legal(db.instances[s].state, to) then db
    else
      var cur := db.instances[s].state;
      db.(
        instances := db.instances[s := db.instances[s].(state := to)],
        events := db.events[s := Recorded(db.events[s], Transition(cur, to, reason))])
  }

  function Receipts(db: Db, s: Source): seq<nat> {
    if s in db.receipts then db.receipts[s] else []
  }

  function MaxVersion(vs: seq<nat>): nat {
    if vs == [] then 0
    else if vs[0] > MaxVersion(vs[1..]) then vs[0]
    else MaxVersion(vs[1..])
  }

  function ReceiptDb(db: Db, s: Source): Db {
    if s !in db.events then db
    else
      var v := MaxVersion(Receipts(db, s)) + 1;
      db.(
        receipts := db.receipts[s := Receipts(db, s) + [v]],
        events := db.events[s := Recorded(db.events[s], OwnerReceipt(v))])
  }

  function AddStepDb(db: Db, s: Source, key: Key, parent: Option<Key>): Db {
    if (s, key) in db.steps then db
    else db.(steps := db.steps[(s, key) := Step(false, "", parent)])
  }

  function MarkStepDb(db: Db, s: Source, key: Key, task: string): Db {
    if (s, key) !in db.steps then db
    else
      var step := db.steps[(s, key)];
      db.(steps := db.steps[(s, key) :=
        step.(applied := true, boardTask := if task == "" then step.boardTask else task)])
  }

  function FreshRow(s: Source, step: Option<Key>, op: Operation, payload: Payload): Row {
    Row(s, step, op, payload, Pending, "", 0, 0.0, "")
  }

  function EnqueueDb(db: Db, key: Key, row: Row): Db {
    if key in db.outbox then db else db.(outbox := db.outbox[key := row])
  }

  /** One attempt's outcome. Marking a row applied clears its retry schedule and
      its last error; otherwise the new values replace the old ones. */
  function Marked(row: Row, state: RowState, task: string, nextAt: real, error: string): Row {
    row.(
      state := state,
      boardTask := if task == "" then row.boardTask else task,
      attempts := row.attempts + 1,
      nextAt := if state == Applied then 0.0 else nextAt,
      lastError := if state == Applied then "" else error)
  }

  function MarkDb(db: Db, key: Key, state: RowState, task: string, nextAt: real, error: string): Db
    requires key in db.outbox
  {
    db.(outbox := db.outbox[key := Marked(db.outbox[key], state, task, nextAt, error)])
  }

  function AddWaitDb(db: Db, s: Source): Db {
    if s in db.waits then db else db.(waits := db.waits[s := true])
  }

  function SettleWaitDb(db: Db, s: Source): Db {
    if s in db.waits then db.(waits := db.waits[s := false]) else db
  }

  function CursorOf(db: Db): int {
    match db.cursor case None => 0 case Some(c) => c
  }

  function AdvanceDb(db: Db, to: int): Db {
    db.(cursor := Some(if CursorOf(db) > to then CursorOf(db) else to))
  }

  // ----- what every write keeps -----

  lemma CreateKeepsLog(db: Db, e: Event)
    requires LogOk(db)
    ensures LogOk(CreateDb(db, e))
  {
    RecordedNumbered([], Created);
  }

  lemma TransitionKeepsLog(db: Db, s: Source, to: State, reason: string)
    requires LogOk(db)
    ensures LogOk(TransitionDb(db, s, to, reason))
  {
    if s in db.instances {
      RecordedNumbered(db.events[s], Transition(db.instances[s].state, to, reason));
    }
  }

  lemma ReceiptKeepsLog(db: Db, s: Source)
    requires LogOk(db)
    ensures LogOk(ReceiptDb(db, s))
  {
    if s in db.instances {
      RecordedNumbered(db.events[s], OwnerReceipt(MaxVersion(Receipts(db, s)) + 1));
    }
  }

  /** The writes that touch instances or logs, as every handler, receipt and
      poll call issues them. All other writes leave both tables alone. */
  datatype LedgerWrite =
    | WriteCreate(e: Event)
    | WriteTransition(s: Source, to: State, reason: string)
    | WriteReceipt(s: Source)

  function Write(db: Db, w: LedgerWrite): Db {
    match w
    case WriteCreate(e) => CreateDb(db, e)
    case WriteTransition(s, to, reason) => TransitionDb(db, s, to, reason)
    case WriteReceipt(s) => ReceiptDb(db, s)
  }

  function WriteAll(db: Db, ws: seq<LedgerWrite>): Db
    decreases |ws|
  {
    if ws == [] then db else WriteAll(Write(db, ws[0]), ws[1..])
  }

  /** Whatever the interleaving of calls, every log stays numbered 1..n and stays
      a legal chain from Detected to the stored state. */
  lemma {:induction false} EveryRunKeepsLogs(db: Db, ws: seq<LedgerWrite>)
    requires LogOk(db)
    ensures LogOk(WriteAll(db, ws))
    decreases |ws|
  {
    if ws != [] {
      match ws[0] {
        case WriteCreate(e) => CreateKeepsLog(db, e);
        case WriteTransition(s, to, reason) => TransitionKeepsLog(db, s, to, reason);
        case WriteReceipt(s) => ReceiptKeepsLog(db, s);
      }
      EveryRunKeepsLogs(Write(db, ws[0]), ws[1..]);
    }
  }

  /** Once a log has led to Resumed or BlockedInvalid, the state stays there and
      no later entry is a transition. */
  lemma {:induction false} TerminalAbsorbs(log: seq<LogEntry>, i: nat)
    requires i <= |log| && LogState(log).Some?
    requires LogState(log[..i]).Some? && Terminal(LogState(log[..i]).value)
    ensures LogState(log) == LogState(log[..i])
    ensures forall j :: i <= j < |log| ==> log[j].what.OwnerReceipt?
    decreases |log|
  {
    if i == |log| {
      assert log[..i] == log;
    } else {
      var init := log[..|log| - 1];
      assert init[..i] == log[..i];
      assert log[..i] != [];
      TerminalAbsorbs(init, i);
      assert forall j :: i <= j < |init| ==> init[j] == log[j];
    }
  }

  /** A terminal instance keeps its state under every run of writes. */
  lemma {:induction false} TerminalStays(db: Db, ws: seq<LedgerWrite>, s: Source)
    requires s in db.instances && Terminal(db.instances[s].state)
    ensures s in WriteAll(db, ws).instances
    ensures WriteAll(db, ws).instances[s] == db.instances[s]
    decreases |ws|
  {
    if ws != [] {
      TerminalStays(Write(db, ws[0]), ws[1..], s);
    }
  }

  // ----- the store -----

  class ContinuationStore {
    var instances: map<Source, Instance>
    var events: map<Source, seq<LogEntry>>
    var steps: map<(Source, Key), Step>
    var receipts: map<Source, seq<nat>>
    var satisfied: set<(Source, string)>
    var outbox: map<Key, Row>
    var waits: map<Source, bool>
    var cursor: Option<int>
    var now: real
    /** How often the process has died so far. */
    ghost var crashes: nat

    ghost function View(): Db
      reads this
    {
      Db(instances, events, steps, receipts, satisfied, outbox, waits, cursor)
    }

    constructor ()
      ensures View() == EmptyDb && now == 0.0 && crashes == 0
    {
      instances, events, steps, receipts := map[], map[], map[], map[];
      satisfied, outbox, waits, cursor := {}, map[], map[], None;
      now := 0.0;
      crashes := 0;
    }

    /** time.time(): never goes back. */
    method Time() returns (t: real)
      modifies this`now
      ensures t == now >= old(now)
    {
      var dt: real :| dt >= 0.0;
      now := now + dt;
      t := now;
    }

    /** The process may die between any two calls; nothing stored is lost. */
    method Dies() returns (dead: bool)
      modifies this`crashes
      ensures crashes == old(crashes) + (if dead then 1 else 0)
    {
      dead := *;
      if dead { crashes := crashes + 1; }
    }

    method CreateInstance(e: Event) returns (r: Outcome<(bool, Instance)>)
      modifies this
      ensures now == old(now) && crashes == old(crashes) + r.Toll()
      ensures r.Crashed? ==> View() == old(View())
      ensures r.Done? ==> View() == CreateDb(old(View()), e)
      ensures r.Done? ==> r.value.0 == (e.src !in old(instances))
      ensures r.Done? ==> r.value.1 == View().instances[e.src]
    {
      var dead := Dies();
      if dead { return Crashed; }
      if e.src in instances { return Done((false, instances[e.src])); }
      instances := instances[e.src := Instance(e.kind, Detected, e.endpoint)];
      events := events[e.src := Recorded([], Created)];
      return Done((true, instances[e.src]));
    }

    method Transition(s: Source, to: State, reason: string) returns (r: Outcome<bool>)
      modifies this
      ensures now == old(now) && crashes == old(crashes) + r.Toll()
      ensures r.Crashed? ==> View() == old(View())
      ensures r.Done? ==> View() == TransitionDb(old(View()), s, to, reason)
      ensures r.Done? ==> (r.value <==> s in old(instances) && s in old(events) && Legal(old(instances)[s].state, to))
    {
      var dead := Dies();
      if dead { return Crashed; }
      if s !in instances || s !in events { return Done(false); }
      var cur := instances[s].state;
      if Terminal(cur) { return Done(false); }
      if !Legal(cur, to) { return Done(false); }
      instances := instances[s := instances[s].(state := to)];
      events := events[s := Recorded(events[s], LogKind.Transition(cur, to, reason))];
      return Done(true);
    }

    method AddStep(s: Source, key: Key, parent: Option<Key>) returns (r: Outcome<(bool, Step)>)
      modifies this
      ensures now == old(now) && crashes == old(crashes) + r.Toll()
      ensures r.Crashed? ==> View() == old(View())
      ensures r.Done? ==> View() == AddStepDb(old(View()), s, key, parent)
      ensures r.Done? ==> r.value == ((s, key) !in old(steps), View().steps[(s, key)])
    {
      var dead := Dies();
      if dead { return Crashed; }
      if (s, key) in steps { return Done((false, steps[(s, key)])); }
      steps := steps[(s, key) := Step(false, "", parent)];
      return Done((true, steps[(s, key)]));
    }

    method MarkStep(s: Source, key: Key, task: string) returns (r: Outcome<()>)
      modifies this
      ensures now == old(now) && crashes == old(crashes) + r.Toll()
      ensures r.Crashed? ==> View() == old(View())
      ensures r.Done? ==> View() == MarkStepDb(old(View()), s, key, task)
    {
      var dead := Dies();
      if dead { return Crashed; }
      if (s, key) in steps {
        var step := steps[(s, key)];
        steps := steps[(s, key) :=
          step.(applied := true, boardTask := if task == "" then step.boardTask else task)];
      }
      return Done(());
    }

    method AddOwnerReceipt(s: Source) returns (r: Outcome<nat>)
      requires s in instances && s in events
      modifies this
      ensures now == old(now) && crashes == old(crashes) + r.Toll()
      ensures r.Crashed? ==> View() == old(View())
      ensures r.Done? ==> View() == ReceiptDb(old(View()), s)
      ensures r.Done? ==> r.value == MaxVersion(Receipts(old(View()), s)) + 1
    {
      var dead := Dies();
      if dead { return Crashed; }
      var prior := if s in receipts then receipts[s] else [];
      var v := MaxVersion(prior) + 1;
      receipts := receipts[s := prior + [v]];
      events := events[s := Recorded(events[s], LogKind.OwnerReceipt(v))];
      return Done(v);
    }

    method RecordSatisfaction(s: Source, field: string) returns (r: Outcome<()>)
      modifies this
      ensures now == old(now) && crashes == old(crashes) + r.Toll()
      ensures r.Crashed? ==> View() == old(View())
      ensures r.Done? ==> View() == old(View()).(satisfied := old(satisfied) + {(s, field)})
    {
      var dead := Dies();
      if dead { return Crashed; }
      satisfied := satisfied + {(s, field)};
      return Done(());
    }

    method AddWait(s: Source) returns (r: Outcome<()>)
      modifies this
      ensures now == old(now) && crashes == old(crashes) + r.Toll()
      ensures r.Crashed? ==> View() == old(View())
      ensures r.Done? ==> View() == AddWaitDb(old(View()), s)
    {
      var dead := Dies();
      if dead { return Crashed; }
      if s !in waits { waits := waits[s := true]; }
      return Done(());
    }

    /** A pending wait condition is met or has failed for good. */
    method SettleWait(s: Source) returns (r: Outcome<()>)
      modifies this
      ensures now == old(now) && crashes == old(crashes) + r.Toll()
      ensures r.Crashed? ==> View() == old(View())
      ensures r.Done? ==> View() == SettleWaitDb(old(View()), s)
    {
      var dead := Dies();
      if dead { return Crashed; }
      if s in waits { waits := waits[s := false]; }
      return Done(());
    }

    method Enqueue(key: Key, s: Source, step: Option<Key>, op: Operation, payload: Payload)
      returns (r: Outcome<Row>)
      modifies this
      ensures now == old(now) && crashes == old(crashes) + r.Toll()
      ensures r.Crashed? ==> View() == old(View())
      ensures r.Done? ==> View() == EnqueueDb(old(View()), key, FreshRow(s, step, op, payload))
      ensures r.Done? ==> r.value == View().outbox[key]
    {
      var dead := Dies();
      if dead { return Crashed; }
      if key !in outbox {
        outbox := outbox[key := FreshRow(s, step, op, payload)];
      }
      return Done(outbox[key]);
    }

    method Mark(key: Key, state: RowState, task: string, nextAt: real, error: string)
      returns (r: Outcome<()>)
      requires key in outbox
      modifies this
      ensures now == old(now) && crashes == old(crashes) + r.Toll()
      ensures r.Crashed? ==> View() == old(View())
      ensures r.Done? ==> View() == MarkDb(old(View()), key, state, task, nextAt, error)
    {
      var dead := Dies();
      if dead { return Crashed; }
      outbox := outbox[key := Marked(outbox[key], state, task, nextAt, error)];
      return Done(());
    }

    method AdvanceCursor(to: int) returns (r: Outcome<()>)
      modifies this
      ensures now == old(now) && crashes == old(crashes) + r.Toll()
      ensures r.Crashed? ==> View() == old(View())
      ensures r.Done? ==> View() == AdvanceDb(old(View()), to)
    {
      var dead := Dies();
      if dead { return Crashed; }
      var cur := match cursor case None => 0 case Some(c) => c;
      cursor := Some(if cur > to then cur else to);
      return Done(());
    }
  }
}
