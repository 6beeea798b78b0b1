/** agentflowd over one board (continuation_engine.py, daemon.py): the board
    appends events, the daemon ticks, reconciles, polls and takes owner calls, the
    process may die anywhere, and the cursor still means what it says. */
module Daemon {
  import opened Domain
  import opened Store
  import opened Adapter
  import opened Backoff
  import opened History
  import opened Protocol
  import opened Handlers
  import opened OwnerInputHandler
  import opened Engine
  import opened CodeFixHandler
  import C = Callbacks

  /** The board's events: strictly increasing, each with its own clean source. */
  predicate BoardLog(log: seq<Event>) {
    && (forall i, j :: 0 <= i < j < |log| ==> log[i].seqNo < log[j].seqNo && log[i].src != log[j].src)
    && (forall i :: 0 <= i < |log| ==> CleanSource(log[i].src))
  }

  predicate Matches(e: Event, s: Source, i: Instance) {
    e.src == s && e.kind == i.kind && e.endpoint == i.endpoint
  }

  /** Every instance stems from an event of the board. */
  ghost predicate FromLog(db: Db, log: seq<Event>) {
    forall s :: s in db.instances ==>
      exists i :: 0 <= i < |log| && Matches(log[i], s, db.instances[s])
  }

  /** Which outcomes the engine carries out on the board. */
  datatype Config = Config(apply: bool, handled: set<Kind>)

  predicate Settled(db: Db, config: Config, e: Event) {
    config.apply && e.kind in config.handled ==> Durable(db, e)
  }

  /** Every event above `lo` and at or below `hi` is settled. */
  ghost predicate SettledUpTo(db: Db, config: Config, log: seq<Event>, lo: int, hi: int) {
    forall i :: 0 <= i < |log| && lo < log[i].seqNo <= hi ==> Settled(db, config, log[i])
  }

  lemma KnownFromLog(db: Db, log: seq<Event>, i: nat)
    requires BoardLog(log) && FromLog(db, log) && i < |log|
    ensures Knows(db, log[i])
  {
    if log[i].src in db.instances {
      var j :| 0 <= j < |log| && Matches(log[j], log[i].src, db.instances[log[i].src]);
      assert j == i;
    }
  }

  lemma FromLogKept(db: Db, tasks: Tasks, db': Db, tasks': Tasks, log: seq<Event>, i: nat)
    requires i < |log| && Handles(db, tasks, db', tasks', log[i].src) && FromLog(db, log)
    requires Knows(db', log[i])
    ensures FromLog(db', log)
  {
    var s := log[i].src;
    forall t | t in db'.instances ensures exists j :: 0 <= j < |log| && Matches(log[j], t, db'.instances[t]) {
      if t == s {
        assert Matches(log[i], t, db'.instances[t]);
      } else {
        assert t in db'.instances - {s} && (db'.instances - {s})[t] == (db.instances - {s})[t];
        assert t in db.instances - {s};
      }
    }
  }

  /** Handling one event leaves every other event settled. */
  lemma SettledKept(db: Db, tasks: Tasks, db': Db, tasks': Tasks, config: Config, log: seq<Event>,
                    lo: int, hi: int, i: nat)
    requires BoardLog(log) && i < |log| && log[i].seqNo > hi
    requires Handles(db, tasks, db', tasks', log[i].src) && SettledUpTo(db, config, log, lo, hi)
    ensures SettledUpTo(db', config, log, lo, hi)
  {
    hide Handles, Durable;
    forall j | 0 <= j < |log| && lo < log[j].seqNo <= hi ensures Settled(db', config, log[j]) {
      assert Settled(db, config, log[j]);
      if Durable(db, log[j]) {
        DurableStays(db, tasks, db', tasks', log[i].src, log[j]);
      }
    }
  }

  /** One more event settled, the next one in order. */
  lemma SettledStep(db: Db, config: Config, log: seq<Event>, last: int, first: nat, i: nat, reached: int)
    requires BoardLog(log) && first <= i < |log|
    requires forall j :: 0 <= j < first ==> log[j].seqNo <= last
    requires reached == if i == first then last else log[i - 1].seqNo
    requires SettledUpTo(db, config, log, last, reached) && Settled(db, config, log[i])
    ensures SettledUpTo(db, config, log, last, log[i].seqNo)
  {
    hide Settled;
    forall j | 0 <= j < |log| && last < log[j].seqNo <= log[i].seqNo ensures Settled(db, config, log[j]) {
      if j < i {
        assert j >= first;
        assert j < i - 1 ==> log[j].seqNo < log[i - 1].seqNo;
      }
    }
  }

  lemma SettledSame(db: Db, db': Db, config: Config, log: seq<Event>, lo: int, hi: int)
    requires SettledUpTo(db, config, log, lo, hi) && db'.instances == db.instances
    ensures SettledUpTo(db', config, log, lo, hi)
  {
    forall i | 0 <= i < |log| && lo < log[i].seqNo <= hi ensures Settled(db', config, log[i]) {
      assert Settled(db, config, log[i]);
    }
  }

  /** The cursor's own row is no part of what the tables agree on. */
  lemma AdvanceKeeps(db: Db, tasks: Tasks, to: int)
    requires Inv(db, tasks) && OwnerOrder(db) && WaitsOk(db)
    ensures var db' := AdvanceDb(db, to);
      Inv(db', tasks) && OwnerOrder(db') && WaitsOk(db') && (ReviewsKept(db) ==> ReviewsKept(db'))
  {
    hide Inv, LogOk, OwnerOk, ReviewKept;
    var db' := AdvanceDb(db, to);
    InvLog(db, tasks);
    LogOnly(db, db');
    var s := Source("", "", "", "");
    if s in db.instances { InvInstance(db, tasks, s); }
    LedgerWriteKeeps(db, tasks, db', s);
    forall t | IsOwner(db', t) ensures OwnerOk(db', t) && ReviewKept(db', t) == ReviewKept(db, t) {
      InvLogged(db, tasks, t);
      assert SameProgress(db, db', t);
      SameProgressKeeps(db, db', t);
    }
  }

  datatype Command =
    | BoardEvent(e: Event)
    | TickNow(limit: nat)
    | ReconcileNow
    | PollNow
    | OwnerSays(s: Source, call: OwnerCall)

  /** The kinds of event that can hold the cursor back. */
  predicate Holds(config: Config, e: Event) {
    e.kind in config.handled && (e.kind == Roadmap || (e.kind == CodeFix && config.apply))
  }

  /** How many events of the log the cursor has passed. */
  function SeenUpTo(log: seq<Event>, cursor: int): (n: nat)
    ensures n <= |log|
  {
    if log != [] && log[0].seqNo <= cursor then 1 + SeenUpTo(log[1..], cursor) else 0
  }

  lemma {:induction false} SeenIs(log: seq<Event>, cursor: int, first: nat)
    requires first <= |log| && (forall j :: 0 <= j < first ==> log[j].seqNo <= cursor)
    requires first < |log| ==> log[first].seqNo > cursor
    ensures SeenUpTo(log, cursor) == first
  {
    if first > 0 { SeenIs(log[1..], cursor, first - 1); }
  }

  /** The batch after the cursor at `from`: its first n events were passed and the
      cursor came to `to`; it stopped short only before an event that can hold it. */
  ghost predicate BatchPassed(config: Config, log: seq<Event>, limit: nat, from: int, to: int, n: nat, stopped: bool) {
    var first := SeenUpTo(log, from);
    && n <= limit && first + n <= |log|
    && to == (if n == 0 then from else log[first + n - 1].seqNo)
    && (!stopped ==> n == limit || first + n == |log|)
    && (stopped ==> n < limit && first + n < |log| && Holds(config, log[first + n]))
  }

  /** No pending row waits for its backoff. */
  predicate NothingBacksOff(outbox: map<Key, Row>, at: real) {
    forall k :: k in outbox && outbox[k].state == Pending ==> outbox[k].nextAt <= at
  }

  /** Nor does a row of any event from `i` on. */
  ghost predicate AheadDue(log: seq<Event>, i: nat, outbox: map<Key, Row>, at: real) {
    forall j :: i <= j < |log| ==> AllDue(outbox, log[j].src, at)
  }

  lemma AheadStarts(log: seq<Event>, i: nat, outbox: map<Key, Row>, at: real)
    ensures NothingBacksOff(outbox, at) ==> AheadDue(log, i, outbox, at)
  {}

  /** Handling one event leaves the rows of later ones as due as they were. */
  lemma AheadStep(log: seq<Event>, i: nat, outbox: map<Key, Row>, at: real, outbox': map<Key, Row>, at': real)
    requires BoardLog(log) && i < |log| && AheadDue(log, i, outbox, at)
    requires RowsOnly(outbox, outbox', log[i].src) && at <= at'
    ensures AllDue(outbox, log[i].src, at) && AheadDue(log, i + 1, outbox', at')
  {}

  class Daemon {
    const store: ContinuationStore
    const adapter: BoardAdapter
    const config: Config
    var log: seq<Event>
    /** The largest event id the board has given out, terminal or not. */
    var boardMax: int
    /** The cursor the board was first seen at. */
    ghost var seed: int

    ghost predicate Ok()
      reads this, store, adapter
    {
      && EngineOk(store, adapter)
      && BoardLog(log) && (forall i :: 0 <= i < |log| ==> log[i].seqNo <= boardMax) && boardMax >= 0
      && FromLog(store.View(), log)
      && CursorOf(store.View()) <= boardMax
      && (store.cursor.Some? ==>
           seed <= store.cursor.value && SettledUpTo(store.View(), config, log, seed, store.cursor.value))
    }

    constructor (config: Config)
      ensures Ok() && this.config == config && log == [] && store.cursor == None
    {
      this.config := config;
      store := new ContinuationStore();
      adapter := new BoardAdapter();
      log, boardMax, seed := [], 0, 0;
    }

    /** The board records one event under a fresh id. */
    method Append(e: Event)
      requires Ok() && e.seqNo > boardMax && CleanSource(e.src)
      requires forall i :: 0 <= i < |log| ==> log[i].src != e.src
      modifies this
      ensures Ok() && log == old(log) + [e] && seed == old(seed)
    {
      assert forall i :: 0 <= i < |log| ==> (log + [e])[i] == log[i];
      ghost var db := store.View();
      forall s | s in db.instances
        ensures exists i :: 0 <= i < |log + [e]| && Matches((log + [e])[i], s, db.instances[s])
      {
        var i :| 0 <= i < |log| && Matches(log[i], s, db.instances[s]);
        assert Matches((log + [e])[i], s, db.instances[s]);
      }
      log, boardMax := log + [e], e.seqNo;
    }

    /** A board without a cursor row is seeded, by default to its latest event, so
        that history is not replayed. */
    method SeedCursor() returns (r: Outcome<()>)
      requires Ok() && store.cursor.None?
      modifies store, this`seed
      ensures Ok() && store.crashes == old(store.crashes) + r.Toll()
      ensures r.Done? ==> store.cursor.Some? && seed == store.cursor.value
      ensures r.Crashed? ==> store.View() == old(store.View())
    {
      hide Inv, ReviewsKept, OwnerOrder, WaitsOk, EdgesOk, HistoryOk;
      ghost var db := store.View();
      var start: int := *;
      if start > boardMax { start := boardMax; }
      AdvanceKeeps(db, adapter.tasks, start);
      r := store.AdvanceCursor(start);
      if r.Done? { seed := store.cursor.value; }
    }

    /** fetch_events_since: where the events after the cursor begin. */
    method FirstAfter(last: int) returns (first: nat)
      ensures first == SeenUpTo(log, last) && forall j :: 0 <= j < first ==> log[j].seqNo <= last
      ensures first < |log| ==> log[first].seqNo > last
    {
      first := 0;
      while first < |log| && log[first].seqNo <= last
        invariant first <= |log| && forall j :: 0 <= j < first ==> log[j].seqNo <= last
      {
        first := first + 1;
      }
      SeenIs(log, last, first);
    }

    /** ingest_board_once on the at most `limit` events after the cursor: in order,
        up to the first one that must be retried. Done((n, stopped)) says how many
        were passed. When the board cooperates, nothing backs off at the start and
        no roadmap step is refused, the whole batch is passed. */
    method Ingest(limit: nat) returns (r: Outcome<(nat, bool)>, ghost refused: bool)
      requires Ok() && store.cursor.Some?
      modifies store, adapter
      ensures Ok() && store.crashes == old(store.crashes) + r.Toll()
      ensures store.cursor.Some? && store.cursor.value >= old(store.cursor).value
      ensures r.Crashed? ==> store.cursor == old(store.cursor)
      ensures r.Done? ==> SettledUpTo(store.View(), config, log, old(store.cursor).value, store.cursor.value)
      ensures r.Done? ==>
        BatchPassed(config, log, limit, old(store.cursor).value, store.cursor.value, r.value.0, r.value.1)
      ensures r.Done? && r.value.1 ==>
        refused || adapter.failures > old(adapter.failures) || !NothingBacksOff(old(store.outbox), old(store.now))
    {
      hide Inv, EngineOk, Holds, ReviewsKept, OwnerOrder, WaitsOk, EdgesOk, HistoryOk, BoardLog, FromLog, SettledUpTo, Settled, Handles, Knows;
      hide NothingBacksOff, AheadDue, AllDue, RowsOnly;
      ghost var db0 := store.View();
      var last := store.cursor.value;
      var first := FirstAfter(last);
      refused := false;
      var end := if first + limit < |log| then first + limit else |log|;
      var reached, i, stopped := last, first, false;
      NothingBetween(db0, config, log, last);
      ghost var eased := NothingBacksOff(store.outbox, store.now);
      AheadStarts(log, first, store.outbox, store.now);
      while i < end && !stopped
        invariant first <= i <= end <= |log|
        invariant EngineOk(store, adapter) && FromLog(store.View(), log)
        invariant store.cursor == old(store.cursor) && store.crashes == old(store.crashes)
        invariant last <= reached <= boardMax
        invariant reached == if i == first then last else log[i - 1].seqNo
        invariant SettledUpTo(store.View(), config, log, seed, last)
        invariant SettledUpTo(store.View(), config, log, last, reached)
        invariant stopped ==> i < end && Holds(config, log[i])
        invariant adapter.failures >= old(adapter.failures)
        invariant eased && !stopped ==> AheadDue(log, i, store.outbox, store.now)
        invariant stopped && eased && !refused ==> adapter.failures > old(adapter.failures)
        decreases end - i, !stopped
      {
        Beyond(log, first, i, last);
        var resolution: Resolution := *;
        var roadmapOk: bool := *;
        refused := refused || !roadmapOk;
        ghost var outbox, now := store.outbox, store.now;
        var ok := Pass(i, last, first, reached, resolution, roadmapOk);
        if eased { AheadStep(log, i, outbox, now, store.outbox, store.now); }
        if ok.Crashed? { return Crashed, refused; }
        if ok.value { reached, i := log[i].seqNo, i + 1; } else { stopped := true; }
      }
      r := MoveCursor(last, reached, i - first, stopped);
    }

    /** The cursor moves to the last event passed. */
    method MoveCursor(last: int, reached: int, n: nat, stopped: bool) returns (r: Outcome<(nat, bool)>)
      requires EngineOk(store, adapter) && BoardLog(log) && FromLog(store.View(), log)
      requires (forall i :: 0 <= i < |log| ==> log[i].seqNo <= boardMax) && boardMax >= 0
      requires store.cursor == Some(last) && seed <= last <= reached <= boardMax
      requires SettledUpTo(store.View(), config, log, seed, last)
      requires SettledUpTo(store.View(), config, log, last, reached)
      modifies store
      ensures Ok() && store.crashes == old(store.crashes) + r.Toll()
      ensures r.Crashed? ==> store.cursor == old(store.cursor)
      ensures r.Done? ==> r.value == (n, stopped) && store.cursor == Some(reached)
      ensures r.Done? ==> SettledUpTo(store.View(), config, log, last, reached)
    {
      hide Inv, ReviewsKept, OwnerOrder, WaitsOk, EdgesOk, HistoryOk, BoardLog, FromLog, SettledUpTo;
      ghost var db := store.View();
      AdvanceKeeps(db, adapter.tasks, reached);
      var moved := store.AdvanceCursor(reached);
      SettledSame(db, store.View(), config, log, seed, last);
      SettledSame(db, store.View(), config, log, last, reached);
      SettledJoin(store.View(), config, log, seed, last, reached);
      FromLogSame(db, store.View(), log);
      r := if moved.Crashed? then Crashed else Done((n, stopped));
    }

    /** One event of the batch. */
    method Pass(i: nat, last: int, ghost first: nat, ghost reached: int, resolution: Resolution, roadmapOk: bool)
      returns (r: Outcome<bool>)
      requires EngineOk(store, adapter) && BoardLog(log) && FromLog(store.View(), log)
      requires first <= i < |log| && forall j :: 0 <= j < first ==> log[j].seqNo <= last
      requires reached == if i == first then last else log[i - 1].seqNo
      requires log[i].seqNo > last
      requires SettledUpTo(store.View(), config, log, seed, last)
      requires SettledUpTo(store.View(), config, log, last, reached)
      modifies store, adapter
      ensures EngineOk(store, adapter) && FromLog(store.View(), log)
      ensures store.cursor == old(store.cursor) && store.crashes == old(store.crashes) + r.Toll()
      ensures SettledUpTo(store.View(), config, log, seed, last)
      ensures SettledUpTo(store.View(), config, log, last, reached)
      ensures r.Done? && r.value ==> SettledUpTo(store.View(), config, log, last, log[i].seqNo)
      ensures r.Done? && !r.value ==> Holds(config, log[i])
      ensures RowsOnly(old(store.outbox), store.outbox, log[i].src) && store.now >= old(store.now)
      ensures adapter.failures >= old(adapter.failures)
      ensures AllDue(old(store.outbox), log[i].src, old(store.now)) && adapter.failures == old(adapter.failures) ==>
        r.Done? && roadmapOk ==> r.value
    {
      hide Inv, ReviewsKept, OwnerOrder, WaitsOk, EdgesOk, HistoryOk, FromLog, SettledUpTo, Handles, Durable, Knows, RowsOnly, AllDue;
      ghost var db0, tasks0 := store.View(), adapter.tasks;
      var e := log[i];
      NoRows(db0.outbox, e.src);
      if e.kind !in config.handled {
        SettledStep(db0, config, log, last, first, i, reached);
        return Done(true);
      }
      KnownFromLog(db0, log, i);
      r := RouteEvent(store, adapter, e, config.apply, resolution, roadmapOk);
      ghost var db1, tasks1 := store.View(), adapter.tasks;
      HandlesFacts(db0, tasks0, db1, tasks1, e.src);
      FromLogKept(db0, tasks0, db1, tasks1, log, i);
      SettledKept(db0, tasks0, db1, tasks1, config, log, seed, last, i);
      SettledKept(db0, tasks0, db1, tasks1, config, log, last, reached, i);
      if r.Done? && r.value { SettledStep(db1, config, log, last, first, i, reached); }
    }

    /** Anything that moves instances of one harmless kind only. */
    lemma StillOk(db0: Db, log0: seq<Event>, seed0: int, kind: Kind)
      requires EngineOk(store, adapter) && (kind == OwnerInput || kind == ExternalWait)
      requires OnlyKind(db0, store.View(), kind)
      requires log == log0 && seed == seed0
      requires BoardLog(log) && (forall i :: 0 <= i < |log| ==> log[i].seqNo <= boardMax) && boardMax >= 0
      requires FromLog(db0, log) && CursorOf(db0) <= boardMax
      requires db0.cursor.Some? ==>
        seed <= db0.cursor.value && SettledUpTo(db0, config, log, seed, db0.cursor.value)
      ensures Ok()
    {
      hide Inv, ReviewsKept, OwnerOrder, WaitsOk, EdgesOk, HistoryOk, BoardLog, EngineOk;
      ghost var db := store.View();
      forall s | s in db.instances
        ensures exists i :: 0 <= i < |log| && Matches(log[i], s, db.instances[s])
      {
        var i :| 0 <= i < |log| && Matches(log[i], s, db0.instances[s]);
        assert Matches(log[i], s, db.instances[s]);
      }
      if db0.cursor.Some? {
        forall i | 0 <= i < |log| && seed < log[i].seqNo <= db0.cursor.value
          ensures Settled(db, config, log[i])
        {
          assert Settled(db0, config, log[i]);
        }
      }
    }

    method Reconcile() returns (r: Outcome<()>, ghost at: real)
      requires Ok()
      modifies store, adapter
      ensures Ok() && store.cursor == old(store.cursor) && store.instances == old(store.instances)
      ensures store.outbox.Keys == old(store.outbox).Keys
      ensures r.Done? ==> forall k :: k in store.outbox ==>
        if Due(old(store.outbox)[k], at) then Reconciler.Retried(old(store.outbox)[k], store.outbox[k])
        else store.outbox[k] == old(store.outbox)[k]
      ensures store.crashes == old(store.crashes) + r.Toll()
    {
      hide Inv, ReviewsKept, OwnerOrder, WaitsOk, EdgesOk, HistoryOk, BoardLog, FromLog, SettledUpTo;
      ghost var db0 := store.View();
      r, at := Retry(store, adapter);
      StillOk(db0, log, seed, OwnerInput);
    }

    method PollWaits() returns (r: Outcome<()>)
      requires Ok()
      modifies store
      ensures Ok() && store.cursor == old(store.cursor)
      ensures store.crashes == old(store.crashes) + r.Toll()
    {
      hide Inv, ReviewsKept, OwnerOrder, WaitsOk, EdgesOk, HistoryOk, BoardLog, FromLog, SettledUpTo;
      ghost var db0 := store.View();
      ghost var verdicts;
      r, verdicts := Poll(store, adapter);
      StillOk(db0, log, seed, ExternalWait);
    }

    /** An owner-input call names a stored instance of that kind. */
    method Answer(s: Source, call: OwnerCall) returns (r: Outcome<StepResult>)
      requires Ok() && IsOwner(store.View(), s)
      modifies store, adapter
      ensures Ok() && store.cursor == old(store.cursor)
      ensures r.Done? ==> r.value.ok == Accepts(old(store.instances)[s].state, call)
      ensures r.Done? && r.value.ok ==> IsOwner(store.View(), s) && store.instances[s].state == Target(call)
      ensures store.crashes == old(store.crashes) + r.Toll()
    {
      hide Inv, ReviewsKept, OwnerOrder, WaitsOk, EdgesOk, HistoryOk, BoardLog, FromLog, SettledUpTo, Accepts;
      ghost var db0 := store.View();
      r := Call(store, adapter, s, call);
      StillOk(db0, log, seed, OwnerInput);
    }

    /** route_board_events: a board without a cursor is seeded, any other ingests. */
    method Tick(limit: nat) returns (r: Outcome<(nat, bool)>, ghost refused: bool)
      requires Ok()
      modifies store, adapter, this`seed
      ensures Ok() && store.crashes == old(store.crashes) + r.Toll()
      ensures r.Done? ==> store.cursor.Some?
      ensures old(store.cursor).Some? ==>
        seed == old(seed) && store.cursor.Some? && store.cursor.value >= old(store.cursor).value
      ensures old(store.cursor).Some? && r.Done? ==>
        BatchPassed(config, log, limit, old(store.cursor).value, store.cursor.value, r.value.0, r.value.1)
      ensures r.Done? && r.value.1 ==>
        refused || adapter.failures > old(adapter.failures) || !NothingBacksOff(old(store.outbox), old(store.now))
    {
      refused := false;
      if store.cursor.None? {
        var seeded := SeedCursor();
        r := if seeded.Crashed? then Crashed else Done((0, false));
      } else {
        r, refused := Ingest(limit);
      }
    }

    /** Any run: board events, ticks, outbox passes, polls and owner calls in any
        order, each of which may die part way and is then simply started anew. */
    method Run(commands: seq<Command>)
      requires Ok()
      modifies this, store, adapter
      ensures Ok()
      ensures old(log) <= log
      ensures old(store.cursor).Some? ==>
        seed == old(seed) && store.cursor.Some? && store.cursor.value >= old(store.cursor).value
    {
      hide Ok;
      for n := 0 to |commands|
        invariant Ok()
        invariant old(log) <= log
        invariant old(store.cursor).Some? ==>
          seed == old(seed) && store.cursor.Some? && store.cursor.value >= old(store.cursor).value
      {
        match commands[n] {
          case BoardEvent(e) =>
            if e.seqNo > boardMax && CleanSource(e.src) && forall i :: 0 <= i < |log| ==> log[i].src != e.src {
              Append(e);
            }
          case TickNow(limit) => var r, _ := Tick(limit);
          case ReconcileNow => var r, _ := Reconcile();
          case PollNow => var r := PollWaits();
          case OwnerSays(s, call) =>
            if s in store.instances && store.instances[s].kind == OwnerInput { var r := Answer(s, call); }
        }
      }
    }
  }

  lemma HandlesFacts(db: Db, tasks: Tasks, db': Db, tasks': Tasks, s: Source)
    requires Handles(db, tasks, db', tasks', s)
    ensures db'.cursor == db.cursor && RowsOnly(db.outbox, db'.outbox, s)
  {}

  lemma Beyond(log: seq<Event>, first: nat, i: nat, last: int)
    requires BoardLog(log) && first <= i < |log| && log[first].seqNo > last
    ensures log[i].seqNo > last
  {}

  lemma NothingBetween(db: Db, config: Config, log: seq<Event>, at: int)
    ensures SettledUpTo(db, config, log, at, at)
  {}

  lemma SettledJoin(db: Db, config: Config, log: seq<Event>, lo: int, mid: int, hi: int)
    requires SettledUpTo(db, config, log, lo, mid) && SettledUpTo(db, config, log, mid, hi)
    ensures SettledUpTo(db, config, log, lo, hi)
  {}

  lemma FromLogSame(db: Db, db': Db, log: seq<Event>)
    requires FromLog(db, log) && db'.instances == db.instances
    ensures FromLog(db', log)
  {}

  // ----- what the cursor means -----

  /** The main promise. In every state a run can reach, a code-fix event between
      the seed and the cursor has its fix task and, parented to it, its review
      task on the board, nothing else under its digest, and its return edge when
      there is an endpoint. */
  lemma FixBehindCursor(d: Daemon, i: nat)
    requires d.Ok() && d.store.cursor.Some? && d.config.apply && i < |d.log|
    requires d.seed < d.log[i].seqNo <= d.store.cursor.value
    requires d.log[i].kind == CodeFix && CodeFix in d.config.handled
    ensures var e, tasks := d.log[i], d.adapter.tasks;
      var fix, review := FixKey(DigestOf(e.src)), ReviewKey(DigestOf(e.src));
      && fix in tasks && review in tasks
      && tasks[review].parent == tasks[fix].id && tasks[review].id != tasks[fix].id
      && (forall k :: k in tasks && k.digest == DigestOf(e.src) ==> k == fix || k == review)
      && (e.endpoint != "" ==> (tasks[review].id, e.endpoint) in d.adapter.subscriptions)
  {
    hide Inv, OwnerOrder, WaitsOk, ReviewsKept, FromLog;
    var e, db, tasks := d.log[i], d.store.View(), d.adapter.tasks;
    assert Settled(db, d.config, e);
    InvInstance(db, tasks, e.src);
    GraphOnBoard(db, tasks, e.src, e.endpoint);
    FixTasksOnly(db, tasks, e.src);
    if e.endpoint != "" { EdgeNamed(db, tasks, e.src, e.endpoint); }
  }

  lemma EdgeNamed(db: Db, tasks: Tasks, s: Source, endpoint: string)
    requires Inv(db, tasks) && AppliedIn(db, SubscribeKey(DigestOf(s), endpoint))
    ensures db.outbox[SubscribeKey(DigestOf(s), endpoint)].payload.endpoint == endpoint
  {
    InvRow(db, tasks, SubscribeKey(DigestOf(s), endpoint));
  }

  /** And a refusal between the seed and the cursor is acknowledged, quarantined
      for good and has no task at all. */
  lemma RefusalBehindCursor(d: Daemon, i: nat)
    requires d.Ok() && d.store.cursor.Some? && d.config.apply && i < |d.log|
    requires d.seed < d.log[i].seqNo <= d.store.cursor.value
    requires d.log[i].kind == SemanticRefusal && SemanticRefusal in d.config.handled
    ensures var e := d.log[i];
      && e.src in d.store.instances && d.store.instances[e.src].state == BlockedInvalid
      && (e.src, REFUSAL_FIELD) in d.store.satisfied
      && forall k :: k in d.adapter.tasks ==> k.digest != DigestOf(e.src)
  {
    hide Inv, OwnerOrder, WaitsOk, ReviewsKept, FromLog;
    var e, db, tasks := d.log[i], d.store.View(), d.adapter.tasks;
    assert Settled(db, d.config, e);
    InvInstance(db, tasks, e.src);
    RefusalHasNoTasks(db, tasks, e.src);
  }

  // ----- what else every reachable state keeps -----

  /** No consumer-ACK row outlives its retries, and no row of a fix graph exists
      before its predecessor is applied. */
  lemma RowsInEveryRun(d: Daemon, k: Key)
    requires d.Ok() && k in d.store.outbox
    ensures var rows := d.store.outbox; var row := rows[k];
      && (row.op == RecordAck && row.state == Pending ==> row.attempts <= 4)
      && (row.op == RecordAck && row.state == Applied ==> row.attempts <= 5)
      && (row.op == RecordAck && row.state == Deadletter ==> row.attempts == 5 || row.attempts == 6)
      && (k.ReviewKey? ==> FixKey(k.digest) in rows && rows[FixKey(k.digest)].state == Applied)
      && (k.SubscribeKey? ==> ReviewKey(k.digest) in rows && rows[ReviewKey(k.digest)].state == Applied)
  {
    hide Inv, OwnerOrder, WaitsOk, ReviewsKept, FromLog, SettledUpTo;
    InvRow(d.store.View(), d.adapter.tasks, k);
  }

  /** The row's history, as every reachable state has it on record. */
  lemma HistoryOf(d: Daemon, k: Key)
    requires d.Ok() && k in d.store.outbox
    ensures RowHistory(d.store.outbox[k], d.adapter.book, k) && d.adapter.book.lost <= d.store.crashes
  {
    hide Inv, OwnerOrder, WaitsOk, ReviewsKept, FromLog, SettledUpTo, RowHistory, EdgesOk;
    assert KeyHistory(d.store.outbox, d.adapter.book, k);
  }

  /** However often the daemon ran, died and was restarted: a consumer ACK was
      recorded at most five times, and once more for every crash. */
  lemma AcksInEveryRun(d: Daemon, k: Key)
    requires d.Ok() && k in d.store.outbox && d.store.outbox[k].op == RecordAck
    ensures CountOf(d.adapter.book.recorded, k) <= 5 + d.store.crashes
  {
    HistoryOf(d, k);
    hide Inv, EngineOk, FromLog, SettledUpTo;
    var row := d.store.outbox[k];
    C.CallbackRetryCap(row.src, row.step, row.payload, TurnsOf(d.adapter.book, k));
  }

  /** And an origin wake was scheduled at most once, and once more for every crash.
      A schedule that no crash accounts for has left the row applied or waiting for
      acceptance. */
  lemma WakesInEveryRun(d: Daemon, k: Key)
    requires d.Ok() && k in d.store.outbox && d.store.outbox[k].op == ScheduleWake
    ensures CountOf(d.adapter.book.scheduled, k) <= 1 + d.store.crashes
    ensures CountOf(d.adapter.book.scheduled, k) > d.store.crashes ==> C.WakeDone(d.store.outbox[k])
  {
    HistoryOf(d, k);
    hide Inv, EngineOk, FromLog, SettledUpTo;
    var row := d.store.outbox[k];
    C.AtMostOneWake(row.src, row.step, row.payload, TurnsOf(d.adapter.book, k));
  }

  /** A create, subscribe or completion row that is due has waited out its backoff:
      n recorded attempts on it lie at least Span(n) seconds after the first. */
  lemma TriesInEveryRun(d: Daemon, k: Key, at: real)
    requires d.Ok() && k in d.store.outbox && Mutation(d.store.outbox[k].op) && Due(d.store.outbox[k], at)
    ensures var row := d.store.outbox[k];
      var blank := FreshRow(row.src, row.step, row.op, row.payload);
      match FirstRecorded(blank, TriesOf(d.adapter.book, k))
      case None => row == blank
      case Some(first) => at >= first + Span(row.attempts)
  {
    HistoryOf(d, k);
    hide Inv, EngineOk, FromLog, SettledUpTo;
    var row := d.store.outbox[k];
    AttemptsAreSpaced(row.src, row.step, row.op, row.payload, TriesOf(d.adapter.book, k), at);
  }

  /** Every stored state is where its numbered log legally leads. */
  lemma LogsInEveryRun(d: Daemon, s: Source)
    requires d.Ok() && s in d.store.instances
    ensures s in d.store.events && Numbered(d.store.events[s])
    ensures LogState(d.store.events[s]) == Some(d.store.instances[s].state)
  {
    hide Inv, OwnerOrder, WaitsOk, ReviewsKept, FromLog, SettledUpTo;
    InvLog(d.store.View(), d.adapter.tasks);
  }

  /** Owner input: a materialization has its validated receipt, a review its
      materialization and GO, a rerun its materialization and both GOs; each kind
      of step exists at most once. A rerun has its review if nothing ever died. */
  lemma OwnerStepsInEveryRun(d: Daemon, s: Source)
    requires d.Ok() && IsOwner(d.store.View(), s)
    ensures var db := d.store.View();
      && (Materialized(db, s) ==> Receipts(db, s) != [])
      && (Reviewed(db, s) ==> Materialized(db, s) && Logged(db, s, MATERIALIZATION_GO))
      && (Rerun(db, s) ==> Materialized(db, s) && Logged(db, s, MATERIALIZATION_GO) && Logged(db, s, REVIEW_GO))
      && (Rerun(db, s) && d.store.crashes == 0 ==> Reviewed(db, s))
    ensures forall k :: (s, k) in d.store.steps ==>
      k in {AnchorKey(DigestOf(s)), MaterializeKey(DigestOf(s)), OwnerReviewKey(DigestOf(s)), RerunKey(DigestOf(s))}
  {
    hide Inv, WaitsOk, FromLog, SettledUpTo;
    var db := d.store.View();
    assert OwnerOk(db, s);
    if d.store.crashes == 0 { assert ReviewKept(db, s); }
    forall k | (s, k) in d.store.steps
      ensures k in {AnchorKey(DigestOf(s)), MaterializeKey(DigestOf(s)), OwnerReviewKey(DigestOf(s)), RerunKey(DigestOf(s))}
    {
      InvStep(db, d.adapter.tasks, s, k);
    }
  }
}
