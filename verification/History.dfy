/** Where every outbox row comes from: the drivers' tries and turns at it, in the
    order they were made, account for the row and for the adapter calls made. */
module History {
  import opened Domain
  import opened Store
  import opened Adapter
  import opened Backoff
  import C = Callbacks

  /** A row is what its recorded history makes of a fresh one, and its schedule and
      record calls are the ones that history contains. */
  ghost predicate RowHistory(row: Row, book: Book, k: Key) {
    var blank := FreshRow(row.src, row.step, row.op, row.payload);
    var ts, vs := TriesOf(book, k), TurnsOf(book, k);
    match row.op
    case RecordAck =>
      && row == C.AckRun(blank, vs) && ts == []
      && CountOf(book.recorded, k) == C.AckCalls(blank, vs) && C.AckLost(blank, vs) <= book.lost
    case ScheduleWake =>
      && row == C.WakeRun(blank, vs) && C.CleanAnswers(vs) && ts == []
      && CountOf(book.scheduled, k) == C.Scheduled(blank, vs) && C.ScheduledLost(blank, vs) <= book.lost
    case _ =>
      && row == VisitAll(blank, ts) && Ordered(ts) && MarkedBy(ts, book.last)
  }

  predicate MarkedBy(ts: seq<Try>, at: real) { forall i :: 0 <= i < |ts| ==> ts[i].mark <= at }

  predicate Unseen(book: Book, k: Key) {
    TriesOf(book, k) == [] && TurnsOf(book, k) == [] && CountOf(book.scheduled, k) == 0 && CountOf(book.recorded, k) == 0
  }

  ghost predicate KeyHistory(outbox: map<Key, Row>, book: Book, k: Key) {
    if k in outbox then RowHistory(outbox[k], book, k) else Unseen(book, k)
  }

  ghost predicate HistoryOk(outbox: map<Key, Row>, book: Book) {
    forall k :: KeyHistory(outbox, book, k)
  }

  /** Only what is noted under `key` changes, apart from the totals, which grow. */
  ghost predicate NotedAt(book: Book, book': Book, key: Key) {
    && book.lost <= book'.lost && book.last <= book'.last
    && forall k :: k != key ==>
      && TriesOf(book', k) == TriesOf(book, k) && TurnsOf(book', k) == TurnsOf(book, k)
      && CountOf(book'.scheduled, k) == CountOf(book.scheduled, k)
      && CountOf(book'.recorded, k) == CountOf(book.recorded, k)
  }

  /** So only that key's row has to be accounted for. */
  lemma HistoryKept(outbox: map<Key, Row>, book: Book, outbox': map<Key, Row>, book': Book, key: Key)
    requires HistoryOk(outbox, book) && NotedAt(book, book', key)
    requires outbox'.Keys == outbox.Keys + {key} && forall k :: k in outbox && k != key ==> outbox'[k] == outbox[k]
    requires KeyHistory(outbox', book', key)
    ensures HistoryOk(outbox', book')
  {
    forall k ensures KeyHistory(outbox', book', k) {
      if k != key {
        assert KeyHistory(outbox, book, k);
        assert k in outbox' <==> k in outbox;
        if k in outbox { OtherRow(outbox[k], book, book', key, k); }
      }
    }
  }

  lemma OtherRow(row: Row, book: Book, book': Book, key: Key, k: Key)
    requires RowHistory(row, book, k) && NotedAt(book, book', key) && k != key
    ensures RowHistory(row, book', k)
  {
    hide Ordered, C.CleanAnswers;
  }

  /** A fresh row under a new key has no history yet. */
  lemma HistoryEnqueued(outbox: map<Key, Row>, book: Book, key: Key, row: Row)
    requires HistoryOk(outbox, book) && row == FreshRow(row.src, row.step, row.op, row.payload)
    ensures HistoryOk(if key in outbox then outbox else outbox[key := row], book)
  {
    if key !in outbox {
      assert KeyHistory(outbox, book, key);
      HistoryKept(outbox, book, outbox[key := row], book, key);
    }
  }

  lemma HistoryTried(outbox: map<Key, Row>, book: Book, key: Key, t: Try)
    requires HistoryOk(outbox, book) && key in outbox && t.at <= t.mark && MarkedBy(TriesOf(book, key), t.at)
    requires outbox[key].op != RecordAck && outbox[key].op != ScheduleWake
    ensures HistoryOk(outbox[key := Visit(outbox[key], t)], Tried(book, key, t))
  {
    hide Visit, VisitAll, C.AckRun, C.WakeRun;
    var row := outbox[key];
    var row', book' := Visit(row, t), Tried(book, key, t);
    assert KeyHistory(outbox, book, key);
    SameKind(row, t);
    VisitAllAppend(FreshRow(row.src, row.step, row.op, row.payload), TriesOf(book, key), t);
    assert TriesOf(book', key) == TriesOf(book, key) + [t];
    HistoryKept(outbox, book, outbox[key := row'], book', key);
  }

  lemma SameKind(row: Row, t: Try)
    ensures var r := Visit(row, t); r.src == row.src && r.step == row.step && r.op == row.op && r.payload == row.payload
  {}

  /** One turn at a consumer ACK, its record call already counted. */
  lemma HistoryAcked(outbox: map<Key, Row>, book: Book, book1: Book, key: Key, v: Turn)
    requires HistoryOk(outbox, book) && key in outbox && outbox[key].op == RecordAck
    requires book1 == book.(recorded := Bumped(book.recorded, key, C.AckRecords(outbox[key], v)))
    ensures HistoryOk(outbox[key := C.AckRow(outbox[key], v)], Turned(book1, key, v))
  {
    hide C.AckRow, C.AckRecords, C.AckRun, C.AckCalls, C.AckLost, C.WakeRun;
    var row := outbox[key];
    var row', book' := C.AckRow(row, v), Turned(book1, key, v);
    assert KeyHistory(outbox, book, key);
    SameAck(row, v);
    C.AckRunAppend(FreshRow(row.src, row.step, row.op, row.payload), TurnsOf(book, key), v);
    assert TurnsOf(book', key) == TurnsOf(book, key) + [v];
    HistoryKept(outbox, book, outbox[key := row'], book', key);
  }

  lemma SameAck(row: Row, v: Turn)
    ensures var r := C.AckRow(row, v); r.src == row.src && r.step == row.step && r.op == row.op && r.payload == row.payload
  {}

  /** One turn at an origin wake, its schedule call already counted. */
  lemma HistoryWoken(outbox: map<Key, Row>, book: Book, book1: Book, key: Key, v: Turn)
    requires HistoryOk(outbox, book) && key in outbox && outbox[key].op == ScheduleWake
    requires v.result.ok ==> v.result.error == ""
    requires book1 == book.(scheduled := Bumped(book.scheduled, key, C.Schedules(outbox[key], v)))
    ensures HistoryOk(outbox[key := C.WakeRow(outbox[key], v)], Turned(book1, key, v))
  {
    hide C.WakeRow, C.Schedules, C.WakeRun, C.Scheduled, C.ScheduledLost, C.AckRun;
    var row := outbox[key];
    var row', book' := C.WakeRow(row, v), Turned(book1, key, v);
    assert KeyHistory(outbox, book, key);
    SameWake(row, v);
    C.WakeRunAppend(FreshRow(row.src, row.step, row.op, row.payload), TurnsOf(book, key), v);
    assert TurnsOf(book', key) == TurnsOf(book, key) + [v];
    HistoryKept(outbox, book, outbox[key := row'], book', key);
  }

  lemma SameWake(row: Row, v: Turn)
    ensures var r := C.WakeRow(row, v); r.src == row.src && r.step == row.step && r.op == row.op && r.payload == row.payload
  {}
}
