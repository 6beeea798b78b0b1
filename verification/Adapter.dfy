/** The board as the handlers see it (board_adapter.py): an adapter that may
    fail, may act and then report failure, but deduplicates creates by key. */
module Adapter {
  import opened Domain

  /** The `ack` a subscribe-shaped result may nest. */
  datatype NestedAck = NoAck | Malformed | Ack(ok: bool, error: Option<string>)

  datatype Result = Result(ok: bool, task: string, error: string, ack: NestedAck)

  datatype Task = Task(id: string, parent: string)

  predicate HasFailedNestedAck(r: Result) {
    match r.ack
    case NoAck => false
    case Malformed => true
    case Ack(ok, _) => !ok
  }

  // ----- what was asked for each outbox row -----

  /** One visit of a driver to a create, subscribe or completion row: the due check
      reads the clock at `at`, the outcome is committed at `mark` unless the
      process dies first (`lost`). */
  datatype Try = Try(at: real, mark: real, ok: bool, task: string, error: string, lost: bool)

  datatype Driver = ViaApply | ViaHandler | ViaReconcile

  /** One driver's turn at a callback row: the clock at the due check and at the
      mark, the adapter's answers in the order they are asked for, and whether the
      process dies after the last call and before the mark. */
  datatype Turn = Turn(
    driver: Driver, at: real, mark: real,
    before: bool, result: Result, after: bool, lost: bool)

  /** The history of every row: its tries or turns, how often its schedule call
      succeeded and its record call was made, how many turns crashes swallowed in
      all, and the latest mark. */
  datatype Book = Book(
    tries: map<Key, seq<Try>>, turns: map<Key, seq<Turn>>,
    scheduled: map<Key, nat>, recorded: map<Key, nat>, lost: nat, last: real)

  function TriesOf(b: Book, k: Key): seq<Try> { if k in b.tries then b.tries[k] else [] }
  function TurnsOf(b: Book, k: Key): seq<Turn> { if k in b.turns then b.turns[k] else [] }
  function CountOf(m: map<Key, nat>, k: Key): nat { if k in m then m[k] else 0 }
  function Bumped(m: map<Key, nat>, k: Key, more: bool): map<Key, nat> {
    if more then m[k := CountOf(m, k) + 1] else m
  }

  /** The book with one try or turn added. */
  function Tried(b: Book, k: Key, t: Try): Book {
    b.(tries := b.tries[k := TriesOf(b, k) + [t]], last := if t.mark > b.last then t.mark else b.last)
  }
  function Turned(b: Book, k: Key, v: Turn): Book {
    b.(turns := b.turns[k := TurnsOf(b, k) + [v]], lost := b.lost + (if v.lost then 1 else 0))
  }

  ghost predicate DistinctIds(tasks: map<Key, Task>) {
    && (forall k :: k in tasks ==> tasks[k].id != "")
    && (forall k, l :: k in tasks && l in tasks && tasks[k].id == tasks[l].id ==> k == l)
  }

  /** What a subscribe may do and answer: the edge may be there although failure is
      reported, and success may come with an ACK repair that failed. */
  predicate SubscribeAnswers(subs: set<(string, string)>, subs': set<(string, string)>, edge: (string, string), r: Result) {
    subs <= subs' <= subs + {edge} && (r.ok ==> edge in subs' && r.task == "")
  }

  class BoardAdapter {
    var tasks: map<Key, Task>
    var subscriptions: set<(string, string)>
    var issued: nat
    /** Every call, probe or mutation, bumps `calls`. */
    ghost var calls: nat
    ghost var book: Book
    /** Mutations so far whose answer was not a full success. */
    ghost var failures: nat

    ghost predicate Valid()
      reads this
    {
      && DistinctIds(tasks)
      && forall k :: k in tasks ==> |tasks[k].id| <= issued
    }

    constructor ()
      ensures Valid() && tasks == map[] && book == Book(map[], map[], map[], map[], 0, 0.0)
    {
      tasks, subscriptions, issued := map[], {}, 0;
      calls, failures := 0, 0;
      book := Book(map[], map[], map[], map[], 0, 0.0);
    }

    method Fails() returns (f: bool)
      modifies this`failures
      ensures failures == old(failures) + (if f then 1 else 0)
    {
      f := *;
      if f { failures := failures + 1; }
    }

    method Failure() returns (r: Result)
      ensures !r.ok
    {
      var e: string := *;
      var ack: NestedAck := *;
      r := Result(false, "", e, ack);
    }

    /** A create that reports success returns the id kept under its key; one that
        reports failure may still have created the task. */
    method CreateTask(key: Key, parent: string) returns (r: Result)
      requires Valid()
      modifies this
      ensures Valid() && calls == old(calls) + 1 && book == old(book) && subscriptions == old(subscriptions)
      ensures key in old(tasks) ==> tasks == old(tasks)
      ensures key !in old(tasks) && key !in tasks ==> tasks == old(tasks)
      ensures key !in old(tasks) && key in tasks ==>
        tasks == old(tasks)[key := tasks[key]] && tasks[key].parent == parent
      ensures r.ok ==> key in tasks && r.task == tasks[key].id && r.ack.NoAck?
      ensures failures >= old(failures)
      ensures failures == old(failures) ==> r.ok
    {
      calls := calls + 1;
      var lost := Fails();
      if lost { r := Failure(); return; }
      if key !in tasks {
        issued := issued + 1;
        tasks := tasks[key := Task(seq(issued, _ => 'x'), parent)];
      }
      var late := Fails();
      if late { r := Failure(); return; }
      r := Result(true, tasks[key].id, "", NoAck);
    }

    method Subscribe(task: string, endpoint: string) returns (r: Result)
      requires Valid()
      modifies this
      ensures Valid() && tasks == old(tasks) && calls == old(calls) + 1 && book == old(book)
      ensures SubscribeAnswers(old(subscriptions), subscriptions, (task, endpoint), r)
      ensures failures >= old(failures)
      ensures failures == old(failures) ==> r.ok && !HasFailedNestedAck(r)
    {
      calls := calls + 1;
      var lost := Fails();
      if lost { r := Failure(); return; }
      subscriptions := subscriptions + {(task, endpoint)};
      var late := Fails();
      if late {
        r := Failure();
        var ok: bool := *;
        r := Result(ok, "", r.error, if ok then Ack(false, None) else r.ack);
        return;
      }
      r := Result(true, "", "", Ack(true, None));
    }

    method CompleteOwnerAnchor(task: string) returns (r: Result)
      requires Valid()
      modifies this
      ensures Valid() && tasks == old(tasks) && calls == old(calls) + 1 && book == old(book) && subscriptions == old(subscriptions)
      ensures r.ok ==> r.task == ""
      ensures failures >= old(failures)
      ensures failures == old(failures) ==> r.ok && !HasFailedNestedAck(r)
    {
      calls := calls + 1;
      var lost := Fails();
      if lost { r := Failure(); } else { r := Result(true, "", "", NoAck); }
    }

    /** Nothing is known of a callback edge but what the answer says. */
    method Callback() returns (r: Result)
      requires Valid()
      modifies this`calls
      ensures calls == old(calls) + 1 && (r.ok ==> r.error == "")
    {
      calls := calls + 1;
      var ok: bool := *;
      if ok { r := Result(true, "", "", NoAck); } else { r := Failure(); }
    }

    /** schedule_origin_wake for the row under `key`. */
    method ScheduleOriginWake(ghost key: Key) returns (r: Result)
      requires Valid()
      modifies this
      ensures Valid() && tasks == old(tasks) && calls == old(calls) + 1
      ensures subscriptions == old(subscriptions) && failures == old(failures)
      ensures book == old(book).(scheduled := Bumped(old(book).scheduled, key, r.ok))
      ensures r.ok ==> r.error == ""
    {
      r := Callback();
      book := book.(scheduled := Bumped(book.scheduled, key, r.ok));
    }

    /** record_consumer_ack for the row under `key`. */
    method RecordConsumerAck(ghost key: Key) returns (r: Result)
      requires Valid()
      modifies this
      ensures Valid() && tasks == old(tasks) && calls == old(calls) + 1
      ensures subscriptions == old(subscriptions) && failures == old(failures)
      ensures book == old(book).(recorded := Bumped(old(book).recorded, key, true))
      ensures r.ok ==> r.error == ""
    {
      r := Callback();
      book := book.(recorded := Bumped(book.recorded, key, true));
    }

    /** origin_wake_satisfied and consumer_ack_satisfied. */
    method Probe() returns (ok: bool)
      requires Valid()
      modifies this
      ensures Valid() && tasks == old(tasks) && calls == old(calls) + 1
      ensures subscriptions == old(subscriptions) && failures == old(failures)
      ensures book == old(book)
    {
      calls := calls + 1;
      ok := *;
    }
  }
}
