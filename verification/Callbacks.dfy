/** The callback-only outbox rows (continuations/base.py, semantic_refusal.py,
    continuation_engine.py): what each driver does to one consumer-ACK or
    origin-wake row, and what every run of the drivers keeps. */
module Callbacks {
  import opened Domain
  import opened Store
  import opened Adapter
  import opened Backoff

  const RETRY_CAP: nat := 5
  const NOT_YET := "origin_wake_not_yet_accepted"

  predicate CallbackOnly(op: Operation) { op == ScheduleWake || op == RecordAck }

  /** Error texts are stored cut to 200 characters, with a default for none. */
  function ErrorText(error: string, default: string): string {
    var e := if error == "" then default else error;
    if |e| > 200 then e[..200] else e
  }

  /** One failed attempt: back to pending, or to the deadletter once a
      callback-only row has burned its retries. */
  function Failed(row: Row, error: string, at: real): Row {
    if CallbackOnly(row.op) && row.attempts + 1 >= RETRY_CAP
    then Marked(row, Deadletter, "", 0.0, error)
    else Marked(row, Pending, "", at + Delay(row.attempts + 1), error)
  }

  // ----- consumer ACK -----

  function AckOutcome(row: Row, v: Turn, default: string): Row {
    if v.result.ok && v.after then Marked(row, Applied, "", 0.0, "")
    else if v.result.ok then Failed(row, "consumer_ack_not_verified", v.mark)
    else Failed(row, ErrorText(v.result.error, default), v.mark)
  }

  function AckRow(row: Row, v: Turn): Row {
    if v.lost then row
    else if v.driver == ViaReconcile then
      if !Due(row, v.at) then row
      else if v.before then Marked(row, Applied, "", 0.0, "")
      else AckOutcome(row, v, "adapter_error")
    else
      match row.state
      case Deadletter => row
      case Applied => if v.before then row else Failed(row, "consumer_ack_not_verified", v.mark)
      case Pending => if row.nextAt > v.at then row else AckOutcome(row, v, "consumer_ack_failed")
  }

  /** Whether the visit calls record_consumer_ack. */
  predicate AckRecords(row: Row, v: Turn) {
    Due(row, v.at) && (v.driver == ViaReconcile ==> !v.before)
  }

  /** Whether the visit asks the adapter anything at all. */
  predicate AckAsks(row: Row, v: Turn) {
    Due(row, v.at) || (v.driver != ViaReconcile && row.state == Applied)
  }

  function AckRun(row: Row, vs: seq<Turn>): Row
    decreases |vs|
  {
    if vs == [] then row else AckRun(AckRow(row, vs[0]), vs[1..])
  }

  /** record_consumer_ack calls over the run, and those whose mark was lost. */
  function AckCalls(row: Row, vs: seq<Turn>): nat
    decreases |vs|
  {
    if vs == [] then 0
    else (if AckRecords(row, vs[0]) then 1 else 0) + AckCalls(AckRow(row, vs[0]), vs[1..])
  }

  function AckLost(row: Row, vs: seq<Turn>): nat
    decreases |vs|
  {
    if vs == [] then 0
    else (if AckRecords(row, vs[0]) && vs[0].lost then 1 else 0) + AckLost(AckRow(row, vs[0]), vs[1..])
  }

  lemma {:induction false} AckRunAppend(row: Row, vs: seq<Turn>, v: Turn)
    ensures AckRun(row, vs + [v]) == AckRow(AckRun(row, vs), v)
    ensures AckCalls(row, vs + [v]) == AckCalls(row, vs) + (if AckRecords(AckRun(row, vs), v) then 1 else 0)
    ensures AckLost(row, vs + [v])
         == AckLost(row, vs) + (if AckRecords(AckRun(row, vs), v) && v.lost then 1 else 0)
    decreases |vs|
  {
    hide AckRow, AckRecords;
    if vs == [] {
      assert (vs + [v])[1..] == [];
    } else {
      assert (vs + [v])[1..] == vs[1..] + [v];
      AckRunAppend(AckRow(row, vs[0]), vs[1..], v);
    }
  }

  predicate AckCapped(row: Row) {
    && row.op == RecordAck
    && (row.state == Pending ==> row.attempts <= 4)
    && (row.state == Applied ==> 1 <= row.attempts <= 5)
    && (row.state == Deadletter ==> row.attempts == 5 || row.attempts == 6)
  }

  function AtMost(n: nat, cap: nat): nat { if n < cap then n else cap }

  lemma {:induction false} AckRunCapped(row: Row, vs: seq<Turn>)
    requires AckCapped(row)
    ensures AckCapped(AckRun(row, vs))
    ensures AckCalls(row, vs) - AckLost(row, vs)
         <= AtMost(AckRun(row, vs).attempts, 5) - AtMost(row.attempts, 5)
    decreases |vs|
  {
    if vs != [] {
      AckRunCapped(AckRow(row, vs[0]), vs[1..]);
    }
  }

  /** However apply_board_operation and reconcile_outbox interleave, a consumer
      ACK row keeps its attempt bounds, and record_consumer_ack is called at most
      five times beyond the calls whose mark a crash swallowed. */
  lemma CallbackRetryCap(src: Source, step: Option<Key>, payload: Payload, vs: seq<Turn>)
    ensures var row0 := FreshRow(src, step, RecordAck, payload);
      AckCapped(AckRun(row0, vs)) && AckCalls(row0, vs) <= 5 + AckLost(row0, vs)
  {
    AckRunCapped(FreshRow(src, step, RecordAck, payload), vs);
  }

  /** A deadlettered row never changes again and costs no adapter call. */
  lemma {:induction false} DeadletterAbsorbs(row: Row, vs: seq<Turn>)
    requires row.state == Deadletter
    ensures AckRun(row, vs) == row && AckCalls(row, vs) == 0
    ensures forall i :: 0 <= i < |vs| ==> !AckAsks(AckRun(row, vs[..i]), vs[i])
    decreases |vs|
  {
    if vs != [] {
      DeadletterAbsorbs(row, vs[1..]);
      assert AckRow(row, vs[0]) == row;
      forall i | 0 <= i < |vs| ensures !AckAsks(AckRun(row, vs[..i]), vs[i]) {
        if i > 0 {
          assert vs[..i][1..] == vs[1..][..i - 1];
          assert vs[1..][i - 1] == vs[i];
        }
      }
    }
  }

  // ----- origin wake -----

  /** The refusal handler's own re-mark: same backoff, no retry cap. */
  function WakePending(row: Row, error: string, at: real): Row {
    Marked(row, Pending, "", at + Delay(row.attempts + 1), error)
  }

  function WakeRow(row: Row, v: Turn): Row {
    if v.lost then row
    else match v.driver
    case ViaApply =>
      (match row.state
       case Deadletter => row
       case Applied => if v.before then row else Failed(row, NOT_YET, v.mark)
       case Pending =>
         if row.nextAt > v.at then row
         else if v.before then Marked(row, Applied, "", 0.0, "")
         else if row.lastError == NOT_YET then Failed(row, NOT_YET, v.mark)
         else if v.result.ok && v.after then Marked(row, Applied, "", 0.0, "")
         else Failed(row, ErrorText(v.result.error, NOT_YET), v.mark))
    case ViaHandler =>
      if row.state == Applied then if v.before then row else WakePending(row, NOT_YET, v.mark)
      else if v.before then Marked(row, Applied, "", 0.0, "")
      else if row.nextAt > v.at then row
      else if row.lastError == NOT_YET then WakePending(row, NOT_YET, v.mark)
      else if !v.result.ok then
        WakePending(row, ErrorText(v.result.error, "origin_wake_schedule_failed"), v.mark)
      else if v.after then Marked(row, Applied, "", 0.0, "")
      else WakePending(row, NOT_YET, v.mark)
    case ViaReconcile =>
      if !Due(row, v.at) then row
      else if v.before then Marked(row, Applied, "", 0.0, "")
      else if row.lastError == NOT_YET then Failed(row, NOT_YET, v.mark)
      else if v.result.ok && v.after then Marked(row, Applied, "", 0.0, "")
      else if v.result.ok then Failed(row, NOT_YET, v.mark)
      else Failed(row, ErrorText(v.result.error, "adapter_error"), v.mark)
  }

  /** Whether the visit calls schedule_origin_wake and is told it succeeded. */
  predicate Schedules(row: Row, v: Turn) {
    && v.result.ok && !v.before && row.lastError != NOT_YET
    && (if v.driver == ViaHandler then row.state != Applied && row.nextAt <= v.at else Due(row, v.at))
  }

  function WakeRun(row: Row, vs: seq<Turn>): Row
    decreases |vs|
  {
    if vs == [] then row else WakeRun(WakeRow(row, vs[0]), vs[1..])
  }

  function Scheduled(row: Row, vs: seq<Turn>): nat
    decreases |vs|
  {
    if vs == [] then 0
    else (if Schedules(row, vs[0]) then 1 else 0) + Scheduled(WakeRow(row, vs[0]), vs[1..])
  }

  function ScheduledLost(row: Row, vs: seq<Turn>): nat
    decreases |vs|
  {
    if vs == [] then 0
    else (if Schedules(row, vs[0]) && vs[0].lost then 1 else 0) + ScheduledLost(WakeRow(row, vs[0]), vs[1..])
  }

  lemma {:induction false} WakeRunAppend(row: Row, vs: seq<Turn>, v: Turn)
    ensures WakeRun(row, vs + [v]) == WakeRow(WakeRun(row, vs), v)
    ensures Scheduled(row, vs + [v]) == Scheduled(row, vs) + (if Schedules(WakeRun(row, vs), v) then 1 else 0)
    ensures ScheduledLost(row, vs + [v])
         == ScheduledLost(row, vs) + (if Schedules(WakeRun(row, vs), v) && v.lost then 1 else 0)
    decreases |vs|
  {
    hide WakeRow, Schedules;
    if vs == [] {
      assert (vs + [v])[1..] == [];
    } else {
      assert (vs + [v])[1..] == vs[1..] + [v];
      WakeRunAppend(WakeRow(row, vs[0]), vs[1..], v);
    }
  }

  /** A successful adapter result carries no error. */
  predicate CleanAnswers(vs: seq<Turn>) {
    forall i :: 0 <= i < |vs| && vs[i].result.ok ==> vs[i].result.error == ""
  }

  predicate WakeDone(row: Row) { row.state == Applied || row.lastError == NOT_YET }

  lemma {:induction false} WakeDoneStays(row: Row, vs: seq<Turn>)
    requires row.op == ScheduleWake && WakeDone(row)
    ensures WakeDone(WakeRun(row, vs)) && Scheduled(row, vs) == 0
    decreases |vs|
  {
    if vs != [] {
      WakeDoneStays(WakeRow(row, vs[0]), vs[1..]);
    }
  }

  lemma {:induction false} WakeOnce(row: Row, vs: seq<Turn>)
    requires row.op == ScheduleWake && CleanAnswers(vs)
    ensures Scheduled(row, vs) <= 1 + ScheduledLost(row, vs)
    ensures Scheduled(row, vs) > ScheduledLost(row, vs) ==> WakeDone(WakeRun(row, vs))
    decreases |vs|
  {
    if vs != [] {
      var row' := WakeRow(row, vs[0]);
      if Schedules(row, vs[0]) && !vs[0].lost {
        assert |NOT_YET| <= 200;
        WakeDoneStays(row', vs[1..]);
      } else {
        WakeOnce(row', vs[1..]);
      }
    }
  }

  /** Across all three drivers a wake row sees at most one successful schedule
      call when no crash falls between call and mark; each such crash allows one
      more. Once scheduled, the row is applied or waits for acceptance. */
  lemma AtMostOneWake(src: Source, step: Option<Key>, payload: Payload, vs: seq<Turn>)
    requires CleanAnswers(vs)
    ensures var row0 := FreshRow(src, step, ScheduleWake, payload);
      && Scheduled(row0, vs) <= 1 + ScheduledLost(row0, vs)
      && ((forall i :: 0 <= i < |vs| ==> !vs[i].lost) ==> Scheduled(row0, vs) <= 1)
      && (Scheduled(row0, vs) > ScheduledLost(row0, vs) ==> WakeDone(WakeRun(row0, vs)))
  {
    var row0 := FreshRow(src, step, ScheduleWake, payload);
    WakeOnce(row0, vs);
    if forall i :: 0 <= i < |vs| ==> !vs[i].lost { NoneLost(row0, vs); }
  }

  lemma {:induction false} NoneLost(row: Row, vs: seq<Turn>)
    requires forall i :: 0 <= i < |vs| ==> !vs[i].lost
    ensures ScheduledLost(row, vs) == 0
    decreases |vs|
  {
    if vs != [] { NoneLost(WakeRow(row, vs[0]), vs[1..]); }
  }

  /** The row with its schedule and last error forgotten. */
  function Forgotten(row: Row): Row { row.(nextAt := 0.0, lastError := "") }

  /** A wake that was scheduled is scheduled by no further turn; forgetting makes
      one possible exactly when the row is not applied. */
  lemma ForgettingIff(row: Row)
    requires row.op == ScheduleWake && WakeDone(row)
    ensures forall v: Turn :: !Schedules(row, v)
    ensures (exists v: Turn :: Schedules(Forgotten(row), v)) <==> row.state != Applied
  {
    var v := Turn(ViaHandler, 0.0, 0.0, false, Result(true, "", "", NoAck), false, false);
    assert row.state != Applied ==> Schedules(Forgotten(row), v);
  }

  // ----- the retry cap of wake rows -----

  predicate WakeCapped(row: Row) {
    && row.op == ScheduleWake
    && (row.state == Pending ==> row.attempts <= 4)
    && (row.state == Applied ==> 1 <= row.attempts <= 5)
    && (row.state == Deadletter ==> row.attempts == 5 || row.attempts == 6)
  }

  lemma {:induction false} WakeRunCapped(row: Row, vs: seq<Turn>)
    requires WakeCapped(row) && forall i :: 0 <= i < |vs| ==> vs[i].driver != ViaHandler
    ensures WakeCapped(WakeRun(row, vs))
    decreases |vs|
  {
    if vs != [] { WakeRunCapped(WakeRow(row, vs[0]), vs[1..]); }
  }

  /** Who gives up: an undelivered attempt ends in the deadletter exactly when it
      is at least the fifth and the refusal handler is not the one making it. */
  lemma LastRetryIff(row: Row, v: Turn)
    requires WakeCapped(row) && WakeRow(row, v) != row && WakeRow(row, v).state != Applied
    ensures WakeRow(row, v).state == Deadletter <==> row.attempts >= 4 && v.driver != ViaHandler
  {}

  /** When a turn leaves a capped row capped. */
  predicate Harmless(row: Row, v: Turn) {
    || v.driver != ViaHandler || v.lost
    || (v.before && (row.state == Applied || row.attempts <= 4))
    || (row.state != Applied && !v.before && row.nextAt > v.at)
    || (row.state != Deadletter && row.attempts <= 3)
    || (row.state == Pending && row.attempts == 4 && row.lastError != NOT_YET && v.result.ok && v.after)
  }

  lemma CapKeptIff(row: Row, v: Turn)
    requires WakeCapped(row)
    ensures WakeCapped(WakeRow(row, v)) <==> Harmless(row, v)
  {}

  /** The cap holds all along a run exactly when every turn of it is harmless. */
  lemma {:induction false} CapHoldsIff(row: Row, vs: seq<Turn>)
    requires WakeCapped(row)
    ensures (forall i :: 0 <= i <= |vs| ==> WakeCapped(WakeRun(row, vs[..i])))
       <==> (forall i :: 0 <= i < |vs| ==> Harmless(WakeRun(row, vs[..i]), vs[i]))
    decreases |vs|
  {
    if vs == [] {
      assert vs[..0] == [];
    } else {
      var init, v := vs[..|vs| - 1], vs[|vs| - 1];
      CapHoldsIff(row, init);
      assert forall i :: 0 <= i <= |init| ==> init[..i] == vs[..i];
      assert vs[..|vs|] == init + [v];
      WakeRunAppend(row, init, v);
      if WakeCapped(WakeRun(row, init)) { CapKeptIff(WakeRun(row, init), v); }
      hide WakeCapped, Harmless, WakeRow, WakeRun;
      PrefixesIff(row, vs);
    }
  }

  /** Both claims about a run are its prefix's and one about the last turn. */
  lemma PrefixesIff(row: Row, vs: seq<Turn>)
    requires vs != []
    ensures var init := vs[..|vs| - 1];
      (forall i :: 0 <= i <= |vs| ==> WakeCapped(WakeRun(row, vs[..i])))
      <==> (forall i :: 0 <= i <= |init| ==> WakeCapped(WakeRun(row, init[..i]))) && WakeCapped(WakeRun(row, vs))
    ensures var init := vs[..|vs| - 1];
      (forall i :: 0 <= i < |vs| ==> Harmless(WakeRun(row, vs[..i]), vs[i]))
      <==> (forall i :: 0 <= i < |init| ==> Harmless(WakeRun(row, init[..i]), init[i]))
           && Harmless(WakeRun(row, init), vs[|vs| - 1])
    ensures var init := vs[..|vs| - 1]; WakeRun(row, init) == WakeRun(row, init[..|init|])
  {
    hide WakeCapped, Harmless, WakeRun;
    var init := vs[..|vs| - 1];
    assert init[..|init|] == init && vs[..|vs|] == vs;
    assert forall i :: 0 <= i <= |init| ==> init[..i] == vs[..i];
  }

  /** What can be known before the handler is called: the cap is safe from every
      answer exactly when attempts are left or a pending row still backs off. */
  lemma HandlerSafeIff(row: Row, at: real)
    requires WakeCapped(row)
    ensures (forall v: Turn :: v.driver == ViaHandler && v.at == at ==> WakeCapped(WakeRow(row, v)))
       <==> (row.state != Deadletter && row.attempts <= 3) || (row.state == Pending && row.nextAt > at)
  {
    var no := Turn(ViaHandler, at, at, false, Result(false, "", "refused", NoAck), false, false);
    var yes := no.(before := true);
    CapKeptIff(row, no);
    CapKeptIff(row, yes);
  }

  // ----- deadlettered wakes -----

  /** Turns that leave a deadlettered wake row where it is. */
  predicate Quiet(row: Row, v: Turn) {
    v.driver != ViaHandler || v.lost || (!v.before && row.nextAt > v.at)
  }

  /** The handler does not know the deadletter: the row stays in it along a run
      exactly when every turn is another driver's, lost, or comes too early. */
  lemma {:induction false} DeadletterStaysIff(row: Row, vs: seq<Turn>)
    requires row.op == ScheduleWake && row.state == Deadletter
    ensures (forall i :: 0 <= i <= |vs| ==> WakeRun(row, vs[..i]).state == Deadletter)
       <==> (forall i :: 0 <= i < |vs| ==> Quiet(row, vs[i]))
    ensures (forall i :: 0 <= i < |vs| ==> Quiet(row, vs[i])) ==> WakeRun(row, vs) == row
    decreases |vs|
  {
    if vs == [] {
      assert vs[..0] == [];
    } else {
      var init, v := vs[..|vs| - 1], vs[|vs| - 1];
      DeadletterStaysIff(row, init);
      assert forall i :: 0 <= i <= |init| ==> init[..i] == vs[..i];
      assert vs == init + [v] && vs[..|vs|] == vs;
      WakeRunAppend(row, init, v);
      DeadletterTurn(row, v);
      hide WakeRow, WakeRun, Quiet;
      if forall i :: 0 <= i < |init| ==> Quiet(row, init[i]) {
        assert WakeRun(row, vs) == WakeRow(row, v);
      }
    }
  }

  lemma DeadletterTurn(row: Row, v: Turn)
    requires row.op == ScheduleWake && row.state == Deadletter
    ensures Quiet(row, v) ==> WakeRow(row, v) == row
    ensures !Quiet(row, v) ==> WakeRow(row, v).state != Deadletter && WakeRow(row, v).attempts == row.attempts + 1
  {}

  function Refused(driver: Driver, n: nat): Turn {
    Turn(driver, 300.0 * n as real, 300.0 * n as real, false, Result(false, "", "refused", NoAck), false, false)
  }

  /** n refused turns of one driver, 300 seconds apart. */
  function Nagging(driver: Driver, n: nat): seq<Turn> {
    if n == 0 then [] else Nagging(driver, n - 1) + [Refused(driver, n)]
  }

  /** From a fresh row: five refused passes over the outbox deadletter it, one turn
      of the handler brings it back with six attempts. */
  lemma DeadletterRevived(src: Source, step: Option<Key>, payload: Payload)
    ensures var row0 := FreshRow(src, step, ScheduleWake, payload);
      var dead := WakeRun(row0, Nagging(ViaReconcile, 5));
      var back := WakeRun(row0, Nagging(ViaReconcile, 5) + [Refused(ViaHandler, 6)]);
      && dead.state == Deadletter && dead.attempts == 5
      && back.state == Pending && back.attempts == 6
  {
    var row0 := FreshRow(src, step, ScheduleWake, payload);
    FiveRefusals(src, step, payload, 5);
    WakeRunAppend(row0, Nagging(ViaReconcile, 5), Refused(ViaHandler, 6));
  }

  lemma {:induction false} FiveRefusals(src: Source, step: Option<Key>, payload: Payload, n: nat)
    requires n <= 5
    ensures var row := WakeRun(FreshRow(src, step, ScheduleWake, payload), Nagging(ViaReconcile, n));
      && row.op == ScheduleWake && row.attempts == n && row.state == (if n < 5 then Pending else Deadletter)
      && row.nextAt <= 300.0 * (n + 1) as real && row.lastError != NOT_YET
  {
    if n > 0 {
      FiveRefusals(src, step, payload, n - 1);
      WakeRunAppend(FreshRow(src, step, ScheduleWake, payload), Nagging(ViaReconcile, n - 1), Refused(ViaReconcile, n));
      DelayBoundedMonotone(n, n);
    }
  }

  /** So no cap holds for rows that handler drives: n visits make n attempts. */
  lemma {:induction false} HandlerNeverGivesUp(src: Source, step: Option<Key>, payload: Payload, n: nat)
    ensures var row := WakeRun(FreshRow(src, step, ScheduleWake, payload), Nagging(ViaHandler, n));
      && row.state == Pending && row.attempts == n && row.op == ScheduleWake
      && row.nextAt <= 300.0 * (n + 1) as real && row.lastError != NOT_YET
  {
    var row0 := FreshRow(src, step, ScheduleWake, payload);
    if n > 0 {
      HandlerNeverGivesUp(src, step, payload, n - 1);
      WakeRunAppend(row0, Nagging(ViaHandler, n - 1), Refused(ViaHandler, n));
      DelayBoundedMonotone(n, n);
    }
  }
}
