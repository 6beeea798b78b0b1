/** The bounded backoff of one outbox row (continuations/base.py). */
module Backoff {
  import opened Domain
  import opened Store
  import opened Adapter

  function Pow2(n: nat): nat { if n == 0 then 1 else 2 * Pow2(n - 1) }

  function Min(a: int, b: int): int { if a < b then a else b }

  /** min(300, max(5, 5 * 2 ** min(attempts_after - 1, 6))) seconds. */
  function Delay(attemptsAfter: nat): real
    requires attemptsAfter >= 1
  {
    var raw := 5.0 * Pow2(Min(attemptsAfter - 1, 6)) as real;
    var floored := if raw < 5.0 then 5.0 else raw;
    if floored > 300.0 then 300.0 else floored
  }

  lemma DelayValues()
    ensures Delay(1) == 5.0 && Delay(2) == 10.0 && Delay(3) == 20.0
    ensures Delay(4) == 40.0 && Delay(5) == 80.0 && Delay(6) == 160.0
    ensures forall n :: n >= 7 ==> Delay(n) == 300.0
  {
    assert Pow2(0) == 1 && Pow2(1) == 2 && Pow2(2) == 4 && Pow2(3) == 8;
    assert Pow2(4) == 16 && Pow2(5) == 32 && Pow2(6) == 64;
  }

  lemma DelayBoundedMonotone(m: nat, n: nat)
    requires 1 <= m <= n
    ensures 5.0 <= Delay(m) <= Delay(n) <= 300.0
  {
    DelayValues();
    assert m == 1 || m == 2 || m == 3 || m == 4 || m == 5 || m == 6 || m >= 7;
    assert n == 1 || n == 2 || n == 3 || n == 4 || n == 5 || n == 6 || n >= 7;
  }

  /** The least time between the first recorded attempt and one made after n. */
  function Span(n: nat): real { if n == 0 then 0.0 else Span(n - 1) + Delay(n) }

  lemma {:induction false} SpanValues(n: nat)
    ensures Span(1) == 5.0 && Span(2) == 15.0 && Span(3) == 35.0
    ensures Span(4) == 75.0 && Span(5) == 155.0 && Span(6) == 315.0
    ensures n >= 6 ==> Span(n) == 315.0 + 300.0 * (n - 6) as real
  {
    DelayValues();
    assert Span(1) == 5.0;
    assert Span(2) == 15.0;
    assert Span(3) == 35.0;
    assert Span(4) == 75.0;
    assert Span(5) == 155.0;
    if n > 6 { SpanValues(n - 1); }
  }

  predicate Due(row: Row, at: real) { row.state == Pending && row.nextAt <= at }

  function Visit(row: Row, t: Try): Row {
    if !Due(row, t.at) || t.lost then row
    else if t.ok then Marked(row, Applied, t.task, 0.0, "")
    else Marked(row, Pending, "", t.mark + Delay(row.attempts + 1), t.error)
  }

  function VisitAll(row: Row, ts: seq<Try>): Row
    decreases |ts|
  {
    if ts == [] then row else VisitAll(Visit(row, ts[0]), ts[1..])
  }

  lemma {:induction false} VisitAllAppend(row: Row, ts: seq<Try>, t: Try)
    ensures VisitAll(row, ts + [t]) == Visit(VisitAll(row, ts), t)
    decreases |ts|
  {
    hide Visit;
    if ts == [] {
      assert (ts + [t])[1..] == [];
    } else {
      assert (ts + [t])[1..] == ts[1..] + [t];
      VisitAllAppend(Visit(row, ts[0]), ts[1..], t);
    }
  }

  /** Clock readings never go back. */
  predicate Ordered(ts: seq<Try>) {
    && (forall i :: 0 <= i < |ts| ==> ts[i].at <= ts[i].mark)
    && (forall i :: 0 < i < |ts| ==> ts[i - 1].mark <= ts[i].at)
  }

  /** When the first attempt that was recorded was made. */
  function FirstRecorded(row: Row, ts: seq<Try>): Option<real>
    decreases |ts|
  {
    if ts == [] then None
    else if Due(row, ts[0].at) && !ts[0].lost then Some(ts[0].at)
    else FirstRecorded(row, ts[1..])
  }

  lemma {:induction false} BackoffHolds(row: Row, ts: seq<Try>, first: real)
    requires Ordered(ts)
    requires row.attempts >= 1 && (row.state == Pending ==> row.nextAt >= first + Span(row.attempts))
    ensures var r := VisitAll(row, ts);
      r.attempts >= 1 && (r.state == Pending ==> r.nextAt >= first + Span(r.attempts))
    decreases |ts|
  {
    if ts != [] {
      BackoffHolds(Visit(row, ts[0]), ts[1..], first);
    }
  }

  lemma {:induction false} FirstAttempt(row: Row, ts: seq<Try>)
    requires Ordered(ts)
    requires row.attempts == 0 && row.state == Pending && row.nextAt == 0.0
    ensures var r := VisitAll(row, ts);
      match FirstRecorded(row, ts)
      case None => r == row
      case Some(first) => r.attempts >= 1 && (r.state == Pending ==> r.nextAt >= first + Span(r.attempts))
    decreases |ts|
  {
    if ts != [] {
      if Due(row, ts[0].at) && !ts[0].lost {
        assert Span(1) == Span(0) + Delay(1);
        BackoffHolds(Visit(row, ts[0]), ts[1..], ts[0].at);
      } else {
        FirstAttempt(row, ts[1..]);
      }
    }
  }

  /** However the drivers interleave and crash, an attempt made on a fresh row
      after n recorded ones comes at least Span(n) seconds after the first. */
  lemma AttemptsAreSpaced(src: Source, step: Option<Key>, op: Operation, payload: Payload, ts: seq<Try>, at: real)
    requires Ordered(ts)
    requires Due(VisitAll(FreshRow(src, step, op, payload), ts), at)
    ensures var row0 := FreshRow(src, step, op, payload);
      match FirstRecorded(row0, ts)
      case None => VisitAll(row0, ts) == row0
      case Some(first) => at >= first + Span(VisitAll(row0, ts).attempts)
  {
    FirstAttempt(FreshRow(src, step, op, payload), ts);
  }
}
