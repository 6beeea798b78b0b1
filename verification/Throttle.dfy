/** The live-send throttle (live/throttle.py) inside dispatch_live (store.py):
    counts in fixed minute and hour buckets, checked at one clock reading and
    recorded at a later one. */
module Throttle {
  import opened Domain

  datatype Policy = Policy(
    enabled: bool, killSwitch: bool, allowed: set<string>, canary: set<string>,
    perMinute: nat, perTargetHour: nat)

  datatype Phase = Refused | Attempt | Failed | Delivered

  datatype Receipt = Receipt(job: string, phase: Phase, target: string, at: real, reason: string)

  /** A bucket's number: whole seconds divided by its width. */
  function Bucket(t: real, width: nat): int
    requires width > 0
  {
    t.Floor / width
  }

  lemma BucketHolds(t: real, width: nat)
    requires width > 0
    ensures (Bucket(t, width) * width) as real <= t < ((Bucket(t, width) + 1) * width) as real
  {
    var whole := t.Floor;
    var b := whole / width;
    assert whole == b * width + whole % width;
    assert (b + 1) * width == b * width + width;
    assert b * width <= whole < b * width + width;
  }

  /** Whether a receipt is an attempt in [lo, hi), for one target or for any. */
  predicate Hits(r: Receipt, target: Option<string>, lo: real, hi: real) {
    r.phase == Attempt && lo <= r.at < hi && (target.Some? ==> r.target == target.value)
  }

  function Count(rs: seq<Receipt>, target: Option<string>, lo: real, hi: real): nat {
    if rs == [] then 0
    else Count(rs[..|rs| - 1], target, lo, hi) + (if Hits(rs[|rs| - 1], target, lo, hi) then 1 else 0)
  }

  function InBucket(rs: seq<Receipt>, target: Option<string>, b: int, width: nat): nat {
    Count(rs, target, (b * width) as real, ((b + 1) * width) as real)
  }

  lemma {:induction false} CountNone(rs: seq<Receipt>, target: Option<string>, lo: real, hi: real)
    requires forall i :: 0 <= i < |rs| ==> !Hits(rs[i], target, lo, hi)
    ensures Count(rs, target, lo, hi) == 0
  {
    if rs != [] { CountNone(rs[..|rs| - 1], target, lo, hi); }
  }

  /** A stretch of time inside two that meet holds no more than both together. */
  lemma {:induction false} CountCovered(rs: seq<Receipt>, target: Option<string>, lo: real, hi: real,
                                        lo1: real, hi1: real, lo2: real, hi2: real)
    requires lo1 <= lo && lo2 <= hi1 && hi <= hi2
    ensures Count(rs, target, lo, hi) <= Count(rs, target, lo1, hi1) + Count(rs, target, lo2, hi2)
  {
    if rs != [] { CountCovered(rs[..|rs| - 1], target, lo, hi, lo1, hi1, lo2, hi2); }
  }

  /** No bucket holds more than its cap. */
  ghost predicate Capped(rs: seq<Receipt>, p: Policy) {
    && (forall b :: InBucket(rs, None, b, 60) <= p.perMinute)
    && (forall target, b :: InBucket(rs, Some(target), b, 3600) <= p.perTargetHour)
  }

  ghost predicate AttemptsBy(rs: seq<Receipt>, clock: real) {
    forall i :: 0 <= i < |rs| && rs[i].phase == Attempt ==> rs[i].at <= clock
  }

  lemma OtherReceipt(rs: seq<Receipt>, r: Receipt, p: Policy)
    requires Capped(rs, p) && r.phase != Attempt
    ensures Capped(rs + [r], p)
  {
    assert (rs + [r])[..|rs + [r]| - 1] == rs;
    forall target, b, w: nat ensures InBucket(rs + [r], target, b, w) == InBucket(rs, target, b, w) {}
  }

  /** The bucket counted at `now` leaves room for an attempt recorded at `at`: it
      is the same bucket, or a later one that is still empty. */
  lemma RoomLeft(rs: seq<Receipt>, r: Receipt, target: Option<string>, width: nat, now: real, cap: nat, b: int)
    requires width > 0 && AttemptsBy(rs, now) && r.phase == Attempt && now <= r.at
    requires InBucket(rs, target, b, width) <= cap
    requires target.Some? ==> r.target == target.value
    requires InBucket(rs, target, Bucket(now, width), width) < cap
    ensures InBucket(rs + [r], target, b, width) <= cap
  {
    assert (rs + [r])[..|rs + [r]| - 1] == rs;
    BucketHolds(now, width);
    BucketHolds(r.at, width);
    var lo, hi := (b * width) as real, ((b + 1) * width) as real;
    if lo <= r.at < hi && b != Bucket(now, width) {
      BucketsOrdered(b, Bucket(now, width), width);
      forall i | 0 <= i < |rs| ensures !Hits(rs[i], target, lo, hi) {}
      CountNone(rs, target, lo, hi);
    }
  }

  lemma BucketsOrdered(a: int, b: int, width: nat)
    requires a < b || b < a
    ensures a < b ==> (a + 1) * width <= b * width
    ensures b < a ==> (b + 1) * width <= a * width
  {
    if a < b { assert (b - (a + 1)) * width >= 0; } else { assert (a - (b + 1)) * width >= 0; }
  }

  lemma OtherTarget(rs: seq<Receipt>, r: Receipt, target: string, b: int, width: nat)
    requires r.target != target
    ensures InBucket(rs + [r], Some(target), b, width) == InBucket(rs, Some(target), b, width)
  {
    assert (rs + [r])[..|rs + [r]| - 1] == rs;
  }

  lemma AttemptKeeps(rs: seq<Receipt>, r: Receipt, p: Policy, now: real)
    requires Capped(rs, p) && AttemptsBy(rs, now) && r.phase == Attempt && now <= r.at
    requires InBucket(rs, None, Bucket(now, 60), 60) < p.perMinute
    requires InBucket(rs, Some(r.target), Bucket(now, 3600), 3600) < p.perTargetHour
    ensures Capped(rs + [r], p)
  {
    forall b ensures InBucket(rs + [r], None, b, 60) <= p.perMinute {
      RoomLeft(rs, r, None, 60, now, p.perMinute, b);
    }
    forall target, b ensures InBucket(rs + [r], Some(target), b, 3600) <= p.perTargetHour {
      if target == r.target {
        RoomLeft(rs, r, Some(target), 3600, now, p.perTargetHour, b);
      } else {
        OtherTarget(rs, r, target, b, 3600);
      }
    }
  }

  /** Any 60 seconds hold at most twice the minute cap, any hour at most twice a
      target's hourly cap. */
  lemma WindowBound(rs: seq<Receipt>, p: Policy, t: real, target: string)
    requires Capped(rs, p)
    ensures Count(rs, None, t, t + 60.0) <= 2 * p.perMinute
    ensures Count(rs, Some(target), t, t + 3600.0) <= 2 * p.perTargetHour
  {
    TwoBuckets(rs, None, t, 60);
    TwoBuckets(rs, Some(target), t, 3600);
  }

  lemma TwoBuckets(rs: seq<Receipt>, target: Option<string>, t: real, width: nat)
    requires width > 0
    ensures var b := Bucket(t, width);
      Count(rs, target, t, t + width as real) <= InBucket(rs, target, b, width) + InBucket(rs, target, b + 1, width)
  {
    BucketHolds(t, width);
    var b := Bucket(t, width);
    assert (b + 2) * width == (b + 1) * width + width;
    CountCovered(rs, target, t, t + width as real,
      (b * width) as real, ((b + 1) * width) as real, ((b + 1) * width) as real, ((b + 2) * width) as real);
  }

  // ----- dispatch_live -----

  datatype Delivery = Raises | Rejects | Delivers

  datatype DispatchResult = UnknownJob | DryRun | Denied(reason: string) | Sent | NotSent(reason: string)

  /** Attempts less deliveries of the last five minutes. */
  function Failures(rs: seq<Receipt>, since: real): int {
    if rs == [] then 0
    else
      var last, before := rs[|rs| - 1], Failures(rs[..|rs| - 1], since);
      if last.at < since then before
      else if last.phase == Attempt then before + 1
      else if last.phase == Delivered then before - 1
      else before
  }

  predicate Same(r: Receipt, job: string, phase: Phase, target: string) {
    r.job == job && r.phase == phase && r.target == target
  }

  class LiveStore {
    const policy: Policy
    /** The queued jobs and their targets. */
    var jobs: map<string, string>
    var receipts: seq<Receipt>
    /** Jobs whose idempotency key has been claimed by a delivery. */
    var delivered: set<string>
    var degraded: bool
    var clock: real

    ghost predicate Ok()
      reads this
    {
      Capped(receipts, policy) && AttemptsBy(receipts, clock)
    }

    constructor (policy: Policy, jobs: map<string, string>)
      ensures Ok() && this.policy == policy && this.jobs == jobs && receipts == []
    {
      this.policy, this.jobs, receipts, delivered, degraded, clock := policy, jobs, [], {}, false, 0.0;
    }

    method Time() returns (t: real)
      modifies this`clock
      ensures t == clock >= old(clock)
    {
      var dt: real :| dt >= 0.0;
      clock := clock + dt;
      t := clock;
    }

    /** check_throttle: the first reason that holds, if any. */
    method CheckThrottle(target: string, now: real) returns (refusal: string)
      ensures var minute := InBucket(receipts, None, Bucket(now, 60), 60);
        var hour := InBucket(receipts, Some(target), Bucket(now, 3600), 3600);
        && (refusal == "" <==> !degraded && minute < policy.perMinute && hour < policy.perTargetHour)
        && (refusal == "circuit_breaker_degraded" <==> degraded)
        && (refusal == "throttled_per_minute" <==> !degraded && minute >= policy.perMinute)
        && (refusal == "throttled_per_target_hour" <==>
             !degraded && minute < policy.perMinute && hour >= policy.perTargetHour)
    {
      var minute, hour := Bucket(now, 60), Bucket(now, 3600);
      if degraded { return "circuit_breaker_degraded"; }
      if Count(receipts, None, (minute * 60) as real, ((minute + 1) * 60) as real) >= policy.perMinute {
        return "throttled_per_minute";
      }
      if Count(receipts, Some(target), (hour * 3600) as real, ((hour + 1) * 3600) as real) >= policy.perTargetHour {
        return "throttled_per_target_hour";
      }
      return "";
    }

    method Record(job: string, phase: Phase, target: string, at: real, reason: string)
      requires Ok() && phase != Attempt
      modifies this`receipts
      ensures Ok() && receipts == old(receipts) + [Receipt(job, phase, target, at, reason)]
    {
      OtherReceipt(receipts, Receipt(job, phase, target, at, reason), policy);
      receipts := receipts + [Receipt(job, phase, target, at, reason)];
    }

    /** The gates before the throttle, in order; None when all are open. */
    function Gate(job: string, target: string): Option<string>
      reads this
    {
      if policy.killSwitch then Some("kill_switch")
      else if !policy.enabled then Some("live_dispatch_disabled")
      else if target !in policy.allowed || target !in policy.canary then Some("target_not_allowed")
      else if job in delivered then Some("duplicate")
      else None
    }

    /** dispatch_live: every attempt passed every gate and the throttle, and a job
        is delivered at most once. */
    method Dispatch(job: string, live: bool, gateway: bool) returns (r: DispatchResult)
      requires Ok()
      modifies this
      ensures Ok() && jobs == old(jobs) && old(receipts) <= receipts && old(delivered) <= delivered
      ensures clock >= old(clock)
      ensures (exists i :: |old(receipts)| <= i < |receipts| && receipts[i].phase == Attempt) ==>
        && live && gateway && job in old(jobs) && !old(degraded) && old(Gate(job, jobs[job])) == None
      ensures r == Sent ==> job !in old(delivered) && job in delivered
      ensures r != Sent ==> delivered == old(delivered)
      ensures old(degraded) ==> degraded
      ensures job !in old(jobs) ==> r == UnknownJob
      ensures job in old(jobs) && !live ==> r == DryRun
      ensures job in old(jobs) && live && old(Gate(job, jobs[job])).Some? ==>
        r == Denied(old(Gate(job, jobs[job])).value)
      ensures r == Sent || r.NotSent? ==>
        && |receipts| > |old(receipts)| && Same(receipts[|old(receipts)|], job, Attempt, old(jobs)[job])
        && Same(receipts[|receipts| - 1], job, if r == Sent then Delivered else Failed, old(jobs)[job])
      ensures r.Denied? ==>
        && |receipts| == |old(receipts)| + 1
        && receipts[|old(receipts)|] == Receipt(job, Refused, old(jobs)[job], clock, r.reason)
    {
      hide Capped, AttemptsBy, InBucket;
      var now := Time();
      AttemptsLater(receipts, old(clock), clock);
      if job !in jobs { return UnknownJob; }
      var target := jobs[job];
      if !live { return DryRun; }
      var gate := Gate(job, target);
      if gate.Some? {
        Refuse(job, target, gate.value);
        return Denied(gate.value);
      }
      var refusal := CheckThrottle(target, now);
      if refusal != "" {
        Refuse(job, target, refusal);
        return Denied(refusal);
      }
      if !gateway {
        Refuse(job, target, "gateway_unavailable");
        return Denied("gateway_unavailable");
      }
      r := Send(job, target, now);
    }

    /** The attempt receipt, the gateway call, and its outcome. */
    method Send(job: string, target: string, now: real) returns (r: DispatchResult)
      requires Ok() && AttemptsBy(receipts, now) && now <= clock
      requires InBucket(receipts, None, Bucket(now, 60), 60) < policy.perMinute
      requires InBucket(receipts, Some(target), Bucket(now, 3600), 3600) < policy.perTargetHour
      modifies this
      ensures Ok() && jobs == old(jobs) && old(receipts) <= receipts && clock >= old(clock)
      ensures |receipts| > |old(receipts)| && Same(receipts[|old(receipts)|], job, Attempt, target)
      ensures Same(receipts[|receipts| - 1], job, if r == Sent then Delivered else Failed, target)
      ensures r == Sent ==> delivered == old(delivered) + {job}
      ensures r != Sent ==> delivered == old(delivered) && r.NotSent?
      ensures |receipts| >= |old(receipts)| + 2
      // three attempts without a delivery in five minutes open the breaker
      ensures degraded == (old(degraded)
        || (r.NotSent? && Failures(receipts[..|old(receipts)| + 2], now - 300.0) >= 3))
    {
      hide Capped, AttemptsBy, InBucket, Failures;
      ghost var before := clock;
      var at := Time();
      AttemptsLater(receipts, now, before);
      AttemptKeeps(receipts, Receipt(job, Attempt, target, at, ""), policy, now);
      AttemptNow(receipts, Receipt(job, Attempt, target, at, ""), before, at);
      receipts := receipts + [Receipt(job, Attempt, target, at, "")];
      var delivery: Delivery := *;
      if delivery != Delivers {
        Record(job, Failed, target, now, "gateway_failure");
        ghost var failed := receipts;
        if Failures(receipts, now - 300.0) >= 3 { degraded := true; }
        var reason := if delivery == Raises then "gateway_failure" else "delivery_failed";
        var later := Time();
        AttemptsLater(receipts, at, clock);
        Record(job, Failed, target, later, reason);
        assert receipts[..|failed|] == failed;
        return NotSent(reason);
      }
      delivered := delivered + {job};
      var later := Time();
      AttemptsLater(receipts, at, clock);
      Record(job, Delivered, target, later, "delivered");
      return Sent;
    }

    method Refuse(job: string, target: string, reason: string)
      requires Ok()
      modifies this`receipts, this`clock
      ensures Ok() && clock >= old(clock)
      ensures receipts == old(receipts) + [Receipt(job, Refused, target, clock, reason)]
    {
      hide Capped, AttemptsBy;
      var at := Time();
      AttemptsLater(receipts, old(clock), clock);
      Record(job, Refused, target, at, reason);
    }

    /** Any sequence of dispatches keeps every bucket within its cap. */
    method Run(calls: seq<(string, bool, bool)>)
      requires Ok()
      modifies this
      ensures Ok() && old(receipts) <= receipts
    {
      hide Ok;
      for n := 0 to |calls|
        invariant Ok() && old(receipts) <= receipts
      {
        var r := Dispatch(calls[n].0, calls[n].1, calls[n].2);
      }
    }
  }

  lemma AttemptsLater(rs: seq<Receipt>, a: real, b: real)
    requires AttemptsBy(rs, a) && a <= b
    ensures AttemptsBy(rs, b)
  {}

  lemma AttemptNow(rs: seq<Receipt>, r: Receipt, a: real, b: real)
    requires AttemptsBy(rs, a) && a <= b && r.at == b
    ensures AttemptsBy(rs + [r], b)
  {}
}
