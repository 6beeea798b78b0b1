/** The bounded remediation loop (loop_supervisor.py): every counter is recomputed
    from an append-only receipt list, and the receipts bound what may follow. */
module LoopSupervisor {
  import opened Domain

  datatype Mode = Disabled | ObserveOnly | RequestOnly | ApplyMode

  datatype Policy = Policy(
    mode: Mode, applyEnabled: bool, killSwitch: bool, allowlist: set<string>,
    maxRounds: nat, maxSameBlocker: nat, cooldown: nat,
    requireSubscription: bool, requireOrigin: bool, requirePolicyRef: bool,
    expectedOrigin: string, expectedReturnTo: string)

  /** None stands for a policy object the coercion rejects. */
  type PolicyInput = Option<Policy>

  /** An event as evaluated: verdict and blocker are the explicit ones or those
      parsed from the summary, `at` is its time or the clock's. `resolves` says
      whether a final-vN candidate can be resolved for it. */
  datatype LoopEvent = LoopEvent(
    id: string, graph: string, eventType: string, bothCards: bool, verdict: string, blocker: string,
    origin: string, returnTo: string, subscription: string, policyRef: string,
    roundNo: int, at: real, oldFinal: string, review: string, resolves: bool)

  datatype Action = Noop | Escalate | Stabilize | Propose | Apply | Supersede

  datatype Receipt = Receipt(
    eventId: string, graph: string, blocker: string, roundNo: int, finalVn: int,
    decision: Action, key: string, at: real, reason: string)

  const STALE_FINAL := "stale_final_fanin"

  function StoredId(id: string): string { if id == "" then "missing_event_id" else id }
  function StoredGraph(graph: string): string { if graph == "" then "unknown_graph" else graph }

  function ActionName(a: Action): string {
    match a
    case Noop => "noop" case Escalate => "escalate" case Stabilize => "stabilize"
    case Propose => "propose" case Apply => "apply" case Supersede => "supersede"
  }

  predicate ApplyOpen(p: Policy) { p.mode == ApplyMode && p.applyEnabled }

  predicate OriginOk(e: LoopEvent, p: Policy) {
    !p.requireOrigin
    || ((p.expectedOrigin != "" ==> e.origin == p.expectedOrigin)
        && (p.expectedReturnTo != "" ==> e.returnTo == p.expectedReturnTo))
  }

  // ----- what the ledger answers -----

  predicate Acts(a: Action) { a == Propose || a == Apply || a == Supersede }
  predicate Remedial(a: Action) { a == Propose || a == Apply }

  predicate HasEvent(rs: seq<Receipt>, id: string) {
    exists i :: 0 <= i < |rs| && rs[i].eventId == id
  }

  predicate HasKey(rs: seq<Receipt>, key: string) {
    exists i :: 0 <= i < |rs| && rs[i].key == key
  }

  predicate ActsOn(r: Receipt, graph: string, blocker: string) {
    r.graph == graph && r.blocker == blocker && Acts(r.decision)
  }

  function CountBlocker(rs: seq<Receipt>, graph: string, blocker: string): nat {
    if rs == [] then 0
    else CountBlocker(rs[..|rs| - 1], graph, blocker) + (if ActsOn(rs[|rs| - 1], graph, blocker) then 1 else 0)
  }

  function Rounds(rs: seq<Receipt>, graph: string): Option<int> {
    if rs == [] then None
    else
      var last, before := rs[|rs| - 1], Rounds(rs[..|rs| - 1], graph);
      if last.graph != graph then before
      else if before.Some? && before.value >= last.roundNo then before
      else Some(last.roundNo)
  }

  function MaxRound(rs: seq<Receipt>, graph: string): int {
    match Rounds(rs, graph) case None => 0 case Some(n) => n
  }

  function LastAt(rs: seq<Receipt>, graph: string, blocker: string): Option<real> {
    if rs == [] then None
    else
      var last, before := rs[|rs| - 1], LastAt(rs[..|rs| - 1], graph, blocker);
      if !ActsOn(last, graph, blocker) then before
      else if before.Some? && before.value >= last.at then before
      else Some(last.at)
  }

  function Versions(rs: seq<Receipt>, graph: string): Option<int> {
    if rs == [] then None
    else
      var last, before := rs[|rs| - 1], Versions(rs[..|rs| - 1], graph);
      if last.graph != graph then before
      else if before.Some? && before.value >= last.finalVn then before
      else Some(last.finalVn)
  }

  function FinalVn(rs: seq<Receipt>, graph: string): int {
    match Versions(rs, graph) case None => 1 case Some(n) => n
  }

  // ----- one evaluation -----

  function ReceiptOf(e: LoopEvent, a: Action, reason: string, blocker: string, round: int, vn: int, key: string): Receipt {
    Receipt(StoredId(e.id), StoredGraph(e.graph), blocker, round, vn, a,
      if key != "" then key
      else "loop:" + ActionName(a) + ":" + StoredGraph(e.graph) + ":" + StoredId(e.id),
      e.at, reason)
  }

  /** A decision that carries no counters of its own. */
  function Plain(e: LoopEvent, a: Action, reason: string, blocker: string): Receipt {
    ReceiptOf(e, a, reason, blocker, e.roundNo, 1, "")
  }

  function SupersessionKey(e: LoopEvent): string {
    "loop:final-vN:" + StoredGraph(e.graph) + ":" + e.oldFinal + ":" + e.review
  }

  function DecideSupersession(rs: seq<Receipt>, e: LoopEvent, p: Policy): (r: Receipt)
    ensures r.eventId == StoredId(e.id) && r.graph == StoredGraph(e.graph) && r.roundNo >= e.roundNo
    ensures r.decision == Noop || r.decision == Escalate || r.decision == Supersede
  {
    if STALE_FINAL !in p.allowlist then Plain(e, Escalate, "blocker_not_allowlisted", STALE_FINAL)
    else if p.requirePolicyRef && e.policyRef == "" then Plain(e, Escalate, "policy_resolution_missing", STALE_FINAL)
    else if p.requireSubscription && e.subscription != "verified" then
      Plain(e, Escalate, "subscription_unverified", STALE_FINAL)
    else if e.oldFinal == "" || e.review == "" then
      Plain(e, Escalate, "supersession_provenance_missing", STALE_FINAL)
    else if p.mode == ApplyMode && !ApplyOpen(p) then
      Plain(e, Escalate, "apply_disabled_by_policy", STALE_FINAL)
    else if HasKey(rs, SupersessionKey(e)) then
      ReceiptOf(e, Noop, "existing_supersession", STALE_FINAL, e.roundNo, 1, SupersessionKey(e))
    else if !e.resolves then Plain(e, Escalate, "supersession_failed", STALE_FINAL)
    else
      ReceiptOf(e, Supersede, "final_vn_proposal", STALE_FINAL, e.roundNo, FinalVn(rs, e.graph) + 1, SupersessionKey(e))
  }

  function Max(a: int, b: int): int { if a > b then a else b }

  predicate Cooling(rs: seq<Receipt>, e: LoopEvent, p: Policy) {
    var last := LastAt(rs, e.graph, e.blocker);
    last.Some? && e.at - last.value < p.cooldown as real
  }

  function DecideBlock(rs: seq<Receipt>, e: LoopEvent, p: Policy): (r: Receipt)
    ensures r.eventId == StoredId(e.id) && r.graph == StoredGraph(e.graph) && r.roundNo >= e.roundNo
    ensures r.finalVn == 1 && r.decision != Supersede
  {
    if e.blocker == "" then Plain(e, Escalate, "unknown_blocker", "")
    else if e.blocker !in p.allowlist then Plain(e, Escalate, "blocker_not_allowlisted", e.blocker)
    else if p.requirePolicyRef && e.policyRef == "" then Plain(e, Escalate, "policy_resolution_missing", e.blocker)
    else if p.requireSubscription && e.subscription != "verified" then
      Plain(e, Escalate, "subscription_unverified", e.blocker)
    else if Max(e.roundNo, MaxRound(rs, e.graph)) >= p.maxRounds then Plain(e, Escalate, "max_rounds", e.blocker)
    else if CountBlocker(rs, e.graph, e.blocker) >= p.maxSameBlocker then
      Plain(e, Escalate, "max_same_blocker", e.blocker)
    else if Cooling(rs, e, p) then Plain(e, Noop, "cooldown", e.blocker)
    else if p.mode == ObserveOnly then Plain(e, Noop, "observe_only", e.blocker)
    else if p.mode == ApplyMode && !ApplyOpen(p) then Plain(e, Escalate, "apply_disabled_by_policy", e.blocker)
    else
      ReceiptOf(e, if ApplyOpen(p) then Apply else Propose, "bounded_remediation", e.blocker,
        Max(e.roundNo, MaxRound(rs, e.graph)) + 1, 1, "")
  }

  predicate IsSupersession(e: LoopEvent) {
    e.eventType == "remediation_review_go" || e.eventType == "stale_final_block" || e.bothCards
  }

  /** The receipt an event that is not a duplicate leaves behind. */
  function Decide(rs: seq<Receipt>, e: LoopEvent, input: PolicyInput): (r: Receipt)
    ensures r.eventId == StoredId(e.id) && r.graph == StoredGraph(e.graph) && r.roundNo >= e.roundNo
  {
    match input
    case None => Plain(e, Escalate, "malformed_policy", "")
    case Some(p) =>
      if p.killSwitch then Plain(e, Escalate, "kill_switch", "")
      else if p.mode == Disabled then Plain(e, Noop, "disabled", "")
      else if !OriginOk(e, p) then Plain(e, Escalate, "foreign_origin", "")
      else if IsSupersession(e) then DecideSupersession(rs, e, p)
      else if e.verdict == "GO" then Plain(e, Stabilize, "go_terminal", "")
      else if e.verdict == "NEED_MORE" then Plain(e, Escalate, "needs_input", "")
      else if e.verdict != "BLOCK" then Plain(e, Escalate, "unknown_verdict", "")
      else DecideBlock(rs, e, p)
  }

  // ----- the gates, in no particular order -----

  predicate EvidenceOk(e: LoopEvent, p: Policy) {
    (p.requirePolicyRef ==> e.policyRef != "") && (p.requireSubscription ==> e.subscription == "verified")
  }

  /** The policy is one at all, runs, and knows the event's origin. */
  predicate Open(e: LoopEvent, input: PolicyInput) {
    input.Some? && !input.value.killSwitch && input.value.mode != Disabled && OriginOk(e, input.value)
  }

  /** No round number of the graph has reached the cap; a graph without receipts
      counts as round 0. */
  ghost predicate RoundsLeft(rs: seq<Receipt>, e: LoopEvent, p: Policy) {
    && e.roundNo < p.maxRounds
    && (forall i :: 0 <= i < |rs| && rs[i].graph == e.graph ==> rs[i].roundNo < p.maxRounds)
    && ((forall i :: 0 <= i < |rs| ==> rs[i].graph != e.graph) ==> 0 < p.maxRounds)
  }

  /** Where the acting receipts of one blocker of one graph stand in the ledger. */
  function Actions(rs: seq<Receipt>, graph: string, blocker: string): set<nat> {
    set i: nat | i < |rs| && ActsOn(rs[i], graph, blocker)
  }

  ghost predicate Rested(rs: seq<Receipt>, e: LoopEvent, p: Policy) {
    forall i :: 0 <= i < |rs| && ActsOn(rs[i], e.graph, e.blocker) ==> e.at - rs[i].at >= p.cooldown as real
  }

  /** What lets a BLOCK event act, in terms of what is in the ledger. */
  ghost predicate BlockOpen(rs: seq<Receipt>, e: LoopEvent, p: Policy) {
    && p.mode != ObserveOnly && (p.mode == ApplyMode ==> ApplyOpen(p)) && EvidenceOk(e, p)
    && e.blocker != "" && e.blocker in p.allowlist
    && RoundsLeft(rs, e, p) && |Actions(rs, e.graph, e.blocker)| < p.maxSameBlocker && Rested(rs, e, p)
  }

  lemma {:induction false} RoundsMean(rs: seq<Receipt>, graph: string)
    ensures forall i :: 0 <= i < |rs| && rs[i].graph == graph ==> rs[i].roundNo <= MaxRound(rs, graph)
    ensures if Rounds(rs, graph).None? then forall i :: 0 <= i < |rs| ==> rs[i].graph != graph
      else exists i :: 0 <= i < |rs| && rs[i].graph == graph && rs[i].roundNo == MaxRound(rs, graph)
  {
    if rs != [] {
      var init := rs[..|rs| - 1];
      RoundsMean(init, graph);
      assert forall i :: 0 <= i < |init| ==> init[i] == rs[i];
    }
  }

  lemma {:induction false} ActionsMean(rs: seq<Receipt>, graph: string, blocker: string)
    ensures CountBlocker(rs, graph, blocker) == |Actions(rs, graph, blocker)|
  {
    if rs == [] {
      assert Actions(rs, graph, blocker) == {};
    } else {
      var init, n := rs[..|rs| - 1], |rs| - 1;
      ActionsMean(init, graph, blocker);
      assert Actions(rs, graph, blocker)
          == Actions(init, graph, blocker) + (if ActsOn(rs[n], graph, blocker) then {n} else {});
    }
  }

  lemma {:induction false} LastAtMeans(rs: seq<Receipt>, graph: string, blocker: string)
    ensures forall i :: 0 <= i < |rs| && ActsOn(rs[i], graph, blocker) ==>
      LastAt(rs, graph, blocker).Some? && rs[i].at <= LastAt(rs, graph, blocker).value
    ensures LastAt(rs, graph, blocker).Some? ==>
      exists i :: 0 <= i < |rs| && ActsOn(rs[i], graph, blocker) && rs[i].at == LastAt(rs, graph, blocker).value
  {
    if rs != [] {
      var init := rs[..|rs| - 1];
      LastAtMeans(init, graph, blocker);
      assert forall i :: 0 <= i < |init| ==> init[i] == rs[i];
    }
  }

  lemma CountersMean(rs: seq<Receipt>, e: LoopEvent, p: Policy)
    ensures Max(e.roundNo, MaxRound(rs, e.graph)) < p.maxRounds <==> RoundsLeft(rs, e, p)
    ensures CountBlocker(rs, e.graph, e.blocker) == |Actions(rs, e.graph, e.blocker)|
    ensures Cooling(rs, e, p) <==> !Rested(rs, e, p)
  {
    RoundsMean(rs, e.graph);
    ActionsMean(rs, e.graph, e.blocker);
    LastAtMeans(rs, e.graph, e.blocker);
  }

  lemma BlockIff(rs: seq<Receipt>, e: LoopEvent, p: Policy)
    ensures var r := DecideBlock(rs, e, p);
      && (Remedial(r.decision) <==> BlockOpen(rs, e, p))
      && (Remedial(r.decision) ==>
           && r.blocker == e.blocker && r.at == e.at && e.roundNo < r.roundNo <= p.maxRounds
           && forall i :: 0 <= i < |rs| && rs[i].graph == e.graph ==> rs[i].roundNo < r.roundNo)
      && (!Remedial(r.decision) ==> r.roundNo == e.roundNo && (r.decision == Noop || r.decision == Escalate))
  {
    CountersMean(rs, e, p);
    RoundsMean(rs, e.graph);
    hide CountBlocker, MaxRound, Cooling, RoundsLeft, Rested, Actions;
  }

  lemma ActsByMode(rs: seq<Receipt>, e: LoopEvent, p: Policy)
    ensures DecideBlock(rs, e, p).decision == Apply ==> ApplyOpen(p)
    ensures DecideBlock(rs, e, p).decision == Propose ==> p.mode == RequestOnly || p.mode == Disabled
  {
    hide CountBlocker, MaxRound, Cooling;
  }

  /** Exactly when an event is remediated, and that it is applied only in apply
      mode with apply switched on. */
  lemma RemediatesIff(rs: seq<Receipt>, e: LoopEvent, input: PolicyInput)
    ensures Remedial(Decide(rs, e, input).decision)
       <==> Open(e, input) && !IsSupersession(e) && e.verdict == "BLOCK" && BlockOpen(rs, e, input.value)
    ensures Decide(rs, e, input).decision == Apply ==> ApplyOpen(input.value)
    ensures Decide(rs, e, input).decision == Propose ==> input.value.mode == RequestOnly
  {
    hide DecideSupersession, DecideBlock, OriginOk, IsSupersession, BlockOpen;
    if input.Some? {
      BlockIff(rs, e, input.value);
      ActsByMode(rs, e, input.value);
    }
  }

  /** Exactly when a supersession is granted: also while only observing. */
  lemma SupersedesIff(rs: seq<Receipt>, e: LoopEvent, input: PolicyInput)
    ensures Decide(rs, e, input).decision == Supersede <==>
      && Open(e, input) && IsSupersession(e) && e.resolves && e.oldFinal != "" && e.review != ""
      && var p := input.value;
        && (p.mode == ApplyMode ==> p.applyEnabled) && EvidenceOk(e, p)
        && STALE_FINAL in p.allowlist && !HasKey(rs, SupersessionKey(e))
  {
    hide DecideBlock, OriginOk, IsSupersession, HasKey, FinalVn, SupersessionKey;
  }

  /** So a mode that is to propose nothing does propose a final version. */
  lemma ObserveOnlyGrants()
    ensures exists e: LoopEvent, p: Policy :: p.mode == ObserveOnly && Decide([], e, Some(p)).decision == Supersede
  {
    var e := LoopEvent("e", "g", "stale_final_block", false, "", "", "", "", "", "", 0, 0.0, "final", "review", true);
    var p := Policy(ObserveOnly, false, false, {STALE_FINAL}, 3, 2, 0, false, false, false, "", "");
    SupersedesIff([], e, Some(p));
    assert p.mode == ObserveOnly && Decide([], e, Some(p)).decision == Supersede;
  }

  function Evaluated(rs: seq<Receipt>, e: LoopEvent, input: PolicyInput): seq<Receipt> {
    if HasEvent(rs, e.id) then rs else rs + [Decide(rs, e, input)]
  }

  /** The ledger after a stream of events. */
  function Stream(es: seq<LoopEvent>, input: PolicyInput): seq<Receipt> {
    if es == [] then []
    else Evaluated(Stream(es[..|es| - 1], input), es[|es| - 1], input)
  }

  class LoopLedger {
    var receipts: seq<Receipt>

    constructor ()
      ensures receipts == []
    {
      receipts := [];
    }

    /** last_action_time. */
    method LastActionTime(graph: string, blocker: string) returns (latest: Option<real>)
      ensures latest == LastAt(receipts, graph, blocker)
    {
      latest := None;
      for i := 0 to |receipts|
        invariant latest == LastAt(receipts[..i], graph, blocker)
      {
        var r := receipts[i];
        assert receipts[..i + 1][..i] == receipts[..i];
        if ActsOn(r, graph, blocker) {
          latest := if latest.Some? && latest.value >= r.at then latest else Some(r.at);
        }
      }
      assert receipts[..|receipts|] == receipts;
    }

    /** The bounded-remediation branch: it acts exactly when the block is open, and
        an action takes a round above every earlier one of its graph. */
    method EvaluateBlock(e: LoopEvent, p: Policy) returns (r: Receipt)
      ensures r == DecideBlock(receipts, e, p)
      ensures Remedial(r.decision) <==> BlockOpen(receipts, e, p)
      ensures Remedial(r.decision) ==>
        && r.blocker == e.blocker && r.at == e.at && e.roundNo < r.roundNo <= p.maxRounds
        && (forall i :: 0 <= i < |receipts| && receipts[i].graph == e.graph ==> receipts[i].roundNo < r.roundNo)
      ensures !Remedial(r.decision) ==> r.roundNo == e.roundNo && (r.decision == Noop || r.decision == Escalate)
    {
      BlockIff(receipts, e, p);
      hide CountBlocker, MaxRound, BlockOpen;
      if e.blocker == "" { return Plain(e, Escalate, "unknown_blocker", ""); }
      if e.blocker !in p.allowlist { return Plain(e, Escalate, "blocker_not_allowlisted", e.blocker); }
      if p.requirePolicyRef && e.policyRef == "" {
        return Plain(e, Escalate, "policy_resolution_missing", e.blocker);
      }
      if p.requireSubscription && e.subscription != "verified" {
        return Plain(e, Escalate, "subscription_unverified", e.blocker);
      }
      var round := Max(e.roundNo, MaxRound(receipts, e.graph));
      if round >= p.maxRounds { return Plain(e, Escalate, "max_rounds", e.blocker); }
      if CountBlocker(receipts, e.graph, e.blocker) >= p.maxSameBlocker {
        return Plain(e, Escalate, "max_same_blocker", e.blocker);
      }
      var last := LastActionTime(e.graph, e.blocker);
      if last.Some? && e.at - last.value < p.cooldown as real { return Plain(e, Noop, "cooldown", e.blocker); }
      if p.mode == ObserveOnly { return Plain(e, Noop, "observe_only", e.blocker); }
      if p.mode == ApplyMode && !ApplyOpen(p) { return Plain(e, Escalate, "apply_disabled_by_policy", e.blocker); }
      var action := if ApplyOpen(p) then Apply else Propose;
      r := ReceiptOf(e, action, "bounded_remediation", e.blocker, round + 1, 1, "");
    }

    /** evaluate_loop_event: one receipt per new event, none for a known one. */
    method Evaluate(e: LoopEvent, input: PolicyInput) returns (action: Action, reason: string)
      modifies this
      ensures receipts == Evaluated(old(receipts), e, input)
      ensures HasEvent(old(receipts), e.id) ==> action == Noop && reason == "duplicate_event"
      ensures !HasEvent(old(receipts), e.id) ==>
        action == receipts[|receipts| - 1].decision && reason == receipts[|receipts| - 1].reason
    {
      if HasEvent(receipts, e.id) { return Noop, "duplicate_event"; }
      var r;
      if input.Some? && !input.value.killSwitch && input.value.mode != Disabled && OriginOk(e, input.value)
         && !IsSupersession(e) && e.verdict == "BLOCK"
      {
        r := EvaluateBlock(e, input.value);
      } else {
        r := Decide(receipts, e, input);
      }
      receipts := receipts + [r];
      return r.decision, r.reason;
    }
  }

  // ----- every receipt was decided on the ones before it -----

  ghost predicate DecidedAt(rs: seq<Receipt>, j: nat, e: LoopEvent, input: PolicyInput)
    requires j < |rs|
  {
    rs[j] == Decide(rs[..j], e, input)
  }

  ghost predicate Decided(rs: seq<Receipt>, j: nat, es: seq<LoopEvent>, input: PolicyInput)
    requires j < |rs|
  {
    exists e :: e in es && DecidedAt(rs, j, e, input)
  }

  ghost predicate Grown(rs: seq<Receipt>, es: seq<LoopEvent>, input: PolicyInput) {
    forall j :: 0 <= j < |rs| ==> Decided(rs, j, es, input)
  }

  lemma DecidedStays(rs: seq<Receipt>, rs': seq<Receipt>, j: nat, es: seq<LoopEvent>, es': seq<LoopEvent>, input: PolicyInput)
    requires j < |rs| <= |rs'| && rs'[..j + 1] == rs[..j + 1]
    requires Decided(rs, j, es, input) && forall e :: e in es ==> e in es'
    ensures Decided(rs', j, es', input)
  {
    hide Decide;
    var e :| e in es && DecidedAt(rs, j, e, input);
    assert rs'[..j] == rs'[..j + 1][..j] && rs[..j] == rs[..j + 1][..j];
    assert rs'[j] == rs'[..j + 1][j] && rs[j] == rs[..j + 1][j];
    assert DecidedAt(rs', j, e, input);
  }

  lemma {:induction false} StreamGrown(es: seq<LoopEvent>, input: PolicyInput)
    ensures Grown(Stream(es, input), es, input)
  {
    hide Decide, HasEvent, Decided;
    if es != [] {
      var init, e := es[..|es| - 1], es[|es| - 1];
      StreamGrown(init, input);
      var rs0, rs := Stream(init, input), Stream(es, input);
      forall j | 0 <= j < |rs| ensures Decided(rs, j, es, input) {
        if j < |rs0| {
          DecidedStays(rs0, rs, j, init, es, input);
        } else {
          assert rs[..j] == rs0;
          DecidedNow(rs, j, e, es, input);
        }
      }
    }
  }

  lemma DecidedNow(rs: seq<Receipt>, j: nat, e: LoopEvent, es: seq<LoopEvent>, input: PolicyInput)
    requires j < |rs| && e in es && rs[j] == Decide(rs[..j], e, input)
    ensures Decided(rs, j, es, input)
  {
    hide Decide;
    assert DecidedAt(rs, j, e, input);
  }

  /** No event of the stream can write under this graph name for another. */
  predicate Unshared(es: seq<LoopEvent>, graph: string) {
    graph == "unknown_graph" ==> forall e :: e in es ==> e.graph != ""
  }

  /** What a remediation receipt says about the ledger it was decided on. */
  lemma RemedialAt(rs: seq<Receipt>, j: nat, es: seq<LoopEvent>, p: Policy) returns (e: LoopEvent)
    requires j < |rs| && Grown(rs, es, Some(p)) && Remedial(rs[j].decision) && Unshared(es, rs[j].graph)
    ensures e in es && e.graph == rs[j].graph && e.blocker == rs[j].blocker && e.at == rs[j].at
    ensures rs[j].roundNo == Max(e.roundNo, MaxRound(rs[..j], e.graph)) + 1 <= p.maxRounds
    ensures CountBlocker(rs[..j], e.graph, e.blocker) < p.maxSameBlocker
    ensures !Cooling(rs[..j], e, p)
  {
    hide Decide, DecideBlock, Cooling, CountBlocker, MaxRound;
    assert Decided(rs, j, es, Some(p));
    e :| e in es && DecidedAt(rs, j, e, Some(p));
    RemedialFacts(rs[..j], e, p);
    BlockFacts(rs[..j], e, p);
  }

  lemma RemedialFacts(rs: seq<Receipt>, e: LoopEvent, p: Policy)
    ensures var r := Decide(rs, e, Some(p)); Remedial(r.decision) ==> r == DecideBlock(rs, e, p)
  {
    hide DecideBlock, DecideSupersession, OriginOk, IsSupersession;
  }

  lemma BlockFacts(rs: seq<Receipt>, e: LoopEvent, p: Policy)
    ensures var r := DecideBlock(rs, e, p); Remedial(r.decision) ==>
      && e.blocker == r.blocker && e.at == r.at
      && r.roundNo == Max(e.roundNo, MaxRound(rs, e.graph)) + 1 <= p.maxRounds
      && CountBlocker(rs, e.graph, e.blocker) < p.maxSameBlocker
      && !Cooling(rs, e, p)
  {
    hide Cooling, CountBlocker, MaxRound;
  }

  lemma {:induction false} RoundSeen(rs: seq<Receipt>, graph: string, i: nat)
    requires i < |rs| && rs[i].graph == graph
    ensures Rounds(rs, graph).Some? && rs[i].roundNo <= MaxRound(rs, graph)
  {
    if i < |rs| - 1 { RoundSeen(rs[..|rs| - 1], graph, i); }
  }

  lemma {:induction false} ActionSeen(rs: seq<Receipt>, graph: string, blocker: string, i: nat)
    requires i < |rs| && ActsOn(rs[i], graph, blocker)
    ensures LastAt(rs, graph, blocker).Some? && rs[i].at <= LastAt(rs, graph, blocker).value
  {
    if i < |rs| - 1 { ActionSeen(rs[..|rs| - 1], graph, blocker, i); }
  }

  predicate RemedialIn(r: Receipt, graph: string) { r.graph == graph && Remedial(r.decision) }

  /** Remediation rounds of a graph strictly increase and stay within the policy;
      those of one blocker are at least the cooldown apart. */
  lemma RoundsAndCooldown(es: seq<LoopEvent>, p: Policy, graph: string)
    requires Unshared(es, graph)
    ensures var rs := Stream(es, Some(p));
      && (forall j :: 0 <= j < |rs| && RemedialIn(rs[j], graph) ==> rs[j].roundNo <= p.maxRounds)
      && (forall i, j :: 0 <= i < j < |rs| && RemedialIn(rs[i], graph) && RemedialIn(rs[j], graph) ==>
           && rs[i].roundNo < rs[j].roundNo
           && (rs[i].blocker == rs[j].blocker ==> rs[j].at - rs[i].at >= p.cooldown as real))
  {
    var rs := Stream(es, Some(p));
    StreamGrown(es, Some(p));
    forall j | 0 <= j < |rs| && RemedialIn(rs[j], graph)
      ensures rs[j].roundNo <= p.maxRounds
      ensures forall i :: 0 <= i < j && RemedialIn(rs[i], graph) ==>
        && rs[i].roundNo < rs[j].roundNo
        && (rs[i].blocker == rs[j].blocker ==> rs[j].at - rs[i].at >= p.cooldown as real)
    {
      var e := RemedialAt(rs, j, es, p);
      forall i | 0 <= i < j && RemedialIn(rs[i], graph)
        ensures rs[i].roundNo < rs[j].roundNo
        ensures rs[i].blocker == rs[j].blocker ==> rs[j].at - rs[i].at >= p.cooldown as real
      {
        assert rs[..j][i] == rs[i];
        RoundSeen(rs[..j], graph, i);
        if rs[i].blocker == rs[j].blocker { ActionSeen(rs[..j], graph, e.blocker, i); }
      }
    }
  }

  function CountRemedial(rs: seq<Receipt>, graph: string): nat {
    if rs == [] then 0
    else CountRemedial(rs[..|rs| - 1], graph) + (if RemedialIn(rs[|rs| - 1], graph) then 1 else 0)
  }

  function CountRemedialFor(rs: seq<Receipt>, graph: string, blocker: string): nat {
    if rs == [] then 0
    else
      var hit := RemedialIn(rs[|rs| - 1], graph) && rs[|rs| - 1].blocker == blocker;
      CountRemedialFor(rs[..|rs| - 1], graph, blocker) + (if hit then 1 else 0)
  }

  lemma GrownPrefix(rs: seq<Receipt>, es: seq<LoopEvent>, input: PolicyInput)
    requires rs != [] && Grown(rs, es, input)
    ensures Grown(rs[..|rs| - 1], es, input)
  {
    hide Decided;
    var init := rs[..|rs| - 1];
    forall j | 0 <= j < |init| ensures Decided(init, j, es, input) {
      DecidedBack(rs, init, j, es, input);
    }
  }

  lemma DecidedBack(rs: seq<Receipt>, init: seq<Receipt>, j: nat, es: seq<LoopEvent>, input: PolicyInput)
    requires j < |init| <= |rs| && init == rs[..|init|] && Decided(rs, j, es, input)
    ensures Decided(init, j, es, input)
  {
    hide Decide;
    var e :| e in es && DecidedAt(rs, j, e, input);
    assert init[..j] == rs[..j];
    assert DecidedAt(init, j, e, input);
  }

  /** Receipts other than a remediation's carry their event's own round number. */
  lemma RoundFloor(rs: seq<Receipt>, j: nat, es: seq<LoopEvent>, p: Policy, low: int)
    requires j < |rs| && Grown(rs, es, Some(p)) && Unshared(es, rs[j].graph)
    requires forall e :: e in es && e.graph == rs[j].graph ==> e.roundNo >= low
    ensures rs[j].roundNo >= low
  {
    hide Decide;
    assert Decided(rs, j, es, Some(p));
    var e :| e in es && DecidedAt(rs, j, e, Some(p));
  }

  lemma {:induction false} CountsGrow(rs: seq<Receipt>, es: seq<LoopEvent>, p: Policy, graph: string, low: int)
    requires Grown(rs, es, Some(p)) && Unshared(es, graph) && low <= 0
    requires forall e :: e in es && e.graph == graph ==> e.roundNo >= low
    ensures CountRemedial(rs, graph) + low <= MaxRound(rs, graph)
    ensures CountRemedial(rs, graph) == 0 || CountRemedial(rs, graph) + low <= p.maxRounds
  {
    hide Grown;
    if rs != [] {
      var init, last := rs[..|rs| - 1], rs[|rs| - 1];
      GrownPrefix(rs, es, Some(p));
      CountsGrow(init, es, p, graph, low);
      if last.graph == graph {
        RoundSeen(rs, graph, |rs| - 1);
        RoundFloor(rs, |rs| - 1, es, p, low);
        if RemedialIn(last, graph) {
          var f := RemedialAt(rs, |rs| - 1, es, p);
        } else {
          MaxRoundKept(rs, graph);
        }
      }
    }
  }

  lemma MaxRoundKept(rs: seq<Receipt>, graph: string)
    requires rs != []
    ensures Rounds(rs[..|rs| - 1], graph).Some? ==> MaxRound(rs, graph) >= MaxRound(rs[..|rs| - 1], graph)
    ensures Rounds(rs[..|rs| - 1], graph).None? ==> CountRemedial(rs[..|rs| - 1], graph) == 0
  {
    NoRounds(rs[..|rs| - 1], graph);
  }

  lemma {:induction false} NoRounds(rs: seq<Receipt>, graph: string)
    ensures Rounds(rs, graph).None? ==> CountRemedial(rs, graph) == 0
  {
    if rs != [] { NoRounds(rs[..|rs| - 1], graph); }
  }

  /** A graph gets at most max_rounds remediations, counted from the lowest round
      number its events carry when that is negative. */
  lemma RoundBudget(es: seq<LoopEvent>, p: Policy, graph: string, low: int)
    requires Unshared(es, graph) && low <= 0
    requires forall e :: e in es && e.graph == graph ==> e.roundNo >= low
    ensures CountRemedial(Stream(es, Some(p)), graph) <= p.maxRounds - low
  {
    StreamGrown(es, Some(p));
    CountsGrow(Stream(es, Some(p)), es, p, graph, low);
  }

  lemma {:induction false} BlockerCount(rs: seq<Receipt>, es: seq<LoopEvent>, p: Policy, graph: string, blocker: string)
    requires Grown(rs, es, Some(p)) && Unshared(es, graph)
    ensures CountRemedialFor(rs, graph, blocker) <= CountBlocker(rs, graph, blocker)
    ensures CountRemedialFor(rs, graph, blocker) <= p.maxSameBlocker
  {
    if rs != [] {
      GrownPrefix(rs, es, Some(p));
      BlockerCount(rs[..|rs| - 1], es, p, graph, blocker);
      var last := rs[|rs| - 1];
      if RemedialIn(last, graph) && last.blocker == blocker {
        var e := RemedialAt(rs, |rs| - 1, es, p);
      }
    }
  }

  /** One blocker of one graph is remediated at most max_same_blocker times. */
  lemma BlockerBudget(es: seq<LoopEvent>, p: Policy, graph: string, blocker: string)
    requires Unshared(es, graph)
    ensures CountRemedialFor(Stream(es, Some(p)), graph, blocker) <= p.maxSameBlocker
  {
    StreamGrown(es, Some(p));
    BlockerCount(Stream(es, Some(p)), es, p, graph, blocker);
  }

  // ----- replay -----

  predicate Seen(es: seq<LoopEvent>, id: string) {
    exists i :: 0 <= i < |es| && es[i].id == id
  }

  /** The stream without the events whose id came before. */
  function Firsts(es: seq<LoopEvent>): seq<LoopEvent> {
    if es == [] then []
    else
      var init, e := es[..|es| - 1], es[|es| - 1];
      if Seen(init, e.id) then Firsts(init) else Firsts(init) + [e]
  }

  lemma HasEventAppend(rs: seq<Receipt>, r: Receipt, id: string)
    ensures HasEvent(rs + [r], id) <==> HasEvent(rs, id) || r.eventId == id
  {
    var rs' := rs + [r];
    if HasEvent(rs, id) {
      var i :| 0 <= i < |rs| && rs[i].eventId == id;
      assert rs'[i].eventId == id;
    }
    if r.eventId == id { assert rs'[|rs|].eventId == id; }
  }

  lemma SeenAppend(es: seq<LoopEvent>, id: string)
    requires es != []
    ensures Seen(es, id) <==> Seen(es[..|es| - 1], id) || es[|es| - 1].id == id
  {
    var init := es[..|es| - 1];
    if Seen(init, id) {
      var i :| 0 <= i < |init| && init[i].id == id;
      assert es[i].id == id;
    }
  }

  lemma {:induction false} RecordedIffSeen(es: seq<LoopEvent>, input: PolicyInput, id: string)
    requires id != "" && forall e :: e in es ==> e.id != ""
    ensures HasEvent(Stream(es, input), id) <==> Seen(es, id)
  {
    hide Decide, HasEvent, Seen;
    if es == [] {
      NoneRecorded(id);
    } else {
      var init, e := es[..|es| - 1], es[|es| - 1];
      assert e in es;
      RecordedIffSeen(init, input, id);
      RecordedIffSeen(init, input, e.id);
      var rs0 := Stream(init, input);
      HasEventAppend(rs0, Decide(rs0, e, input), id);
      SeenAppend(es, id);
    }
  }

  lemma NoneRecorded(id: string)
    ensures !HasEvent([], id) && !Seen([], id)
  {}

  /** Replaying known events changes nothing: a stream of non-empty ids leaves the
      ledger of its first occurrences. */
  lemma {:induction false} ReplayInsensitive(es: seq<LoopEvent>, input: PolicyInput)
    requires forall e :: e in es ==> e.id != ""
    ensures Stream(Firsts(es), input) == Stream(es, input)
  {
    if es != [] {
      var init, e := es[..|es| - 1], es[|es| - 1];
      assert e in es;
      ReplayInsensitive(init, input);
      RecordedIffSeen(init, input, e.id);
      if !Seen(init, e.id) {
        var fs := Firsts(init) + [e];
        assert fs[..|fs| - 1] == Firsts(init);
      }
    }
  }

  // ----- supersession -----

  predicate Supersedes(r: Receipt, graph: string) { r.graph == graph && r.decision == Supersede }

  function CountSupersede(rs: seq<Receipt>, graph: string): nat {
    if rs == [] then 0
    else CountSupersede(rs[..|rs| - 1], graph) + (if Supersedes(rs[|rs| - 1], graph) then 1 else 0)
  }

  lemma VersionFacts(rs: seq<Receipt>, e: LoopEvent, p: Policy)
    ensures var r := Decide(rs, e, Some(p));
      && (r.decision == Supersede ==> r == DecideSupersession(rs, e, p))
      && (r.decision != Supersede ==> r.finalVn == 1)
  {
    GrantFacts(rs, e, p);
    hide DecideBlock, DecideSupersession, OriginOk, IsSupersession;
  }

  lemma GrantFacts(rs: seq<Receipt>, e: LoopEvent, p: Policy)
    ensures var r := DecideSupersession(rs, e, p);
      && (r.decision == Supersede ==>
           r.finalVn == FinalVn(rs, e.graph) + 1 && r.key == SupersessionKey(e) && !HasKey(rs, r.key))
      && (r.decision != Supersede ==> r.finalVn == 1)
  {
    hide HasKey, FinalVn;
  }

  lemma {:induction false} VersionsCount(rs: seq<Receipt>, es: seq<LoopEvent>, p: Policy, graph: string)
    requires Grown(rs, es, Some(p)) && Unshared(es, graph)
    ensures FinalVn(rs, graph) == CountSupersede(rs, graph) + 1
  {
    hide Grown, Decide;
    if rs != [] {
      var init, last := rs[..|rs| - 1], rs[|rs| - 1];
      GrownPrefix(rs, es, Some(p));
      VersionsCount(init, es, p, graph);
      if last.graph == graph { LastDecided(rs, |rs| - 1, es, p); }
      NoVersions(init, graph);
    }
  }

  lemma {:induction false} NoVersions(rs: seq<Receipt>, graph: string)
    ensures Versions(rs, graph).None? ==> CountSupersede(rs, graph) == 0
  {
    if rs != [] { NoVersions(rs[..|rs| - 1], graph); }
  }

  lemma LastDecided(rs: seq<Receipt>, j: nat, es: seq<LoopEvent>, p: Policy)
    requires j < |rs| && Grown(rs, es, Some(p)) && Unshared(es, rs[j].graph)
    ensures rs[j].decision == Supersede ==>
      rs[j].finalVn == FinalVn(rs[..j], rs[j].graph) + 1 && !HasKey(rs[..j], rs[j].key)
    ensures rs[j].decision != Supersede ==> rs[j].finalVn == 1
  {
    hide Decide, DecideSupersession, HasKey, FinalVn;
    assert Decided(rs, j, es, Some(p));
    var e :| e in es && DecidedAt(rs, j, e, Some(p));
    VersionFacts(rs[..j], e, p);
    GrantFacts(rs[..j], e, p);
  }

  /** The k-th supersession of a graph proposes final version k + 1, and no
      supersession key is granted twice. */
  lemma Supersessions(es: seq<LoopEvent>, p: Policy, graph: string)
    requires Unshared(es, graph)
    ensures var rs := Stream(es, Some(p));
      && (forall j :: 0 <= j < |rs| && Supersedes(rs[j], graph) ==>
            rs[j].finalVn == CountSupersede(rs[..j + 1], graph) + 1)
      && (forall i, j :: 0 <= i < j < |rs| && Supersedes(rs[i], graph) && Supersedes(rs[j], graph) ==>
            rs[i].key != rs[j].key)
  {
    hide Stream, Grown, HasKey, FinalVn, Decide;
    var rs := Stream(es, Some(p));
    StreamGrown(es, Some(p));
    forall j | 0 <= j < |rs| && Supersedes(rs[j], graph)
      ensures rs[j].finalVn == CountSupersede(rs[..j + 1], graph) + 1
      ensures forall i :: 0 <= i < j ==> rs[i].key != rs[j].key
    {
      GrownTo(rs, j, es, p);
      VersionsCount(rs[..j], es, p, graph);
      LastDecided(rs, j, es, p);
      assert rs[..j + 1][..j] == rs[..j];
      KeyIsNew(rs, j, rs[j].key);
    }
  }

  lemma KeyIsNew(rs: seq<Receipt>, j: nat, key: string)
    requires j <= |rs| && !HasKey(rs[..j], key)
    ensures forall i :: 0 <= i < j ==> rs[i].key != key
  {
    forall i | 0 <= i < j ensures rs[i].key != key {
      assert rs[..j][i].key == rs[i].key;
    }
  }

  lemma GrownTo(rs: seq<Receipt>, n: nat, es: seq<LoopEvent>, p: Policy)
    requires n <= |rs| && Grown(rs, es, Some(p))
    ensures Grown(rs[..n], es, Some(p))
  {
    hide Decided;
    forall j | 0 <= j < n ensures Decided(rs[..n], j, es, Some(p)) {
      DecidedBack(rs, rs[..n], j, es, Some(p));
    }
  }

  // ----- where the bounds stop holding -----

  function Named(n: nat): string { seq(n, _ => 'x') }

  function Block(n: nat, graph: string, round: int): LoopEvent {
    LoopEvent(Named(n + 2), graph, "", false, "BLOCK", "b", "", "", "", "", round, 0.0, "", "", false)
  }

  /** An unreadable verdict with a round number, then n blocks of one blocker. */
  function Blocks(graph: string, round: int, n: nat): seq<LoopEvent> {
    if n == 0 then
      [LoopEvent("x", graph, "", false, "", "", "", "", "", "", round, 0.0, "", "", false)]
    else Blocks(graph, round, n - 1) + [Block(n - 1, graph, round)]
  }

  function Lenient(maxRounds: nat, maxSame: nat, cooldown: nat): Policy {
    Policy(RequestOnly, false, false, {"b"}, maxRounds, maxSame, cooldown, false, false, false, "", "")
  }

  predicate IdsBelow(rs: seq<Receipt>, n: nat) {
    forall i :: 0 <= i < |rs| ==> |rs[i].eventId| < n
  }

  lemma FreshBlock(rs: seq<Receipt>, n: nat)
    requires IdsBelow(rs, n + 2)
    ensures !HasEvent(rs, Named(n + 2))
  {}

  lemma Opening(graph: string, round: int, maxRounds: nat, maxSame: nat, cooldown: nat) returns (r: Receipt)
    ensures Stream(Blocks(graph, round, 0), Some(Lenient(maxRounds, maxSame, cooldown))) == [r]
    ensures r.eventId == "x" && r.graph == StoredGraph(graph) && r.roundNo == round && r.decision == Escalate
  {
    var es, p := Blocks(graph, round, 0), Lenient(maxRounds, maxSame, cooldown);
    assert es[..0] == [];
    assert Stream(es[..0], Some(p)) == [];
    hide DecideBlock, DecideSupersession;
    r := Decide([], es[0], Some(p));
  }

  lemma OpeningCounts(r: Receipt, graph: string)
    requires r.graph == graph && r.decision == Escalate
    ensures CountRemedial([r], graph) == 0 && CountBlocker([r], graph, "b") == 0
    ensures Rounds([r], graph) == Some(r.roundNo) && LastAt([r], graph, "b") == None
    ensures r.eventId == "x" ==> IdsBelow([r], 2)
  {
    assert [r][..0] == [];
  }

  /** The counters after one more proposal for blocker "b". */
  lemma Counted(rs: seq<Receipt>, r: Receipt, graph: string)
    requires r.graph == graph && r.blocker == "b" && r.decision == Propose && r.at == 0.0
    ensures CountRemedial(rs + [r], graph) == CountRemedial(rs, graph) + 1
    ensures CountBlocker(rs + [r], graph, "b") == CountBlocker(rs, graph, "b") + 1
    ensures Rounds(rs, graph).Some? && MaxRound(rs, graph) < r.roundNo ==> Rounds(rs + [r], graph) == Some(r.roundNo)
    ensures LastAt(rs, graph, "b") == None || LastAt(rs, graph, "b") == Some(0.0) ==> LastAt(rs + [r], graph, "b") == Some(0.0)
  {
    assert (rs + [r])[..|rs + [r]| - 1] == rs;
  }

  lemma StreamStep(es: seq<LoopEvent>, e: LoopEvent, input: PolicyInput)
    ensures Stream(es + [e], input) == Evaluated(Stream(es, input), e, input)
  {
    assert (es + [e])[..|es + [e]| - 1] == es;
  }

  /** One block more, decided on the ledger of the blocks before it. */
  lemma OneMore(graph: string, round: int, n: nat, maxRounds: nat, maxSame: nat, cooldown: nat, rs: seq<Receipt>)
    returns (r: Receipt)
    requires n > 0 && rs == Stream(Blocks(graph, round, n - 1), Some(Lenient(maxRounds, maxSame, cooldown)))
    requires IdsBelow(rs, n + 1)
    requires Max(round, MaxRound(rs, graph)) < maxRounds && CountBlocker(rs, graph, "b") < maxSame
    requires LastAt(rs, graph, "b") == None || (LastAt(rs, graph, "b") == Some(0.0) && cooldown == 0)
    ensures Stream(Blocks(graph, round, n), Some(Lenient(maxRounds, maxSame, cooldown))) == rs + [r]
    ensures IdsBelow(rs + [r], n + 2)
    ensures r.decision == Propose && r.graph == StoredGraph(graph) && r.blocker == "b" && r.at == 0.0
    ensures r.roundNo == Max(round, MaxRound(rs, graph)) + 1
  {
    hide HasEvent, Stream, CountBlocker, MaxRound, LastAt, DecideSupersession;
    var es, e, p := Blocks(graph, round, n - 1), Block(n - 1, graph, round), Lenient(maxRounds, maxSame, cooldown);
    assert Blocks(graph, round, n) == es + [e];
    StreamStep(es, e, Some(p));
    FreshBlock(rs, n - 1);
    r := Decide(rs, e, Some(p));
    assert r == DecideBlock(rs, e, p);
  }

  /** A ledger in which blocker "b" was proposed n times, the last at low + n. */
  ghost predicate Spent(rs: seq<Receipt>, low: int, n: nat) {
    && CountRemedial(rs, "g") == n && CountBlocker(rs, "g", "b") == n && Rounds(rs, "g") == Some(low + n)
    && LastAt(rs, "g", "b") == (if n == 0 then None else Some(0.0)) && IdsBelow(rs, n + 2)
  }

  /** Negative round numbers stretch the budget by as much as they are negative:
      the bound of RoundBudget is reached. */
  lemma {:induction false} RoundBudgetReached(low: int, maxRounds: nat, n: nat, total: nat)
    requires low <= 0 && n <= total <= maxRounds - low
    ensures Spent(Stream(Blocks("g", low, n), Some(Lenient(maxRounds, total, 0))), low, n)
  {
    hide Stream, Decide, Blocks, Block, Lenient, IdsBelow, CountRemedial, CountBlocker, Rounds, LastAt;
    if n == 0 {
      var r := Opening("g", low, maxRounds, total, 0);
      OpeningCounts(r, "g");
    } else {
      RoundBudgetReached(low, maxRounds, n - 1, total);
      var rs := Stream(Blocks("g", low, n - 1), Some(Lenient(maxRounds, total, 0)));
      var r := OneMore("g", low, n, maxRounds, total, 0, rs);
      Counted(rs, r, "g");
    }
  }

  /** Events without a graph id are stored under a name their own lookups never
      ask for, so nothing bounds them. */
  lemma {:induction false} EmptyGraphUnbounded(maxRounds: nat, maxSame: nat, cooldown: nat, n: nat)
    requires maxRounds > 0 && maxSame > 0
    ensures var rs := Stream(Blocks("", 0, n), Some(Lenient(maxRounds, maxSame, cooldown)));
      && CountRemedial(rs, "unknown_graph") == n && IdsBelow(rs, n + 2)
      && (forall i :: 0 <= i < |rs| ==> rs[i].graph == "unknown_graph")
  {
    hide Stream, Decide, Blocks, Block, Lenient, IdsBelow, CountRemedial, CountBlocker, Rounds, LastAt;
    if n == 0 {
      var r := Opening("", 0, maxRounds, maxSame, cooldown);
      OpeningCounts(r, "unknown_graph");
    } else {
      EmptyGraphUnbounded(maxRounds, maxSame, cooldown, n - 1);
      var rs := Stream(Blocks("", 0, n - 1), Some(Lenient(maxRounds, maxSame, cooldown)));
      Unasked(rs);
      var r := OneMore("", 0, n, maxRounds, maxSame, cooldown, rs);
      Counted(rs, r, "unknown_graph");
    }
  }

  lemma {:induction false} Unasked(rs: seq<Receipt>)
    requires forall i :: 0 <= i < |rs| ==> rs[i].graph == "unknown_graph"
    ensures Rounds(rs, "") == None && CountBlocker(rs, "", "b") == 0 && LastAt(rs, "", "b") == None
  {
    if rs != [] { Unasked(rs[..|rs| - 1]); }
  }
}
