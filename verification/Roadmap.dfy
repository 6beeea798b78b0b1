/** Roadmap autopromotion (roadmap.py): proposals bounded by an append-only
    ledger, and an apply that commits nothing unless every create succeeded. */
module Roadmap {
  import opened Domain
  import opened RoadmapTemplates

  datatype Transition = Transition(
    id: string, roadmap: string, fromSlice: string, toSlice: string,
    kinds: seq<string>, preset: string, refsSymbolic: bool, maxDepth: nat)

  type Registry = map<string, Transition>

  datatype Policy = Policy(
    autoContinue: bool, allowlist: set<string>, maxDepth: nat, maxPromotions: nat, cooldown: nat,
    requireReview: bool, requireAck: bool, requireTrusted: bool, trusted: set<string>,
    requireOrigin: bool, expectedOrigin: string, expectedReturnTo: string, requirePolicyRef: bool,
    applyEnabled: bool, maxApplyTasks: nat)

  /** None stands for a policy object the coercion rejects. */
  type PolicyInput = Option<Policy>

  /** A final summary with its parsed verdict and continuation markers. */
  datatype Request = Request(
    eventId: string, source: string, verdict: string, explicit: bool, transition: string, nextSlice: string,
    reviewEdge: bool, ackEdge: bool, parentGo: bool, autoContinue: bool, originEvidence: bool,
    subscription: string, policyRef: string, assignee: string, origin: string, returnTo: string,
    staleRoute: bool, chainDepth: int, at: real)

  datatype Action = Propose | Refuse | Noop

  /** Promotion keys name roadmap, transition, depth and a digest of transition
      and source; other receipts get a key of their own event. */
  datatype PromoKey =
    | Promotion(roadmap: string, transition: string, depth: int, digest: Digest)
    | Plain(action: Action, event: string)

  datatype Receipt = Receipt(
    eventId: string, roadmap: string, transition: string, depth: int,
    decision: Action, key: PromoKey, at: real, reason: string)

  function StoredId(id: string): string { if id == "" then "missing_event_id" else id }
  function StoredSource(source: string): string { if source == "" then "source_final" else source }

  predicate ValidTransition(t: Transition) {
    && t.id != "" && t.roadmap != "" && t.fromSlice != "" && t.toSlice != ""
    && (t.kinds != [] || t.preset != "")
    && Resolve(t.preset, t.kinds).Some?
    && t.refsSymbolic
  }

  // ----- what the ledger answers -----

  predicate HasEvent(rs: seq<Receipt>, id: string) {
    exists i :: 0 <= i < |rs| && rs[i].eventId == id
  }

  /** The latest receipt of an event. */
  function Prior(rs: seq<Receipt>, id: string): (r: Option<Receipt>)
    ensures r.Some? <==> HasEvent(rs, id)
    ensures r.Some? ==> r.value in rs
  {
    if rs == [] then None
    else
      var init, last := rs[..|rs| - 1], rs[|rs| - 1];
      assert forall i :: 0 <= i < |init| ==> init[i] == rs[i];
      if last.eventId == id then Some(last) else Prior(init, id)
  }

  predicate HasKey(rs: seq<Receipt>, key: PromoKey) {
    exists i :: 0 <= i < |rs| && rs[i].key == key
  }

  predicate Proposes(r: Receipt, roadmap: string) { r.roadmap == roadmap && r.decision == Propose }

  function CountPromotions(rs: seq<Receipt>, roadmap: string): nat {
    if rs == [] then 0
    else CountPromotions(rs[..|rs| - 1], roadmap) + (if Proposes(rs[|rs| - 1], roadmap) then 1 else 0)
  }

  /** current_chain_depth: the deepest receipt of the roadmap, 0 without any. */
  function Depths(rs: seq<Receipt>, roadmap: string): Option<int> {
    if rs == [] then None
    else
      var last, before := rs[|rs| - 1], Depths(rs[..|rs| - 1], roadmap);
      if last.roadmap != roadmap then before
      else if before.Some? && before.value >= last.depth then before
      else Some(last.depth)
  }

  function ChainDepth(rs: seq<Receipt>, roadmap: string): int {
    match Depths(rs, roadmap) case None => 0 case Some(d) => d
  }

  function LastAt(rs: seq<Receipt>, roadmap: string): Option<real> {
    if rs == [] then None
    else
      var last, before := rs[|rs| - 1], LastAt(rs[..|rs| - 1], roadmap);
      if !Proposes(last, roadmap) then before
      else if before.Some? && before.value >= last.at then before
      else Some(last.at)
  }

  // ----- one proposal -----

  function Max(a: int, b: int): int { if a > b then a else b }
  function Min(a: int, b: int): int { if a < b then a else b }

  function SourceDigest(transition: string, source: string): Digest {
    Sha256(transition + ":" + StoredSource(source))
  }

  function KeyAt(t: Transition, source: string, depth: int): PromoKey {
    Promotion(t.roadmap, t.id, depth, SourceDigest(t.id, source))
  }

  function Without(q: Request, a: Action, reason: string, roadmap: string): Receipt {
    Receipt(StoredId(q.eventId), roadmap, q.transition, 0, a, Plain(a, StoredId(q.eventId)), q.at, reason)
  }

  predicate OriginOk(q: Request, p: Policy) {
    !p.requireOrigin
    || ((p.expectedOrigin != "" ==> q.origin == p.expectedOrigin)
        && (p.expectedReturnTo != "" ==> q.returnTo == p.expectedReturnTo)
        && q.origin != "" && q.returnTo != "")
  }

  /** The reason an evidence gate refuses with, once the transition is known. */
  function Gate(q: Request, t: Transition, p: Policy): Option<string> {
    if q.nextSlice != t.toSlice then Some("unknown_transition")
    else if p.requireOrigin && !q.originEvidence then Some("foreign_origin")
    else if p.requireReview && (!q.reviewEdge || !q.parentGo) then Some("missing_review_edge")
    else if p.requireAck && !q.ackEdge then Some("missing_ack_edge")
    else if p.requireAck && q.subscription != "verified" then Some("subscription_unverified")
    else if p.requireTrusted && q.assignee !in p.trusted then Some("untrusted_assignee")
    else if !OriginOk(q, p) then Some("foreign_origin")
    else if p.requirePolicyRef && q.policyRef == "" then Some("policy_unresolved")
    else if q.staleRoute then Some("stale_inline_route")
    else None
  }

  predicate Cooling(rs: seq<Receipt>, q: Request, t: Transition, p: Policy) {
    var last := LastAt(rs, t.roadmap);
    last.Some? && q.at - last.value < p.cooldown as real
  }

  function Depth(rs: seq<Receipt>, q: Request, t: Transition): int {
    Max(q.chainDepth, ChainDepth(rs, t.roadmap))
  }

  /** The bounds, once every evidence gate let the request through. */
  function DecideBounds(rs: seq<Receipt>, q: Request, t: Transition, p: Policy): (r: Receipt)
    ensures r.eventId == StoredId(q.eventId) && r.roadmap == t.roadmap && r.at == q.at
  {
    var depth := Depth(rs, q, t);
    var key := KeyAt(t, q.source, depth + 1);
    if depth >= Min(p.maxDepth, t.maxDepth) then Without(q, Refuse, "max_chain_depth", t.roadmap)
    else if CountPromotions(rs, t.roadmap) >= p.maxPromotions then
      Without(q, Refuse, "max_promotions_per_roadmap", t.roadmap)
    else if Cooling(rs, q, t, p) then Without(q, Noop, "cooldown", t.roadmap)
    else if HasKey(rs, key) then
      Receipt(StoredId(q.eventId), t.roadmap, t.id, 0, Noop, key, q.at, "existing_promotion")
    else Receipt(StoredId(q.eventId), t.roadmap, t.id, depth + 1, Propose, key, q.at, "roadmap_promotion_proposed")
  }

  predicate Known(q: Request, registry: Registry, p: Policy) {
    && q.transition in p.allowlist && q.transition in registry && ValidTransition(registry[q.transition])
  }

  /** The receipt of a request whose event is new. */
  function Decide(rs: seq<Receipt>, q: Request, registry: Registry, input: PolicyInput): (r: Receipt)
    ensures r.eventId == StoredId(q.eventId)
  {
    match input
    case None => Without(q, Refuse, "malformed_policy", "")
    case Some(p) =>
      if q.verdict != "GO" then Without(q, Refuse, "not_go", "")
      else if !p.autoContinue then Without(q, Noop, "autopromote_disabled", "")
      else if !q.explicit then Without(q, Refuse, "missing_next_slice", "")
      else if !q.autoContinue then Without(q, Noop, "autopromote_disabled", "")
      else if !Known(q, registry, p) then Without(q, Refuse, "unknown_transition", "")
      else
        var t := registry[q.transition];
        match Gate(q, t, p)
        case Some(reason) => Without(q, Refuse, reason, t.roadmap)
        case None => DecideBounds(rs, q, t, p)
  }

  /** The evidence a final summary must carry, in no particular order. */
  predicate EvidenceOk(q: Request, t: Transition, p: Policy) {
    && q.nextSlice == t.toSlice && !q.staleRoute
    && (p.requireOrigin ==> q.originEvidence) && OriginOk(q, p)
    && (p.requireReview ==> q.reviewEdge && q.parentGo)
    && (p.requireAck ==> q.ackEdge && q.subscription == "verified")
    && (p.requireTrusted ==> q.assignee in p.trusted)
    && (p.requirePolicyRef ==> q.policyRef != "")
  }

  lemma GateIff(q: Request, t: Transition, p: Policy)
    ensures Gate(q, t, p) == None <==> EvidenceOk(q, t, p)
  {
    hide OriginOk;
  }

  /** Exactly when a request becomes a proposal. */
  lemma ProposesIff(rs: seq<Receipt>, q: Request, registry: Registry, input: PolicyInput)
    ensures Decide(rs, q, registry, input).decision == Propose <==>
      && input.Some? && q.verdict == "GO" && q.explicit && q.autoContinue
      && var p := input.value;
        && p.autoContinue && Known(q, registry, p)
        && var t := registry[q.transition]; var depth := Depth(rs, q, t);
          && EvidenceOk(q, t, p)
          && depth < p.maxDepth && depth < t.maxDepth && CountPromotions(rs, t.roadmap) < p.maxPromotions
          && !Cooling(rs, q, t, p) && !HasKey(rs, KeyAt(t, q.source, depth + 1))
  {
    if q.transition in registry && input.Some? { GateIff(q, registry[q.transition], input.value); }
    hide Gate, EvidenceOk, ValidTransition, HasKey, Cooling, CountPromotions, Depth, KeyAt;
  }

  function Proposed(rs: seq<Receipt>, q: Request, registry: Registry, input: PolicyInput): seq<Receipt> {
    if HasEvent(rs, StoredId(q.eventId)) then rs else rs + [Decide(rs, q, registry, input)]
  }

  // ----- bounds over any run of calls -----

  ghost predicate DecidedAt(rs: seq<Receipt>, j: nat, q: Request, registry: Registry, p: Policy)
    requires j < |rs|
  {
    rs[j] == Decide(rs[..j], q, registry, Some(p))
  }

  /** Receipt j was decided on the receipts before it. */
  ghost predicate Decided(rs: seq<Receipt>, j: nat, registry: Registry, p: Policy)
    requires j < |rs|
  {
    exists q :: DecidedAt(rs, j, q, registry, p)
  }

  /** A ledger that proposes and applies with one policy have filled. */
  ghost predicate Grown(rs: seq<Receipt>, registry: Registry, p: Policy) {
    && (forall j :: 0 <= j < |rs| ==> Decided(rs, j, registry, p))
    && (forall t :: t in registry ==> registry[t].id == t)
  }

  lemma GrownStep(rs: seq<Receipt>, q: Request, registry: Registry, p: Policy)
    requires Grown(rs, registry, p)
    ensures Grown(Proposed(rs, q, registry, Some(p)), registry, p)
  {
    hide Decide, HasEvent;
    var rs' := Proposed(rs, q, registry, Some(p));
    forall j | 0 <= j < |rs'| ensures Decided(rs', j, registry, p) {
      if j < |rs| {
        assert Decided(rs, j, registry, p);
        var f :| DecidedAt(rs, j, f, registry, p);
        assert rs'[..j] == rs[..j] && DecidedAt(rs', j, f, registry, p);
      } else {
        assert rs'[..j] == rs && DecidedAt(rs', j, q, registry, p);
      }
    }
  }

  lemma GrownTo(rs: seq<Receipt>, n: nat, registry: Registry, p: Policy)
    requires n <= |rs| && Grown(rs, registry, p)
    ensures Grown(rs[..n], registry, p)
  {
    hide Decide;
    forall j | 0 <= j < n ensures Decided(rs[..n], j, registry, p) {
      assert Decided(rs, j, registry, p);
      var q :| DecidedAt(rs, j, q, registry, p);
      assert rs[..n][..j] == rs[..j] && DecidedAt(rs[..n], j, q, registry, p);
    }
  }

  lemma ProposalFacts(rs: seq<Receipt>, q: Request, registry: Registry, p: Policy)
    ensures var r := Decide(rs, q, registry, Some(p));
      if q.transition in registry && r == DecideBounds(rs, q, registry[q.transition], p) then true
      else r.decision != Propose && r.depth == 0
  {
    hide DecideBounds, Gate, ValidTransition;
  }

  lemma BoundFacts(rs: seq<Receipt>, q: Request, t: Transition, p: Policy)
    ensures var r := DecideBounds(rs, q, t, p); r.decision == Propose ==>
      && r.depth == Depth(rs, q, t) + 1 <= Min(p.maxDepth, t.maxDepth)
      && CountPromotions(rs, t.roadmap) < p.maxPromotions
      && !Cooling(rs, q, t, p) && !HasKey(rs, r.key) && r.key == KeyAt(t, q.source, r.depth)
    ensures var r := DecideBounds(rs, q, t, p); r.decision != Propose ==> r.depth == 0
  {
    hide HasKey, Cooling, CountPromotions, Depth;
  }

  /** What a proposal receipt says about the ledger it was decided on. */
  lemma ProposalAt(rs: seq<Receipt>, j: nat, registry: Registry, p: Policy) returns (q: Request, t: Transition)
    requires j < |rs| && Grown(rs, registry, p) && rs[j].decision == Propose
    ensures q.transition in registry && t == registry[q.transition] && t.roadmap == rs[j].roadmap && q.at == rs[j].at
    ensures rs[j].depth == Depth(rs[..j], q, t) + 1 <= Min(p.maxDepth, t.maxDepth)
    ensures CountPromotions(rs[..j], t.roadmap) < p.maxPromotions
    ensures !Cooling(rs[..j], q, t, p) && !HasKey(rs[..j], rs[j].key)
    ensures rs[j].key == KeyAt(t, q.source, rs[j].depth)
  {
    hide Decide, DecideBounds, HasKey, Cooling, CountPromotions, Depth;
    assert Decided(rs, j, registry, p);
    q :| DecidedAt(rs, j, q, registry, p);
    ProposalFacts(rs[..j], q, registry, p);
    t := registry[q.transition];
    BoundFacts(rs[..j], q, t, p);
  }

  lemma {:induction false} DepthSeen(rs: seq<Receipt>, roadmap: string, i: nat)
    requires i < |rs| && rs[i].roadmap == roadmap
    ensures Depths(rs, roadmap).Some? && rs[i].depth <= ChainDepth(rs, roadmap)
  {
    if i < |rs| - 1 { DepthSeen(rs[..|rs| - 1], roadmap, i); }
  }

  lemma {:induction false} PromotionSeen(rs: seq<Receipt>, roadmap: string, i: nat)
    requires i < |rs| && Proposes(rs[i], roadmap)
    ensures LastAt(rs, roadmap).Some? && rs[i].at <= LastAt(rs, roadmap).value
  {
    if i < |rs| - 1 { PromotionSeen(rs[..|rs| - 1], roadmap, i); }
  }

  /** Proposals of one roadmap: strictly deeper each time, within policy and
      transition, a cooldown apart, and under pairwise distinct keys. */
  lemma ProposalsBounded(rs: seq<Receipt>, registry: Registry, p: Policy, roadmap: string)
    requires Grown(rs, registry, p)
    ensures forall j :: 0 <= j < |rs| && Proposes(rs[j], roadmap) ==>
      && rs[j].depth <= p.maxDepth && rs[j].key.Promotion?
      && rs[j].key.transition in registry && rs[j].depth <= registry[rs[j].key.transition].maxDepth
    ensures forall i, j :: 0 <= i < j < |rs| && Proposes(rs[i], roadmap) && Proposes(rs[j], roadmap) ==>
      && rs[i].depth < rs[j].depth && rs[j].at - rs[i].at >= p.cooldown as real && rs[i].key != rs[j].key
  {
    hide Decided;
    forall j | 0 <= j < |rs| && Proposes(rs[j], roadmap)
      ensures rs[j].depth <= p.maxDepth && rs[j].key.Promotion?
      ensures rs[j].key.transition in registry && rs[j].depth <= registry[rs[j].key.transition].maxDepth
      ensures forall i :: 0 <= i < j && Proposes(rs[i], roadmap) ==>
        rs[i].depth < rs[j].depth && rs[j].at - rs[i].at >= p.cooldown as real && rs[i].key != rs[j].key
    {
      var q, t := ProposalAt(rs, j, registry, p);
      forall i | 0 <= i < j && Proposes(rs[i], roadmap)
        ensures rs[i].depth < rs[j].depth && rs[j].at - rs[i].at >= p.cooldown as real && rs[i].key != rs[j].key
      {
        assert rs[..j][i] == rs[i];
        DepthSeen(rs[..j], roadmap, i);
        PromotionSeen(rs[..j], roadmap, i);
      }
    }
  }

  lemma {:induction false} DepthsCount(rs: seq<Receipt>, registry: Registry, p: Policy, roadmap: string)
    requires Grown(rs, registry, p)
    ensures CountPromotions(rs, roadmap) <= ChainDepth(rs, roadmap)
    ensures CountPromotions(rs, roadmap) <= p.maxPromotions
    ensures CountPromotions(rs, roadmap) > 0 ==> ChainDepth(rs, roadmap) <= p.maxDepth
  {
    hide Decided;
    if rs != [] {
      var init, last := rs[..|rs| - 1], rs[|rs| - 1];
      GrownTo(rs, |rs| - 1, registry, p);
      DepthsCount(init, registry, p, roadmap);
      NoDepths(init, roadmap);
      if Proposes(last, roadmap) {
        var q, t := ProposalAt(rs, |rs| - 1, registry, p);
      } else if last.decision != Propose {
        PlainDepth(rs, |rs| - 1, registry, p);
      }
    }
  }

  lemma PlainDepth(rs: seq<Receipt>, j: nat, registry: Registry, p: Policy)
    requires j < |rs| && Grown(rs, registry, p) && rs[j].decision != Propose
    ensures rs[j].depth == 0
  {
    hide Decide, DecideBounds;
    assert Decided(rs, j, registry, p);
    var q :| DecidedAt(rs, j, q, registry, p);
    ProposalFacts(rs[..j], q, registry, p);
    if q.transition in registry { BoundFacts(rs[..j], q, registry[q.transition], p); }
  }

  lemma {:induction false} NoDepths(rs: seq<Receipt>, roadmap: string)
    ensures Depths(rs, roadmap).None? ==> CountPromotions(rs, roadmap) == 0
  {
    if rs != [] { NoDepths(rs[..|rs| - 1], roadmap); }
  }

  /** A roadmap is promoted at most min(max depth, max promotions) times. */
  lemma PromotionBudget(rs: seq<Receipt>, registry: Registry, p: Policy, roadmap: string)
    requires Grown(rs, registry, p)
    ensures CountPromotions(rs, roadmap) <= Min(p.maxDepth, p.maxPromotions)
  {
    hide Grown;
    DepthsCount(rs, registry, p, roadmap);
  }

  // ----- the proposal ledger -----

  class PromotionLedger {
    var receipts: seq<Receipt>

    constructor (receipts: seq<Receipt>)
      ensures this.receipts == receipts
    {
      this.receipts := receipts;
    }

    /** propose_roadmap_promotion: at most one receipt, and the receipt that
        answers for the event, old or new. */
    method ProposePromotion(q: Request, registry: Registry, input: PolicyInput) returns (isNew: bool, r: Receipt)
      modifies this
      ensures receipts == Proposed(old(receipts), q, registry, input)
      ensures isNew <==> !HasEvent(old(receipts), StoredId(q.eventId))
      ensures isNew ==> r == Decide(old(receipts), q, registry, input)
      ensures !isNew ==> Some(r) == Prior(old(receipts), StoredId(q.eventId)) && r.eventId == StoredId(q.eventId)
    {
      hide Decide;
      var prior := Prior(receipts, StoredId(q.eventId));
      if prior.Some? {
        PriorEvent(receipts, StoredId(q.eventId));
        return false, prior.value;
      }
      r := Decide(receipts, q, registry, input);
      receipts := receipts + [r];
      isNew := true;
    }
  }

  lemma {:induction false} PriorEvent(rs: seq<Receipt>, id: string)
    requires Prior(rs, id).Some?
    ensures Prior(rs, id).value.eventId == id
  {
    if rs[|rs| - 1].eventId != id { PriorEvent(rs[..|rs| - 1], id); }
  }

  // ----- the board a graph is applied to -----

  datatype TaskKey = TaskKey(promo: PromoKey, kind: string)
  datatype BoardTask = BoardTask(id: string, parent: string)
  type Board = map<TaskKey, BoardTask>

  /** An adapter that may refuse, act and then refuse, or answer without an id,
      but resolves a repeated key to the task it made first. */
  class GraphAdapter {
    var tasks: Board
    ghost var calls: nat
    /** Calls so far not answered with success and an id. */
    ghost var failures: nat

    constructor ()
      ensures tasks == map[]
    {
      tasks, calls, failures := map[], 0, 0;
    }

    method CreateGraph(key: TaskKey, parent: Option<TaskKey>) returns (ok: bool, id: string)
      requires Named(tasks)
      modifies this
      ensures calls == old(calls) + 1
      ensures key in old(tasks) ==> tasks == old(tasks)
      ensures key !in old(tasks) ==>
        tasks == old(tasks) || (key in tasks && tasks == old(tasks)[key := tasks[key]]
          && tasks[key].parent == ParentId(old(tasks), parent) && tasks[key].id != "")
      ensures ok && id != "" ==> key in tasks && tasks[key].id == id
      ensures failures == old(failures) + (if ok && id != "" then 0 else 1)
    {
      calls, failures := calls + 1, failures + 1;
      ok, id := false, "";
      var acts: bool := *;
      if !acts { return; }
      if key !in tasks {
        var suffix: string := *;
        tasks := tasks[key := BoardTask("t_" + suffix, ParentId(tasks, parent))];
      }
      ok := *;
      var named: bool := *;
      if named {
        id := tasks[key].id;
        if ok { failures := failures - 1; }
      }
    }
  }

  predicate Named(tasks: Board) { forall k :: k in tasks ==> tasks[k].id != "" }

  function ParentId(tasks: Board, parent: Option<TaskKey>): string {
    if parent.Some? && parent.value in tasks then tasks[parent.value].id else ""
  }

  /** The kinds of the tasks one promotion key stands for, in order. */
  function PlanOf(registry: Registry, key: PromoKey): seq<string> {
    if key.Promotion? && key.transition in registry then
      var t := registry[key.transition];
      match Resolve(t.preset, t.kinds)
      case None => []
      case Some(steps) => Kinds(steps)
    else []
  }

  /** Task i of the plan: the first has no parent, each later one has the task of
      the step before it. */
  ghost predicate ChainedAt(tasks: Board, key: PromoKey, kinds: seq<string>, i: nat)
    requires i < |kinds|
  {
    TaskKey(key, kinds[i]) in tasks ==>
      if i == 0 then tasks[TaskKey(key, kinds[i])].parent == ""
      else
        && TaskKey(key, kinds[i - 1]) in tasks
        && tasks[TaskKey(key, kinds[i])].parent == tasks[TaskKey(key, kinds[i - 1])].id
  }

  /** Every task has an id, belongs to a step of its promotion's plan and is
      chained. */
  ghost predicate BoardOk(tasks: Board, registry: Registry) {
    && Named(tasks)
    && (forall k :: k in tasks ==> k.kind in PlanOf(registry, k.promo))
    && (forall key, i :: 0 <= i < |PlanOf(registry, key)| ==> ChainedAt(tasks, key, PlanOf(registry, key), i))
  }

  /** One task for every step of the plan. */
  predicate Complete(tasks: Board, registry: Registry, key: PromoKey) {
    var kinds := PlanOf(registry, key);
    forall i :: 0 <= i < |kinds| ==> TaskKey(key, kinds[i]) in tasks
  }

  /** The ids of the plan's tasks, in order. */
  predicate Recorded(tasks: Board, registry: Registry, key: PromoKey, ids: seq<string>) {
    var kinds := PlanOf(registry, key);
    |ids| == |kinds| && forall i :: 0 <= i < |kinds| ==>
      TaskKey(key, kinds[i]) in tasks && tasks[TaskKey(key, kinds[i])].id == ids[i]
  }

  predicate Keeps(tasks: Board, tasks': Board) {
    forall k :: k in tasks ==> k in tasks' && tasks'[k] == tasks[k]
  }

  lemma PlanDistinct(registry: Registry, key: PromoKey)
    ensures Distinct(PlanOf(registry, key))
  {
    if key.Promotion? && key.transition in registry {
      var t := registry[key.transition];
      if Resolve(t.preset, t.kinds).Some? { ResolvedShape(t.preset, t.kinds); }
    }
  }

  /** One create in plan order keeps the board chained. */
  lemma CreateKeepsBoard(tasks: Board, tasks': Board, registry: Registry, key: PromoKey, i: nat)
    requires BoardOk(tasks, registry) && i < |PlanOf(registry, key)|
    requires forall j :: 0 <= j < i ==> TaskKey(key, PlanOf(registry, key)[j]) in tasks
    requires var kinds := PlanOf(registry, key); var k := TaskKey(key, kinds[i]);
      tasks' == tasks
      || (k !in tasks && k in tasks' && tasks' == tasks[k := tasks'[k]]
          && tasks'[k].parent == ParentId(tasks, if i == 0 then None else Some(TaskKey(key, kinds[i - 1])))
          && tasks'[k].id != "")
    ensures BoardOk(tasks', registry) && Keeps(tasks, tasks')
  {
    hide PlanOf;
    PlanDistinct(registry, key);
    var kinds := PlanOf(registry, key);
    if tasks' != tasks {
      forall other, j | 0 <= j < |PlanOf(registry, other)|
        ensures ChainedAt(tasks', other, PlanOf(registry, other), j)
      {
        assert ChainedAt(tasks, other, PlanOf(registry, other), j);
      }
    }
  }

  lemma BoardNamed(tasks: Board, registry: Registry)
    requires BoardOk(tasks, registry)
    ensures Named(tasks)
  {}

  // ----- apply -----

  class ApplyLedger {
    /** The committed graphs: promotion key to task ids in plan order. */
    var applied: map<PromoKey, seq<string>>

    constructor ()
      ensures applied == map[]
    {
      applied := map[];
    }
  }

  ghost predicate ApplyOk(applied: map<PromoKey, seq<string>>, tasks: Board, registry: Registry) {
    forall key :: key in applied ==> Recorded(tasks, registry, key, applied[key])
  }

  datatype ApplyResult = Duplicate(ids: seq<string>) | ProposalOnly(reason: string) | Failed(reason: string) | Applied(ids: seq<string>)

  lemma ApplyOkKept(applied: map<PromoKey, seq<string>>, tasks: Board, tasks': Board, registry: Registry)
    requires ApplyOk(applied, tasks, registry) && Keeps(tasks, tasks')
    ensures ApplyOk(applied, tasks', registry)
  {
    hide PlanOf;
    forall key | key in applied ensures Recorded(tasks', registry, key, applied[key]) {
      assert Recorded(tasks, registry, key, applied[key]);
    }
  }

  /** The creates of one plan, in order, up to the first that is not a success
      with a task id. */
  method CreateAll(adapter: GraphAdapter, registry: Registry, key: PromoKey, kinds: seq<string>)
    returns (failure: string, ids: seq<string>)
    requires BoardOk(adapter.tasks, registry) && kinds == PlanOf(registry, key)
    modifies adapter
    ensures BoardOk(adapter.tasks, registry) && Keeps(old(adapter.tasks), adapter.tasks)
    ensures failure == "" ==> Recorded(adapter.tasks, registry, key, ids)
    ensures adapter.failures == old(adapter.failures) + (if failure == "" then 0 else 1)
    ensures forall k :: k in adapter.tasks && k !in old(adapter.tasks) ==> k.promo == key
    ensures adapter.calls >= old(adapter.calls)
    ensures adapter.calls == old(adapter.calls) ==> adapter.tasks == old(adapter.tasks)
  {
    hide PlanOf, BoardOk;
    failure, ids := "", [];
    for i := 0 to |kinds|
      invariant BoardOk(adapter.tasks, registry) && Keeps(old(adapter.tasks), adapter.tasks)
      invariant |ids| == i && adapter.calls == old(adapter.calls) + i && adapter.failures == old(adapter.failures)
      invariant i == 0 ==> adapter.tasks == old(adapter.tasks)
      invariant forall j :: 0 <= j < i ==>
        TaskKey(key, kinds[j]) in adapter.tasks && adapter.tasks[TaskKey(key, kinds[j])].id == ids[j]
      invariant forall k :: k in adapter.tasks && k !in old(adapter.tasks) ==> k.promo == key
    {
      ghost var before := adapter.tasks;
      BoardNamed(before, registry);
      var parent := if i == 0 then None else Some(TaskKey(key, kinds[i - 1]));
      var ok, id := adapter.CreateGraph(TaskKey(key, kinds[i]), parent);
      CreateKeepsBoard(before, adapter.tasks, registry, key, i);
      if !ok { return "adapter_create_failed", ids; }
      if id == "" { return "missing_task_id", ids; }
      ids := ids + [id];
    }
  }

  /** The receipt that answers for a request: the event's own, or the one decided. */
  function Answer(rs: seq<Receipt>, q: Request, registry: Registry, input: PolicyInput): Receipt {
    match Prior(rs, StoredId(q.eventId)) case Some(r) => r case None => Decide(rs, q, registry, input)
  }

  /** A new event that becomes a proposal. */
  predicate Fresh(rs: seq<Receipt>, q: Request, registry: Registry, input: PolicyInput) {
    !HasEvent(rs, StoredId(q.eventId)) && Decide(rs, q, registry, input).decision == Propose && input.Some?
  }

  /** Apply is switched on and armed, the proposal is new, its graph is not
      committed yet and within the bound. */
  predicate Attempted(rs: seq<Receipt>, applied: map<PromoKey, seq<string>>, q: Request, registry: Registry,
                      input: PolicyInput, armed: bool)
  {
    && armed && Fresh(rs, q, registry, input) && input.value.applyEnabled
    && Decide(rs, q, registry, input).key !in applied
    && |PlanOf(registry, Decide(rs, q, registry, input).key)| <= input.value.maxApplyTasks
  }

  /** The receipts after an apply that stopped at the proposal. */
  function ReceiptsKept(rs: seq<Receipt>, q: Request, registry: Registry, input: PolicyInput): seq<Receipt> {
    if Fresh(rs, q, registry, input) && input.value.applyEnabled then rs else Proposed(rs, q, registry, input)
  }

  lemma ProposalHasPolicy(rs: seq<Receipt>, q: Request, registry: Registry, input: PolicyInput)
    ensures Decide(rs, q, registry, input).decision == Propose ==> input.Some?
  {
    hide DecideBounds, Gate, ValidTransition;
  }

  /** apply_roadmap_promotion. The proposal is made on a shadow of the ledger; its
      receipt is kept only when no create can fail any more. */
  method ApplyPromotion(ledger: PromotionLedger, graphs: ApplyLedger, adapter: GraphAdapter,
                        q: Request, registry: Registry, input: PolicyInput, armed: bool)
    returns (res: ApplyResult)
    requires BoardOk(adapter.tasks, registry) && ApplyOk(graphs.applied, adapter.tasks, registry)
    modifies ledger, graphs, adapter
    ensures BoardOk(adapter.tasks, registry) && ApplyOk(graphs.applied, adapter.tasks, registry)
    ensures Keeps(old(adapter.tasks), adapter.tasks)
    // a committed graph is answered from the ledger
    ensures var key := Answer(old(ledger.receipts), q, registry, input).key;
      && (res.Duplicate? <==> key in old(graphs.applied))
      && (res.Duplicate? ==> res.ids == old(graphs.applied)[key] && ledger.receipts == old(ledger.receipts))
    // a failed apply leaves both ledgers exactly as they were
    ensures res.Failed? ==> ledger.receipts == old(ledger.receipts) && graphs.applied == old(graphs.applied)
    // a proposal keeps its receipt unless apply is armed and only a later bound refused it
    ensures res.ProposalOnly? ==> ledger.receipts == ReceiptsKept(old(ledger.receipts), q, registry, input)
    // an applied one records the complete graph under its key
    ensures res.Applied? ==>
      && !HasEvent(old(ledger.receipts), StoredId(q.eventId))
      && var r := Decide(old(ledger.receipts), q, registry, input);
        && r.decision == Propose && r.key !in old(graphs.applied)
        && ledger.receipts == old(ledger.receipts) + [r]
        && graphs.applied == old(graphs.applied)[r.key := res.ids]
        && Complete(adapter.tasks, registry, r.key)
    ensures !res.Applied? ==> graphs.applied == old(graphs.applied)
    // exactly when a graph is attempted, and a cooperating adapter commits it
    ensures res.Applied? || res.Failed? <==>
      Attempted(old(ledger.receipts), old(graphs.applied), q, registry, input, armed)
    ensures res.Failed? <==> adapter.failures > old(adapter.failures)
    // and nothing else calls the adapter
    ensures adapter.calls > old(adapter.calls) ==> res.Applied? || res.Failed?
    ensures adapter.calls >= old(adapter.calls)
    ensures adapter.calls == old(adapter.calls) ==> adapter.tasks == old(adapter.tasks)
  {
    hide Decide, PlanOf, BoardOk, Recorded, HasEvent;
    var shadow := new PromotionLedger(ledger.receipts);
    ProposalHasPolicy(ledger.receipts, q, registry, input);
    var isNew, r := shadow.ProposePromotion(q, registry, input);
    var key := r.key;
    if key in graphs.applied { return Duplicate(graphs.applied[key]); }
    if !isNew || r.decision != Propose {
      ledger.receipts := shadow.receipts;
      return ProposalOnly(r.reason);
    }
    if input.None? || !input.value.applyEnabled {
      ledger.receipts := shadow.receipts;
      return ProposalOnly("apply_disabled");
    }
    if !armed { return ProposalOnly("no_adapter"); }
    var kinds := PlanOf(registry, key);
    if |kinds| > input.value.maxApplyTasks { return ProposalOnly("max_apply_tasks_per_graph"); }
    ghost var before := adapter.tasks;
    var failure, ids := CreateAll(adapter, registry, key, kinds);
    ApplyOkKept(graphs.applied, before, adapter.tasks, registry);
    if failure != "" { return Failed(failure); }
    ledger.receipts := shadow.receipts;
    graphs.applied := graphs.applied[key := ids];
    CompleteWhenRecorded(adapter.tasks, registry, key, ids);
    return ApplyResult.Applied(ids);
  }

  lemma CompleteWhenRecorded(tasks: Board, registry: Registry, key: PromoKey, ids: seq<string>)
    requires Recorded(tasks, registry, key, ids)
    ensures Complete(tasks, registry, key)
  {
    hide PlanOf;
  }

  lemma TaskOfPlan(tasks: Board, registry: Registry, k: TaskKey)
    requires BoardOk(tasks, registry) && k in tasks
    ensures k.kind in PlanOf(registry, k.promo)
  {}

  /** Step i's task carries the recorded id and the task of the step before as its
      parent. */
  ghost predicate LinkedAt(tasks: Board, key: PromoKey, kinds: seq<string>, ids: seq<string>, i: nat)
    requires i < |kinds| == |ids|
  {
    && TaskKey(key, kinds[i]) in tasks && tasks[TaskKey(key, kinds[i])].id == ids[i]
    && if i == 0 then tasks[TaskKey(key, kinds[i])].parent == ""
       else
         && TaskKey(key, kinds[i - 1]) in tasks
         && tasks[TaskKey(key, kinds[i])].parent == tasks[TaskKey(key, kinds[i - 1])].id
  }

  lemma ChainOfPlan(tasks: Board, registry: Registry, key: PromoKey, i: nat)
    requires BoardOk(tasks, registry) && i < |PlanOf(registry, key)|
    ensures ChainedAt(tasks, key, PlanOf(registry, key), i)
  {}

  /** A committed graph: exactly one task per template step, each parented to the
      one before, and no other task under its key. */
  lemma CommittedGraph(applied: map<PromoKey, seq<string>>, tasks: Board, registry: Registry, key: PromoKey)
    requires BoardOk(tasks, registry) && ApplyOk(applied, tasks, registry) && key in applied
    ensures Distinct(PlanOf(registry, key)) && |applied[key]| == |PlanOf(registry, key)|
    ensures forall kind :: TaskKey(key, kind) in tasks <==> kind in PlanOf(registry, key)
    ensures forall i :: 0 <= i < |PlanOf(registry, key)| ==>
      LinkedAt(tasks, key, PlanOf(registry, key), applied[key], i)
  {
    hide PlanOf, Distinct, BoardOk;
    PlanDistinct(registry, key);
    var kinds := PlanOf(registry, key);
    assert Recorded(tasks, registry, key, applied[key]);
    forall kind | kind in kinds ensures TaskKey(key, kind) in tasks {
      var i :| 0 <= i < |kinds| && kinds[i] == kind;
      assert TaskKey(key, kinds[i]) in tasks;
    }
    forall kind | TaskKey(key, kind) in tasks ensures kind in kinds {
      TaskOfPlan(tasks, registry, TaskKey(key, kind));
    }
    forall i | 0 <= i < |kinds| ensures LinkedAt(tasks, key, kinds, applied[key], i) {
      ChainOfPlan(tasks, registry, key, i);
    }
  }

  // ----- the engine's use: a new proposal ledger for every event -----

  predicate SameGraph(a: Request, b: Request) {
    a.transition == b.transition && StoredSource(a.source) == StoredSource(b.source) && a.chainDepth == b.chainDepth
  }

  /** On an empty ledger the key depends on transition and source alone. */
  lemma EmptyLedgerKey(q: Request, registry: Registry, input: PolicyInput)
    requires Decide([], q, registry, input).decision == Propose
    ensures q.transition in registry
    ensures Decide([], q, registry, input).key == KeyAt(registry[q.transition], q.source, Max(q.chainDepth, 0) + 1)
  {
    ProposalFacts([], q, registry, input.value);
    BoundFacts([], q, registry[q.transition], input.value);
  }

  /** The roadmap branch of ingest_board_once over any run of events, with retries
      of events that failed among them. From the event on that got its graph
      applied, every event for the same graph costs no adapter call. */
  method RouteAll(graphs: ApplyLedger, adapter: GraphAdapter, qs: seq<Request>, registry: Registry,
                  input: PolicyInput, armed: bool)
    returns (results: seq<ApplyResult>, ghost calls: seq<nat>)
    requires BoardOk(adapter.tasks, registry) && ApplyOk(graphs.applied, adapter.tasks, registry)
    modifies graphs, adapter
    ensures BoardOk(adapter.tasks, registry) && ApplyOk(graphs.applied, adapter.tasks, registry)
    ensures |results| == |calls| == |qs|
    ensures forall i :: 0 <= i < |qs| && results[i].Applied? ==>
      Decide([], qs[i], registry, input).key in graphs.applied
    ensures forall i, j :: 0 <= i < j < |qs| && results[i].Applied? && SameGraph(qs[i], qs[j]) ==> calls[j] == 0
  {
    hide Decide, BoardOk, ApplyOk, HasEvent, Complete, Answer, ReceiptsKept, Proposed, PlanOf, Keeps, Named;
    results, calls := [], [];
    for n := 0 to |qs|
      invariant BoardOk(adapter.tasks, registry) && ApplyOk(graphs.applied, adapter.tasks, registry)
      invariant |results| == |calls| == n
      invariant forall i :: 0 <= i < n && results[i].Applied? ==>
        && Decide([], qs[i], registry, input).decision == Propose
        && Decide([], qs[i], registry, input).key in graphs.applied
      invariant forall i, j :: 0 <= i < j < n && results[i].Applied? && SameGraph(qs[i], qs[j]) ==> calls[j] == 0
    {
      ghost var made, committed := adapter.calls, graphs.applied;
      var ledger := new PromotionLedger([]);
      var res := ApplyPromotion(ledger, graphs, adapter, qs[n], registry, input, armed);
      if adapter.calls > made {
        EmptyLedgerKey(qs[n], registry, input);
        forall i | 0 <= i < n && results[i].Applied? ensures !SameGraph(qs[i], qs[n]) {
          EmptyLedgerKey(qs[i], registry, input);
        }
      }
      results, calls := results + [res], calls + [adapter.calls - made];
    }
  }
}
