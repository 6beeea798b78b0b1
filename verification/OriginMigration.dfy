/** Discord origin canonicalization (origin_migration.py): one board transaction
    that rekeys symbolic chat ids to a numeric one, merging colliding receipts. */
module OriginMigration {
  import opened Domain

  datatype Endpoint = Endpoint(platform: string, chat: string, thread: string)

  datatype ReceiptKey = ReceiptKey(task: string, platform: string, chat: string, thread: string)

  datatype Facts = Facts(
    notify: string, wake: string, ack: string, notifyAt: int, wakeAt: int, ackAt: int, updatedAt: int)

  datatype Subscription = Subscription(task: string, at: Endpoint)

  const DISCORD := "discord"

  function NotifyRank(s: string): int {
    if s == "delivered" then 3
    else if s == "pending" || s == "queued" || s == "failed" || s == "retrying" then 1
    else 0
  }

  function WakeRank(s: string): int {
    if s == "completed" then 5 else if s == "started" then 4 else if s == "accepted" then 3
    else if s == "scheduled" then 2 else if s == "pending" then 1 else 0
  }

  function Max(a: int, b: int): int { if a >= b then a else b }

  predicate AcksConflict(a: Facts, b: Facts) { a.ack != "" && b.ack != "" && a.ack != b.ack }

  /** merge_receipt_facts, once the ACKs do not conflict. Ties keep the target. */
  function Merge(source: Facts, target: Facts): Facts {
    Facts(
      if NotifyRank(source.notify) > NotifyRank(target.notify) then source.notify else target.notify,
      if WakeRank(source.wake) > WakeRank(target.wake) then source.wake else target.wake,
      if target.ack != "" then target.ack else source.ack,
      Max(source.notifyAt, target.notifyAt), Max(source.wakeAt, target.wakeAt),
      Max(source.ackAt, target.ackAt), Max(source.updatedAt, target.updatedAt))
  }

  type Receipts = map<ReceiptKey, Facts>

  function At(task: string, chat: string, thread: string): ReceiptKey { ReceiptKey(task, DISCORD, chat, thread) }

  // ----- the inputs -----

  const ALIASES := ["#research", "research"]

  /** source_match_tokens, on a trimmed source: two names of one lane, or the
      exact token. */
  function SourceTokens(source: string): seq<string> {
    if source in ALIASES then ALIASES else if source != "" then [source] else []
  }

  /** The digits beyond ASCII, whichever they are. */
  const OTHER_DIGITS: set<char>

  predicate Digit(c: char) { '0' <= c <= '9' || (c > '\U{7f}' && c in OTHER_DIGITS) }

  predicate Numeric(chat: string) { chat != "" && forall i :: 0 <= i < |chat| ==> Digit(chat[i]) }

  predicate AllHash(source: string) { forall i :: 0 <= i < |source| ==> source[i] == '#' }

  /** validate_migration_inputs accepts. */
  predicate ValidInputs(source: string, dst: string) { Numeric(dst) && !AllHash(source) && source != dst }

  /** Accepted inputs are what the transaction relies on. */
  lemma InputsFit(source: string, dst: string)
    requires ValidInputs(source, dst)
    ensures var tokens := SourceTokens(source);
      tokens != [] && dst !in tokens && forall i, j :: 0 <= i < j < |tokens| ==> tokens[i] != tokens[j]
  {
    assert ALIASES[0][0] == '#' && ALIASES[1][0] == 'r';
  }

  // ----- what becomes of one (task, thread) -----

  datatype Folded = Absent | One(facts: Facts) | Conflict

  /** The numeric row and then each token's row, merged in that order. */
  function Fold(rs: Receipts, task: string, thread: string, dst: string, tokens: seq<string>): Folded {
    if tokens == [] then
      if At(task, dst, thread) in rs then One(rs[At(task, dst, thread)]) else Absent
    else
      Joined(rs, Fold(rs, task, thread, dst, tokens[..|tokens| - 1]), At(task, tokens[|tokens| - 1], thread))
  }

  function Joined(rs: Receipts, so_far: Folded, key: ReceiptKey): Folded {
    if key !in rs then so_far
    else match so_far
      case Conflict => Conflict
      case Absent => One(rs[key])
      case One(target) => if AcksConflict(rs[key], target) then Conflict else One(Merge(rs[key], target))
  }

  /** The chats whose rows end up in one numeric row. */
  predicate Merged(chat: string, dst: string, tokens: seq<string>) { chat == dst || chat in tokens }

  predicate RowAt(rs: Receipts, task: string, thread: string, dst: string, tokens: seq<string>, chat: string) {
    Merged(chat, dst, tokens) && At(task, chat, thread) in rs
  }

  /** No row merged in is stronger than the merged one in any field. */
  predicate Covers(f: Facts, r: Facts) {
    && NotifyRank(r.notify) <= NotifyRank(f.notify) && WakeRank(r.wake) <= WakeRank(f.wake)
    && r.notifyAt <= f.notifyAt && r.wakeAt <= f.wakeAt && r.ackAt <= f.ackAt && r.updatedAt <= f.updatedAt
    && (r.ack != "" ==> f.ack == r.ack)
  }

  lemma MergeCovers(source: Facts, target: Facts)
    requires !AcksConflict(source, target)
    ensures Covers(Merge(source, target), source) && Covers(Merge(source, target), target)
  {}

  lemma CoversTransitive(a: Facts, b: Facts, c: Facts)
    requires Covers(a, b) && Covers(b, c)
    ensures Covers(a, c)
  {}

  /** The merged row covers every row merged into it. */
  lemma {:induction false} FoldCovers(rs: Receipts, task: string, thread: string, dst: string, tokens: seq<string>, chat: string)
    requires RowAt(rs, task, thread, dst, tokens, chat)
    ensures var f := Fold(rs, task, thread, dst, tokens);
      f != Absent && (f.One? ==> Covers(f.facts, rs[At(task, chat, thread)]))
  {
    hide Covers, Merge, AcksConflict;
    if tokens == [] {
      CoversItself(rs[At(task, chat, thread)]);
    } else {
      var init, last := tokens[..|tokens| - 1], tokens[|tokens| - 1];
      var key, before := At(task, last, thread), Fold(rs, task, thread, dst, init);
      assert chat in tokens ==> chat in init || chat == last;
      if Merged(chat, dst, init) { FoldCovers(rs, task, thread, dst, init, chat); }
      if key in rs {
        CoversItself(rs[key]);
        if before.One? && !AcksConflict(rs[key], before.facts) {
          MergeCovers(rs[key], before.facts);
          if Merged(chat, dst, init) {
            CoversTransitive(Merge(rs[key], before.facts), before.facts, rs[At(task, chat, thread)]);
          }
        }
      }
    }
  }

  lemma CoversItself(f: Facts)
    ensures Covers(f, f)
  {}

  /** Every field of the merged row is some merged row's field. */
  ghost predicate Drawn(rs: Receipts, task: string, thread: string, dst: string, tokens: seq<string>, f: Facts) {
    && (exists c :: RowAt(rs, task, thread, dst, tokens, c) && rs[At(task, c, thread)].notify == f.notify)
    && (exists c :: RowAt(rs, task, thread, dst, tokens, c) && rs[At(task, c, thread)].wake == f.wake)
    && (exists c :: RowAt(rs, task, thread, dst, tokens, c) && rs[At(task, c, thread)].ack == f.ack)
    && (exists c :: RowAt(rs, task, thread, dst, tokens, c) && rs[At(task, c, thread)].notifyAt == f.notifyAt)
    && (exists c :: RowAt(rs, task, thread, dst, tokens, c) && rs[At(task, c, thread)].wakeAt == f.wakeAt)
    && (exists c :: RowAt(rs, task, thread, dst, tokens, c) && rs[At(task, c, thread)].ackAt == f.ackAt)
    && (exists c :: RowAt(rs, task, thread, dst, tokens, c) && rs[At(task, c, thread)].updatedAt == f.updatedAt)
  }

  lemma DrawnOne(rs: Receipts, task: string, thread: string, dst: string, tokens: seq<string>, chat: string)
    requires RowAt(rs, task, thread, dst, tokens, chat)
    ensures Drawn(rs, task, thread, dst, tokens, rs[At(task, chat, thread)])
  {}

  lemma DrawnMore(rs: Receipts, task: string, thread: string, dst: string, tokens: seq<string>, token: string, f: Facts)
    requires Drawn(rs, task, thread, dst, tokens, f)
    ensures Drawn(rs, task, thread, dst, tokens + [token], f)
  {
    forall c | RowAt(rs, task, thread, dst, tokens, c) ensures RowAt(rs, task, thread, dst, tokens + [token], c) {}
  }

  lemma DrawnMerge(rs: Receipts, task: string, thread: string, dst: string, tokens: seq<string>, a: Facts, b: Facts)
    requires Drawn(rs, task, thread, dst, tokens, a) && Drawn(rs, task, thread, dst, tokens, b)
    ensures Drawn(rs, task, thread, dst, tokens, Merge(a, b))
  {
    hide RowAt;
  }

  lemma {:induction false} FoldDrawn(rs: Receipts, task: string, thread: string, dst: string, tokens: seq<string>)
    requires Fold(rs, task, thread, dst, tokens).One?
    ensures Drawn(rs, task, thread, dst, tokens, Fold(rs, task, thread, dst, tokens).facts)
  {
    hide Drawn, Merge, AcksConflict;
    if tokens == [] {
      DrawnOne(rs, task, thread, dst, tokens, dst);
    } else {
      var init, last := tokens[..|tokens| - 1], tokens[|tokens| - 1];
      assert tokens == init + [last];
      var before := Fold(rs, task, thread, dst, init);
      if before.One? {
        FoldDrawn(rs, task, thread, dst, init);
        DrawnMore(rs, task, thread, dst, init, last, before.facts);
      }
      if At(task, last, thread) in rs {
        DrawnOne(rs, task, thread, dst, tokens, last);
        if before.One? { DrawnMerge(rs, task, thread, dst, tokens, rs[At(task, last, thread)], before.facts); }
      }
    }
  }

  /** Two rows to be merged that carry different ACKs. */
  ghost predicate Ambiguous(rs: Receipts, task: string, thread: string, dst: string, tokens: seq<string>) {
    exists a, b ::
      && RowAt(rs, task, thread, dst, tokens, a) && RowAt(rs, task, thread, dst, tokens, b)
      && AcksConflict(rs[At(task, a, thread)], rs[At(task, b, thread)])
  }

  /** The merge fails exactly on different non-empty ACKs. */
  lemma {:induction false} FoldConflictIff(rs: Receipts, task: string, thread: string, dst: string, tokens: seq<string>)
    ensures Fold(rs, task, thread, dst, tokens) == Conflict <==> Ambiguous(rs, task, thread, dst, tokens)
  {
    if Fold(rs, task, thread, dst, tokens) == Conflict {
      ConflictAmbiguous(rs, task, thread, dst, tokens);
    } else if Ambiguous(rs, task, thread, dst, tokens) {
      var a, b :|
        && RowAt(rs, task, thread, dst, tokens, a) && RowAt(rs, task, thread, dst, tokens, b)
        && AcksConflict(rs[At(task, a, thread)], rs[At(task, b, thread)]);
      FoldCovers(rs, task, thread, dst, tokens, a);
      FoldCovers(rs, task, thread, dst, tokens, b);
    }
  }

  lemma {:induction false} ConflictAmbiguous(rs: Receipts, task: string, thread: string, dst: string, tokens: seq<string>)
    requires Fold(rs, task, thread, dst, tokens) == Conflict
    ensures Ambiguous(rs, task, thread, dst, tokens)
  {
    hide Drawn;
    var init, last := tokens[..|tokens| - 1], tokens[|tokens| - 1];
    var before := Fold(rs, task, thread, dst, init);
    if before == Conflict {
      ConflictAmbiguous(rs, task, thread, dst, init);
      var a, b :|
        && RowAt(rs, task, thread, dst, init, a) && RowAt(rs, task, thread, dst, init, b)
        && AcksConflict(rs[At(task, a, thread)], rs[At(task, b, thread)]);
      assert RowAt(rs, task, thread, dst, tokens, a) && RowAt(rs, task, thread, dst, tokens, b);
    } else {
      FoldDrawn(rs, task, thread, dst, init);
      var a := AckDrawn(rs, task, thread, dst, init, before.facts);
      assert RowAt(rs, task, thread, dst, tokens, a) && RowAt(rs, task, thread, dst, tokens, last);
      assert AcksConflict(rs[At(task, last, thread)], rs[At(task, a, thread)]);
    }
  }

  lemma AckDrawn(rs: Receipts, task: string, thread: string, dst: string, tokens: seq<string>, f: Facts)
    returns (chat: string)
    requires Drawn(rs, task, thread, dst, tokens, f)
    ensures RowAt(rs, task, thread, dst, tokens, chat) && rs[At(task, chat, thread)].ack == f.ack
  {
    chat :| RowAt(rs, task, thread, dst, tokens, chat) && rs[At(task, chat, thread)].ack == f.ack;
  }

  // ----- the transaction -----

  predicate Symbolic(at: Endpoint, tokens: seq<string>) { at.platform == DISCORD && at.chat in tokens }

  function Moved(at: Endpoint, dst: string, tokens: seq<string>): Endpoint {
    if Symbolic(at, tokens) then at.(chat := dst) else at
  }

  function OriginsMoved(origins: map<string, Endpoint>, dst: string, tokens: seq<string>): map<string, Endpoint> {
    map t | t in origins :: Moved(origins[t], dst, tokens)
  }

  function SubsLeft(subs: set<Subscription>, tokens: seq<string>): set<Subscription> {
    set s | s in subs && !Symbolic(s.at, tokens)
  }

  /** The row a key has once these tokens are folded in. */
  predicate HasFolded(rs': Receipts, key: ReceiptKey, folded: Folded) {
    match folded
    case Absent => key !in rs'
    case One(f) => key in rs' && rs'[key] == f
    case Conflict => false
  }

  /** Rows of other chats and platforms are as before, no row of a token is left,
      and every numeric row holds what was folded into it. */
  ghost predicate ReceiptsMoved(rs: Receipts, rs': Receipts, dst: string, tokens: seq<string>) {
    && (forall k: ReceiptKey :: k.platform != DISCORD || !Merged(k.chat, dst, tokens) ==>
         (k in rs' <==> k in rs) && (k in rs ==> rs'[k] == rs[k]))
    && (forall k :: k in rs' && k.platform == DISCORD ==> k.chat !in tokens)
    && (forall task, thread ::
         HasFolded(rs', At(task, dst, thread), Fold(rs, task, thread, dst, tokens)))
  }

  /** The same with `token` half done: the rows in `todo` still wait. */
  ghost predicate HalfMoved(rs: Receipts, rs': Receipts, dst: string, tokens: seq<string>, token: string,
                            todo: set<ReceiptKey>) {
    && (forall k: ReceiptKey :: k.platform != DISCORD || !Merged(k.chat, dst, tokens + [token]) ==>
         (k in rs' <==> k in rs) && (k in rs ==> rs'[k] == rs[k]))
    && (forall k :: k in rs' && k.platform == DISCORD ==> k.chat !in tokens)
    && (forall k: ReceiptKey :: k.platform == DISCORD && k.chat == token ==> (k in rs' <==> k in todo))
    && (forall k :: k in todo ==> k in rs && k in rs' && k.platform == DISCORD && k.chat == token && rs'[k] == rs[k])
    && (forall task, thread ::
         HasFolded(rs', At(task, dst, thread),
           Fold(rs, task, thread, dst, if At(task, token, thread) in todo then tokens else tokens + [token])))
  }

  lemma FoldStep(rs: Receipts, task: string, thread: string, dst: string, tokens: seq<string>, token: string)
    ensures Fold(rs, task, thread, dst, tokens + [token])
         == Joined(rs, Fold(rs, task, thread, dst, tokens), At(task, token, thread))
  {
    assert (tokens + [token])[..|tokens + [token]| - 1] == tokens;
  }

  lemma StartToken(rs: Receipts, rs': Receipts, dst: string, tokens: seq<string>, token: string)
    requires ReceiptsMoved(rs, rs', dst, tokens) && token != dst && token !in tokens
    ensures HalfMoved(rs, rs', dst, tokens, token, set k | k in rs' && k.platform == DISCORD && k.chat == token)
  {
    hide Fold;
    var todo := set k | k in rs' && k.platform == DISCORD && k.chat == token;
    forall task, thread
      ensures HasFolded(rs', At(task, dst, thread),
        Fold(rs, task, thread, dst, if At(task, token, thread) in todo then tokens else tokens + [token]))
    {
      FoldStep(rs, task, thread, dst, tokens, token);
      assert At(task, token, thread) !in todo ==> At(task, token, thread) !in rs;
    }
  }

  lemma FinishToken(rs: Receipts, rs': Receipts, dst: string, tokens: seq<string>, token: string)
    requires HalfMoved(rs, rs', dst, tokens, token, {})
    ensures ReceiptsMoved(rs, rs', dst, tokens + [token])
  {
    hide Fold;
    forall task, thread
      ensures HasFolded(rs', At(task, dst, thread), Fold(rs, task, thread, dst, tokens + [token]))
    {
      assert At(task, token, thread) !in {};
    }
  }

  /** One row rekeyed or merged. */
  function MoveRow(rs: Receipts, key: ReceiptKey, dst: string): Receipts
    requires key in rs
  {
    var to := key.(chat := dst);
    if to in rs then rs[to := Merge(rs[key], rs[to])] - {key} else rs[to := rs[key]] - {key}
  }

  lemma MoveRowStep(rs: Receipts, cur: Receipts, dst: string, tokens: seq<string>, token: string,
                    todo: set<ReceiptKey>, key: ReceiptKey)
    requires HalfMoved(rs, cur, dst, tokens, token, todo) && key in todo && token != dst && token !in tokens
    requires dst !in tokens
    requires key.(chat := dst) in cur ==> !AcksConflict(cur[key], cur[key.(chat := dst)])
    ensures HalfMoved(rs, MoveRow(cur, key, dst), dst, tokens, token, todo - {key})
  {
    hide Fold, Merge, AcksConflict;
    var next, rest := MoveRow(cur, key, dst), todo - {key};
    forall task, thread
      ensures HasFolded(next, At(task, dst, thread),
        Fold(rs, task, thread, dst, if At(task, token, thread) in rest then tokens else tokens + [token]))
    {
      assert HasFolded(cur, At(task, dst, thread),
        Fold(rs, task, thread, dst, if At(task, token, thread) in todo then tokens else tokens + [token]));
      if At(task, token, thread) == key { FoldStep(rs, task, thread, dst, tokens, token); }
    }
  }

  lemma ConflictFound(rs: Receipts, cur: Receipts, dst: string, done: seq<string>, token: string,
                      todo: set<ReceiptKey>, key: ReceiptKey, tokens: seq<string>)
    requires HalfMoved(rs, cur, dst, done, token, todo) && key in todo
    requires key.(chat := dst) in cur && AcksConflict(cur[key], cur[key.(chat := dst)])
    requires forall t :: t in done + [token] ==> t in tokens
    ensures Ambiguous(rs, key.task, key.thread, dst, tokens)
  {
    hide AcksConflict;
    assert At(key.task, token, key.thread) == key;
    assert HasFolded(cur, At(key.task, dst, key.thread), Fold(rs, key.task, key.thread, dst, done));
    FoldStep(rs, key.task, key.thread, dst, done, token);
    FoldConflictIff(rs, key.task, key.thread, dst, done + [token]);
    MoreTokens(rs, key.task, key.thread, dst, done + [token], tokens);
  }

  lemma MoreTokens(rs: Receipts, task: string, thread: string, dst: string, some: seq<string>, all: seq<string>)
    requires Ambiguous(rs, task, thread, dst, some) && forall t :: t in some ==> t in all
    ensures Ambiguous(rs, task, thread, dst, all)
  {
    var a, b :|
      && RowAt(rs, task, thread, dst, some, a) && RowAt(rs, task, thread, dst, some, b)
      && AcksConflict(rs[At(task, a, thread)], rs[At(task, b, thread)]);
    assert RowAt(rs, task, thread, dst, all, a) && RowAt(rs, task, thread, dst, all, b);
  }

  /** The receipts under the tokens. */
  function RowsOf(rs: Receipts, tokens: seq<string>): set<ReceiptKey> {
    set k | k in rs && k.platform == DISCORD && k.chat in tokens
  }

  /** A token's rows are untouched until its turn comes. */
  lemma NextRows(rs: Receipts, cur: Receipts, dst: string, tokens: seq<string>, i: nat)
    requires i < |tokens| && ReceiptsMoved(rs, cur, dst, tokens[..i]) && dst !in tokens
    requires forall a, b :: 0 <= a < b < |tokens| ==> tokens[a] != tokens[b]
    ensures |RowsOf(rs, tokens[..i + 1])| == |RowsOf(rs, tokens[..i])| + |RowsOf(cur, [tokens[i]])|
  {
    hide Fold;
    var before, now := RowsOf(rs, tokens[..i]), RowsOf(cur, [tokens[i]]);
    assert tokens[i] !in tokens[..i] && tokens[i] != dst;
    assert tokens[..i + 1] == tokens[..i] + [tokens[i]];
    assert forall k: ReceiptKey :: k.chat == tokens[i] ==> (k in cur <==> k in rs);
    assert RowsOf(rs, tokens[..i + 1]) == before + now;
    assert before !! now;
  }

  datatype Outcome = Committed(rekeyed: nat, merged: nat) | ActiveWriters | AmbiguousMerge(task: string, thread: string)

  class Board {
    var origins: map<string, Endpoint>
    var receipts: Receipts
    var subs: set<Subscription>

    constructor (origins: map<string, Endpoint>, receipts: Receipts, subs: set<Subscription>)
      ensures this.origins == origins && this.receipts == receipts && this.subs == subs
    {
      this.origins, this.receipts, this.subs := origins, receipts, subs;
    }

    /** The rows of one token, each rekeyed or merged; None when none conflicts. */
    method MoveToken(token: string, dst: string, ghost rs: Receipts, ghost tokens: seq<string>)
      returns (conflict: Option<ReceiptKey>, rekeyed: nat, merged: nat)
      requires ReceiptsMoved(rs, receipts, dst, tokens)
      requires token != dst && token !in tokens && dst !in tokens
      modifies this`receipts
      ensures conflict == None ==> ReceiptsMoved(rs, receipts, dst, tokens + [token])
      ensures conflict == None ==> |receipts| + merged == |old(receipts)|
      ensures conflict == None ==> rekeyed + merged == |RowsOf(old(receipts), [token])|
      ensures conflict.Some? ==>
        Ambiguous(rs, conflict.value.task, conflict.value.thread, dst, tokens + [token])
    {
      hide ReceiptsMoved, HalfMoved, Merge, AcksConflict, Fold;
      rekeyed, merged, conflict := 0, 0, None;
      var todo := set k | k in receipts && k.platform == DISCORD && k.chat == token;
      StartToken(rs, receipts, dst, tokens, token);
      ghost var all := todo;
      assert todo == RowsOf(receipts, [token]);
      while todo != {}
        invariant HalfMoved(rs, receipts, dst, tokens, token, todo)
        invariant |receipts| + merged == |old(receipts)|
        invariant rekeyed + merged + |todo| == |all|
      {
        var key :| key in todo;
        var to := key.(chat := dst);
        TodoThere(rs, receipts, dst, tokens, token, todo, key);
        if to in receipts && AcksConflict(receipts[key], receipts[to]) {
          ConflictFound(rs, receipts, dst, tokens, token, todo, key, tokens + [token]);
          return Some(key), rekeyed, merged;
        }
        MoveRowStep(rs, receipts, dst, tokens, token, todo, key);
        MoveRowSize(receipts, key, dst);
        todo := todo - {key};
        if to in receipts {
          receipts := receipts[to := Merge(receipts[key], receipts[to])] - {key};
          merged := merged + 1;
        } else {
          receipts := receipts[to := receipts[key]] - {key};
          rekeyed := rekeyed + 1;
        }
      }
      FinishToken(rs, receipts, dst, tokens, token);
    }

    /** _apply_board_transaction: commits everything or nothing. */
    method Migrate(tokens: seq<string>, dst: string) returns (r: Outcome)
      requires dst !in tokens && forall i, j :: 0 <= i < j < |tokens| ==> tokens[i] != tokens[j]
      modifies this
      ensures !r.Committed? ==>
        origins == old(origins) && receipts == old(receipts) && subs == old(subs)
      ensures r.Committed? ==>
        && origins == OriginsMoved(old(origins), dst, tokens)
        && ReceiptsMoved(old(receipts), receipts, dst, tokens)
        && subs == SubsLeft(old(subs), tokens)
        && |receipts| + r.merged == |old(receipts)|
        && r.rekeyed + r.merged == |RowsOf(old(receipts), tokens)|
      ensures r.AmbiguousMerge? ==> Ambiguous(old(receipts), r.task, r.thread, dst, tokens)
      ensures r.Committed? ==> forall task, thread :: !Ambiguous(old(receipts), task, thread, dst, tokens)
    {
      hide ReceiptsMoved, Ambiguous;
      var locked: bool := *;
      if locked { return ActiveWriters; }
      var savedOrigins, savedReceipts := origins, receipts;
      origins := OriginsMoved(origins, dst, tokens);
      var rekeyed, merged := 0, 0;
      NothingMoved(receipts, dst);
      assert tokens[..0] == [];
      for i := 0 to |tokens|
        invariant ReceiptsMoved(savedReceipts, receipts, dst, tokens[..i])
        invariant |receipts| + merged == |savedReceipts| && rekeyed >= 0 && merged >= 0
        invariant rekeyed + merged == |RowsOf(savedReceipts, tokens[..i])|
        invariant subs == old(subs) && origins == OriginsMoved(savedOrigins, dst, tokens)
      {
        assert tokens[..i] + [tokens[i]] == tokens[..i + 1];
        NextRows(savedReceipts, receipts, dst, tokens, i);
        var conflict, k, m := MoveToken(tokens[i], dst, savedReceipts, tokens[..i]);
        if conflict.Some? {
          origins, receipts := savedOrigins, savedReceipts;
          MoreTokens(savedReceipts, conflict.value.task, conflict.value.thread, dst, tokens[..i + 1], tokens);
          return AmbiguousMerge(conflict.value.task, conflict.value.thread);
        }
        rekeyed, merged := rekeyed + k, merged + m;
      }
      assert tokens[..|tokens|] == tokens;
      NoConflictLeft(savedReceipts, receipts, dst, tokens);
      subs := SubsLeft(subs, tokens);
      return Committed(rekeyed, merged);
    }
  }

  lemma TodoThere(rs: Receipts, cur: Receipts, dst: string, tokens: seq<string>, token: string,
                  todo: set<ReceiptKey>, key: ReceiptKey)
    requires HalfMoved(rs, cur, dst, tokens, token, todo) && key in todo
    ensures key in cur && key.chat == token
  {}

  lemma MoveRowSize(rs: Receipts, key: ReceiptKey, dst: string)
    requires key in rs && key.chat != dst
    ensures |MoveRow(rs, key, dst)| == if key.(chat := dst) in rs then |rs| - 1 else |rs|
  {
    var to := key.(chat := dst);
    var grown := if to in rs then rs[to := Merge(rs[key], rs[to])] else rs[to := rs[key]];
    assert grown.Keys == rs.Keys + {to};
    assert MoveRow(rs, key, dst).Keys == grown.Keys - {key};
    assert |MoveRow(rs, key, dst)| == |MoveRow(rs, key, dst).Keys| && |rs| == |rs.Keys|;
  }

  lemma NothingMoved(rs: Receipts, dst: string)
    ensures ReceiptsMoved(rs, rs, dst, [])
  {}

  lemma NoConflictLeft(rs: Receipts, rs': Receipts, dst: string, tokens: seq<string>)
    requires ReceiptsMoved(rs, rs', dst, tokens)
    ensures forall task, thread :: !Ambiguous(rs, task, thread, dst, tokens)
  {
    hide Ambiguous, Fold;
    forall task, thread ensures !Ambiguous(rs, task, thread, dst, tokens) {
      assert HasFolded(rs', At(task, dst, thread), Fold(rs, task, thread, dst, tokens));
      FoldConflictIff(rs, task, thread, dst, tokens);
    }
  }

  // ----- what a commit means -----

  /** After a commit no Discord row carries a token, and each numeric receipt is
      the strongest of the rows merged into it, drawn from them alone. */
  lemma CommittedReceipts(rs: Receipts, rs': Receipts, dst: string, tokens: seq<string>, task: string, thread: string)
    requires ReceiptsMoved(rs, rs', dst, tokens)
    ensures forall c :: c in tokens ==> At(task, c, thread) !in rs'
    ensures At(task, dst, thread) in rs' <==> exists c :: RowAt(rs, task, thread, dst, tokens, c)
    ensures At(task, dst, thread) in rs' ==>
      && Drawn(rs, task, thread, dst, tokens, rs'[At(task, dst, thread)])
      && forall c :: RowAt(rs, task, thread, dst, tokens, c) ==>
           Covers(rs'[At(task, dst, thread)], rs[At(task, c, thread)])
  {
    hide Fold, Covers;
    assert HasFolded(rs', At(task, dst, thread), Fold(rs, task, thread, dst, tokens));
    forall c | RowAt(rs, task, thread, dst, tokens, c)
      ensures At(task, dst, thread) in rs' && Covers(rs'[At(task, dst, thread)], rs[At(task, c, thread)])
    {
      FoldCovers(rs, task, thread, dst, tokens, c);
    }
    if At(task, dst, thread) in rs' {
      FoldDrawn(rs, task, thread, dst, tokens);
    }
  }

  lemma {:induction false} FoldClean(rs: Receipts, task: string, thread: string, dst: string, tokens: seq<string>)
    requires forall k :: k in rs && k.platform == DISCORD ==> k.chat !in tokens
    ensures Fold(rs, task, thread, dst, tokens)
         == if At(task, dst, thread) in rs then One(rs[At(task, dst, thread)]) else Absent
  {
    if tokens != [] {
      var init := tokens[..|tokens| - 1];
      assert forall c :: c in init ==> c in tokens;
      FoldClean(rs, task, thread, dst, init);
      assert tokens[|tokens| - 1] in tokens;
    }
  }

  /** A second run changes nothing. */
  lemma SecondRun(rs: Receipts, once: Receipts, twice: Receipts, origins: map<string, Endpoint>,
                  subs: set<Subscription>, dst: string, tokens: seq<string>)
    requires ReceiptsMoved(rs, once, dst, tokens) && ReceiptsMoved(once, twice, dst, tokens) && dst !in tokens
    ensures twice == once
    ensures var moved := OriginsMoved(origins, dst, tokens); OriginsMoved(moved, dst, tokens) == moved
    ensures var left := SubsLeft(subs, tokens); SubsLeft(left, tokens) == left
  {
    hide Fold;
    forall k: ReceiptKey ensures (k in twice <==> k in once) && (k in once ==> twice[k] == once[k]) {
      if k.platform == DISCORD && k.chat == dst {
        FoldClean(once, k.task, k.thread, dst, tokens);
        assert At(k.task, dst, k.thread) == k;
        assert HasFolded(twice, At(k.task, dst, k.thread), Fold(once, k.task, k.thread, dst, tokens));
      }
    }
    assert twice.Keys == once.Keys;
  }
}
