/** Values shared by the continuation protocol: source tuples, idempotency keys,
    instance states and table rows. Tables are keyed by their unique index. */
module Domain {

  datatype Option<+T> = None | Some(value: T)

  /** What one store or adapter call tells its caller. A crash ends the process
      before the call takes effect; `:-` then abandons the rest of the caller. */
  datatype Outcome<+T> = Crashed | Done(value: T) {
    predicate IsFailure() { Crashed? }
    function PropagateFailure<U>(): Outcome<U>
      requires Crashed?
    {
      Crashed
    }
    function Extract(): T
      requires Done?
    {
      value
    }
    function Toll(): nat { if Crashed? then 1 else 0 }
  }

  /** The unique source tuple of a continuation instance. */
  datatype Source = Source(board: string, task: string, event: string, contract: string)

  datatype Kind = CodeFix | SemanticRefusal | OwnerInput | Roadmap | ExternalWait | Unknown

  datatype State =
    | Detected | WaitingOwner | InputAccepted | Materializing | WaitingReview
    | Resumable | Resumed | BlockedInvalid | FailedRetryable

  /** SHA-256, taken to be injective. */
  datatype Digest = Sha256(preimage: string)

  /** Idempotency keys, one constructor per key prefix the handlers use. */
  datatype Key =
    | FixKey(digest: Digest)
    | ReviewKey(digest: Digest)
    | SubscribeKey(digest: Digest, endpoint: string)
    | FixAckKey(digest: Digest, endpoint: string)
    | WakeKey(digest: Digest, endpoint: string)
    | RefusalAckKey(digest: Digest, endpoint: string)
    | AnchorKey(digest: Digest)
    | AnchorSubscribeKey(digest: Digest, endpoint: string)
    | CompleteAnchorKey(digest: Digest, task: string, receipt: nat)
    | MaterializeKey(digest: Digest)
    | OwnerReviewKey(digest: Digest)
    | RerunKey(digest: Digest)

  datatype Operation = CreateTask | Subscribe | CompleteAnchor | ScheduleWake | RecordAck

  /** The arguments a board operation is replayed with. `parent` is the linked
      parent task of a create. */
  datatype Payload = Payload(task: string, endpoint: string, parent: string, status: string)

  datatype Instance = Instance(kind: Kind, state: State, endpoint: string)

  datatype LogKind = Created | Transition(from: State, to: State, reason: string) | OwnerReceipt(version: nat)
  datatype LogEntry = LogEntry(seqNo: nat, what: LogKind)

  datatype Step = Step(applied: bool, boardTask: string, parent: Option<Key>)

  datatype RowState = Pending | Applied | Deadletter

  datatype Row = Row(
    src: Source, step: Option<Key>, op: Operation, payload: Payload,
    state: RowState, boardTask: string, attempts: nat, nextAt: real, lastError: string)

  /** One compiled board event. */
  datatype Event = Event(seqNo: int, src: Source, kind: Kind, endpoint: string)

  // ----- the colon-joined instance key -----

  function InstanceKey(s: Source): string {
    "continuation:" + s.board + ":" + s.task + ":" + s.event + ":" + s.contract
  }

  function DigestOf(s: Source): Digest { Sha256(InstanceKey(s)) }

  predicate ColonFree(t: string) { ':' !in t }

  /** Board, task and event ids hold no colon; the contract reference may. */
  predicate CleanSource(s: Source) {
    ColonFree(s.board) && ColonFree(s.task) && ColonFree(s.event)
  }

  lemma ColonNotBefore(a: string, b: string, c: string, d: string)
    requires ColonFree(c) && a + ":" + b == c + ":" + d
    ensures |c| <= |a|
  {
    assert (a + ":" + b)[|a|] == ':';
    assert forall i | 0 <= i < |c| :: (c + ":" + d)[i] == c[i];
  }

  lemma SplitAtColon(a: string, b: string, c: string, d: string)
    requires ColonFree(a) && ColonFree(c)
    requires a + ":" + b == c + ":" + d
    ensures a == c && b == d
  {
    ColonNotBefore(a, b, c, d);
    ColonNotBefore(c, d, a, b);
    var l, r := a + ":" + b, c + ":" + d;
    assert a == l[..|a|] && c == r[..|c|];
    assert b == l[|a| + 1..] && d == r[|c| + 1..];
  }

  /** Clean source tuples never share an instance key, hence never a digest. */
  lemma InstanceKeyInjective(s: Source, t: Source)
    requires CleanSource(s) && CleanSource(t)
    requires InstanceKey(s) == InstanceKey(t)
    ensures s == t
  {
    var p := "continuation:";
    var s3, t3 := s.event + ":" + s.contract, t.event + ":" + t.contract;
    var s2, t2 := s.task + ":" + s3, t.task + ":" + t3;
    var s1, t1 := s.board + ":" + s2, t.board + ":" + t2;
    assert InstanceKey(s) == p + s1 && InstanceKey(t) == p + t1;
    assert s1 == (p + s1)[|p|..] && t1 == (p + t1)[|p|..];
    SplitAtColon(s.board, s2, t.board, t2);
    SplitAtColon(s.task, s3, t.task, t3);
    SplitAtColon(s.event, s.contract, t.event, t.contract);
  }

  /** A string with a colon is a colon-free head, the colon, and a tail. */
  lemma FirstColon(t: string) returns (head: string, tail: string)
    requires !ColonFree(t)
    ensures t == head + ":" + tail
  {
    var i :| 0 <= i < |t| && t[i] == ':';
    head, tail := t[..i], t[i + 1..];
  }

  /** Exactly when a tuple's key is its own among ALL tuples: no component holds
      a colon. A contract reference with a colon already makes it ambiguous. */
  lemma KeyUnambiguousIff(s: Source)
    ensures (forall t: Source :: InstanceKey(t) == InstanceKey(s) ==> t == s)
       <==> CleanSource(s) && ColonFree(s.contract)
  {
    if CleanSource(s) && ColonFree(s.contract) {
      forall t: Source | InstanceKey(t) == InstanceKey(s) ensures t == s {
        KeySplitsOneWay(s, t);
      }
    } else if !ColonFree(s.contract) {
      var h, tl := FirstColon(s.contract);
      var t := s.(event := s.event + ":" + h, contract := tl);
      assert InstanceKey(t) == InstanceKey(s);
      assert |t.event| > |s.event|;
    } else if !ColonFree(s.event) {
      var h, tl := FirstColon(s.event);
      var t := s.(event := h, contract := tl + ":" + s.contract);
      assert InstanceKey(t) == InstanceKey(s);
      assert |t.contract| > |s.contract|;
    } else if !ColonFree(s.task) {
      var h, tl := FirstColon(s.task);
      var t := s.(task := h, event := tl, contract := s.event + ":" + s.contract);
      assert InstanceKey(t) == InstanceKey(s);
      assert |t.contract| > |s.contract|;
    } else {
      var h, tl := FirstColon(s.board);
      var t := Source(h, tl, s.task, s.event + ":" + s.contract);
      assert InstanceKey(t) == InstanceKey(s);
      assert |t.contract| > |s.contract|;
    }
  }

  function Colons(t: string): nat {
    if t == "" then 0 else (if t[0] == ':' then 1 else 0) + Colons(t[1..])
  }

  lemma {:induction false} ColonsConcat(a: string, b: string)
    ensures Colons(a + b) == Colons(a) + Colons(b)
  {
    if a == "" {
      assert a + b == b;
    } else {
      assert (a + b)[1..] == a[1..] + b;
      ColonsConcat(a[1..], b);
    }
  }

  lemma {:induction false} NoColons(t: string)
    ensures Colons(t) == 0 <==> ColonFree(t)
  {
    if t != "" {
      NoColons(t[1..]);
      assert t == [t[0]] + t[1..];
    }
  }

  function ComponentColons(s: Source): nat {
    Colons(s.board) + Colons(s.task) + Colons(s.event) + Colons(s.contract)
  }

  lemma ColonsJoined(a: string, b: string)
    ensures Colons(a + ":" + b) == Colons(a) + 1 + Colons(b)
  {
    assert Colons(":") == 1;
    ColonsConcat(a + ":", b);
    ColonsConcat(a, ":");
  }

  lemma KeyColons(s: Source)
    ensures Colons(InstanceKey(s)) == Colons("continuation:") + 3 + ComponentColons(s)
  {
    var a := "continuation:" + s.board;
    var b := a + ":" + s.task;
    var c := b + ":" + s.event;
    hide Colons;
    ColonsConcat("continuation:", s.board);
    ColonsJoined(a, s.task);
    ColonsJoined(b, s.event);
    ColonsJoined(c, s.contract);
  }

  lemma CleanIffNoColons(s: Source)
    ensures CleanSource(s) && ColonFree(s.contract) <==> ComponentColons(s) == 0
  {
    NoColons(s.board); NoColons(s.task); NoColons(s.event); NoColons(s.contract);
  }

  lemma KeySplitsOneWay(s: Source, t: Source)
    requires CleanSource(s) && ColonFree(s.contract)
    requires InstanceKey(t) == InstanceKey(s)
    ensures t == s
  {
    KeyColons(s); KeyColons(t);
    CleanIffNoColons(s); CleanIffNoColons(t);
    InstanceKeyInjective(s, t);
  }
}
