/** What every interleaving of Send and Flush keeps. */
module BufferProofs {
  import opened Domain
  import opened BufferModel

  function InProgress(b: Buffer): seq<Payload> {
    match b.stage
    case Idle => []
    case Dropping(payload) => [payload]
    case Retrying(payload) => [payload]
  }

  /** The payloads, among the first |fates|, that met the given fate, in order. */
  function With(sent: seq<Payload>, fates: seq<Fate>, f: Fate): seq<Payload>
    requires |fates| <= |sent|
  {
    if fates == [] then []
    else
      var n := |fates| - 1;
      With(sent, fates[..n], f) + if fates[n] == f then [sent[n]] else []
  }

  function InHand(b: Buffer): seq<Payload> {
    if b.hand.Some? then [b.hand.value] else []
  }

  /** How many of the sent payloads have left the channel. */
  function Left(b: Buffer): nat {
    |b.fates| + |InHand(b)| + b.behind
  }

  ghost predicate QueueInv(b: Buffer) {
    // the channel is the tail of what was sent; the payload in hand precedes it
    && Left(b) <= |b.sent|
    && b.ch == b.sent[Left(b)..]
    && (b.hand.Some? ==> b.hand.value == b.sent[|b.fates|])
    && (b.hand.None? ==> b.behind == 0)
    // nothing is lost silently
    && b.begun == b.sent + InProgress(b)
    && |b.ch| <= b.capacity
    && (b.stage.Retrying? ==> |b.ch| < b.capacity)
    && b.discarded == []
  }

  /** Every payload that left has one fate, and the counters count the fates. */
  ghost predicate FatesInv(b: Buffer)
    requires |b.fates| <= |b.sent|
  {
    && b.published == With(b.sent, b.fates, Published)
    && b.errors == |With(b.sent, b.fates, Failed)|
    && b.dropped == |With(b.sent, b.fates, Dropped)| + b.behind
  }

  ghost predicate BufferInv(b: Buffer) {
    QueueInv(b) && FatesInv(b)
  }

  lemma TailNext(sent: seq<Payload>, n: nat)
    requires n < |sent|
    ensures sent[n..][1..] == sent[n + 1..] && sent[n..][0] == sent[n]
  {
  }

  lemma {:induction false} WithMoreSent(sent: seq<Payload>, fates: seq<Fate>, f: Fate, payload: Payload)
    requires |fates| <= |sent|
    ensures With(sent + [payload], fates, f) == With(sent, fates, f)
  {
    if fates != [] {
      WithMoreSent(sent, fates[..|fates| - 1], f, payload);
    }
  }

  lemma WithNext(sent: seq<Payload>, fates: seq<Fate>, f: Fate, next: Fate)
    requires |fates| < |sent|
    ensures With(sent, fates + [next], f) == With(sent, fates, f) + if next == f then [sent[|fates|]] else []
  {
    assert (fates + [next])[..|fates|] == fates;
  }

  lemma {:induction false} WithDrops(sent: seq<Payload>, fates: seq<Fate>, n: nat)
    requires |fates| + n <= |sent|
    ensures With(sent, fates + Drops(n), Published) == With(sent, fates, Published)
    ensures With(sent, fates + Drops(n), Failed) == With(sent, fates, Failed)
    ensures |With(sent, fates + Drops(n), Dropped)| == |With(sent, fates, Dropped)| + n
  {
    if n == 0 {
      assert fates + Drops(0) == fates;
    } else {
      WithDrops(sent, fates, n - 1);
      WithNext(sent, fates + Drops(n - 1), Published, Dropped);
      WithNext(sent, fates + Drops(n - 1), Failed, Dropped);
      WithNext(sent, fates + Drops(n - 1), Dropped, Dropped);
      assert fates + Drops(n) == fates + Drops(n - 1) + [Dropped];
    }
  }

  lemma EnqueueKeepsQueue(b: Buffer, payload: Payload)
    requires |b.ch| < b.capacity
    requires QueueInv(b.(stage := Idle, begun := b.sent))
    requires b.begun == b.sent + [payload]
    ensures QueueInv(Enqueue(b, payload))
  {
    assert (b.sent + [payload])[Left(b)..] == b.sent[Left(b)..] + [payload];
    assert InHand(Enqueue(b, payload)) == InHand(b) == InHand(b.(stage := Idle, begun := b.sent));
  }

  lemma EnqueueKeeps(b: Buffer, payload: Payload)
    requires |b.ch| < b.capacity
    requires BufferInv(b.(stage := Idle, begun := b.sent))
    requires b.begun == b.sent + [payload]
    ensures BufferInv(Enqueue(b, payload))
  {
    EnqueueKeepsQueue(b, payload);
    WithMoreSent(b.sent, b.fates, Published, payload);
    WithMoreSent(b.sent, b.fates, Failed, payload);
    WithMoreSent(b.sent, b.fates, Dropped, payload);
  }

  lemma DropKeepsQueue(b: Buffer)
    requires QueueInv(b) && b.stage.Dropping? && b.capacity > 0
    ensures QueueInv(DropOldest(b))
  {
    var t := DropOldest(b);
    assert InHand(t) == InHand(b) && InProgress(t) == InProgress(b);
    if b.ch != [] {
      TailNext(b.sent, Left(b));
      assert Left(t) == Left(b) + 1;
    }
  }

  lemma DropKeeps(b: Buffer)
    requires BufferInv(b) && b.stage.Dropping? && b.capacity > 0
    ensures BufferInv(DropOldest(b))
  {
    DropKeepsQueue(b);
    if b.ch != [] && b.hand.None? {
      WithNext(b.sent, b.fates, Published, Dropped);
      WithNext(b.sent, b.fates, Failed, Dropped);
      WithNext(b.sent, b.fates, Dropped, Dropped);
    }
  }

  lemma FinishKeepsQueue(b: Buffer, ok: bool)
    requires QueueInv(b)
    ensures QueueInv(Finish(b, ok))
  {
    if b.hand.Some? {
      assert InHand(b) == [b.hand.value] && InHand(Finish(b, ok)) == [];
      assert Left(Finish(b, ok)) == Left(b);
      assert InProgress(Finish(b, ok)) == InProgress(b);
    }
  }

  lemma FinishKeeps(b: Buffer, ok: bool)
    requires BufferInv(b)
    ensures BufferInv(Finish(b, ok))
  {
    FinishKeepsQueue(b, ok);
    if b.hand.Some? {
      var f := if ok then Published else Failed;
      assert InHand(b) == [b.hand.value];
      WithNext(b.sent, b.fates, Published, f);
      WithNext(b.sent, b.fates, Failed, f);
      WithNext(b.sent, b.fates, Dropped, f);
      WithDrops(b.sent, b.fates + [f], b.behind);
    }
  }

  lemma BeginKeeps(b: Buffer, payload: Payload)
    requires BufferInv(b) && b.capacity > 0 && b.stage.Idle?
    ensures BufferInv(TrySend(b, payload))
  {
    assert InHand(TrySend(b, payload)) == InHand(b);
    if |b.ch| < b.capacity {
      EnqueueKeeps(b.(begun := b.begun + [payload]), payload);
    }
  }

  lemma RetryKeeps(b: Buffer)
    requires BufferInv(b) && b.stage.Retrying?
    ensures BufferInv(Retry(b))
  {
    assert InHand(b.(stage := Idle, begun := b.sent)) == InHand(b);
    EnqueueKeeps(b, b.stage.payload);
  }

  lemma TakeKeeps(b: Buffer)
    requires BufferInv(b)
    ensures BufferInv(Take(b))
  {
    var t := Take(b);
    if t != b {
      assert b.ch[1..] == b.sent[Left(b) + 1..];
      assert Left(t) == Left(b) + 1;
    }
  }

  lemma StopKeeps(b: Buffer)
    requires BufferInv(b)
    ensures BufferInv(b.(isFlushing := false))
  {
    assert InHand(b.(isFlushing := false)) == InHand(b);
  }

  lemma StepKeeps(b: Buffer, e: Event)
    requires BufferInv(b) && b.capacity > 0
    ensures BufferInv(Step(b, e)) && Step(b, e).capacity == b.capacity
  {
    match e
    case SendBegins(payload) => if b.stage.Idle? { BeginKeeps(b, payload); }
    case SendDrops => if b.stage.Dropping? { DropKeeps(b); }
    case SendRetries => if b.stage.Retrying? { RetryKeeps(b); }
    case FlushTakes => TakeKeeps(b);
    case FlushPublishes(ok) => FinishKeeps(b, ok);
    case FlushStops => StopKeeps(b);
  }

  lemma {:induction false} RunKeeps(capacity: nat, es: seq<Event>)
    requires capacity > 0
    ensures BufferInv(Run(Empty(capacity), es)) && Run(Empty(capacity), es).capacity == capacity
  {
    if es != [] {
      RunKeeps(capacity, es[..|es| - 1]);
      StepKeeps(Run(Empty(capacity), es[..|es| - 1]), es[|es| - 1]);
    }
  }

  // ----- what follows for every run -----

  /** `part` arises from `whole` by deleting payloads. */
  ghost predicate Subsequence(part: seq<Payload>, whole: seq<Payload>) {
    if part == [] then true
    else if whole == [] then false
    else
      var m, n := |part| - 1, |whole| - 1;
      Subsequence(part, whole[..n]) || (part[m] == whole[n] && Subsequence(part[..m], whole[..n]))
  }

  lemma {:induction false} SubsequenceExtends(part: seq<Payload>, whole: seq<Payload>, more: seq<Payload>)
    requires Subsequence(part, whole)
    ensures Subsequence(part, whole + more)
  {
    if more == [] {
      assert whole + more == whole;
    } else {
      SubsequenceExtends(part, whole, more[..|more| - 1]);
      assert (whole + more)[..|whole + more| - 1] == whole + more[..|more| - 1];
    }
  }

  lemma {:induction false} WithIsSubsequence(sent: seq<Payload>, fates: seq<Fate>, f: Fate)
    requires |fates| <= |sent|
    ensures Subsequence(With(sent, fates, f), sent[..|fates|])
  {
    if fates != [] {
      var n := |fates| - 1;
      WithIsSubsequence(sent, fates[..n], f);
      var whole, w := sent[..|fates|], With(sent, fates, f);
      assert whole[..n] == sent[..n] && whole[n] == sent[n];
      if fates[n] == f {
        assert w[..|w| - 1] == With(sent, fates[..n], f) && w[|w| - 1] == sent[n];
      } else {
        assert w == With(sent, fates[..n], f);
      }
    }
  }

  lemma {:induction false} FatesCount(sent: seq<Payload>, fates: seq<Fate>)
    requires |fates| <= |sent|
    ensures |With(sent, fates, Published)| + |With(sent, fates, Failed)| + |With(sent, fates, Dropped)| == |fates|
  {
    if fates != [] {
      FatesCount(sent, fates[..|fates| - 1]);
    }
  }

  /** In every interleaving of one producer with Flush: each Send is accounted for
      exactly once, payloads are published in the order they were sent, the
      channel stays within its capacity and no payload is lost uncounted. */
  lemma RunAccounts(capacity: nat, es: seq<Event>)
    requires capacity > 0
    ensures var b := Run(Empty(capacity), es);
            && |b.begun| == |b.published| + b.errors + b.dropped + |b.ch| + |InHand(b)| + |InProgress(b)|
            && Subsequence(b.published, b.begun)
            && |b.ch| <= capacity
            && b.discarded == []
  {
    RunKeeps(capacity, es);
    var b := Run(Empty(capacity), es);
    FatesCount(b.sent, b.fates);
    WithIsSubsequence(b.sent, b.fates, Published);
    var n := |b.fates|;
    SubsequenceExtends(b.published, b.sent[..n], b.begun[n..]);
    assert b.begun == b.sent[..n] + b.begun[n..];
  }

  /** The newest payload always gets in exactly when the capacity is positive. */
  lemma NewestKeptIffCapacity(capacity: nat)
    ensures (forall es :: Run(Empty(capacity), es).discarded == []) <==> capacity > 0
  {
    if capacity > 0 {
      forall es ensures Run(Empty(capacity), es).discarded == [] {
        RunAccounts(capacity, es);
      }
    } else {
      var e := Empty(0);
      var es := [SendBegins([]), SendDrops, SendRetries];
      assert Run(e, []) == e;
      assert es[..1] == [SendBegins([])] && es[..2][..1] == es[..1] && es[..1][..0] == [];
      assert Run(e, es[..1]) == Step(e, SendBegins([]));
      assert Run(e, es[..2]) == Step(Run(e, es[..1]), SendDrops);
      assert Run(e, es) == Step(Run(e, es[..2]), SendRetries);
      assert Run(Empty(capacity), es).discarded == [[]];
    }
  }

  ghost predicate NoFlush(es: seq<Event>) {
    forall k :: 0 <= k < |es| ==> es[k].SendBegins? || es[k].SendDrops? || es[k].SendRetries?
  }

  lemma {:induction false} ProducerFills(capacity: nat, es: seq<Event>)
    requires capacity > 0 && NoFlush(es)
    ensures var b := Run(Empty(capacity), es);
            && b.hand == None && b.published == [] && b.errors == 0
            && |b.ch| == (match b.stage
                          case Idle => Min(|b.sent|, capacity)
                          case Dropping(_) => capacity
                          case Retrying(_) => capacity - 1)
            && (!b.stage.Idle? ==> |b.sent| >= capacity)
  {
    if es != [] {
      var init := es[..|es| - 1];
      ProducerFills(capacity, init);
      RunKeeps(capacity, init);
      var b := Run(Empty(capacity), init);
      StepKeeps(b, es[|es| - 1]);
    }
  }

  /** Without a consumer, between two Sends the channel holds exactly the last
      `capacity` payloads sent, and the others have been counted as dropped. */
  lemma ProducerKeepsNewest(capacity: nat, es: seq<Event>)
    requires capacity > 0 && NoFlush(es)
    requires Run(Empty(capacity), es).stage.Idle?
    ensures var b := Run(Empty(capacity), es);
            && b.ch == b.begun[|b.begun| - Min(|b.begun|, capacity)..]
            && b.dropped == |b.begun| - Min(|b.begun|, capacity)
  {
    ProducerFills(capacity, es);
    RunKeeps(capacity, es);
    RunAccounts(capacity, es);
  }
}
