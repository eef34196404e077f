/** The buffer as an object: `Send` with the consumer running between its selects. */
module MessageBuffers {
  import opened Domain
  import opened BufferModel
  import opened BufferProofs

  /** What the Flush goroutine may do while the producer is between two selects. */
  ghost predicate ConsumerOnly(race: seq<Event>) {
    forall k :: 0 <= k < |race| ==> race[k].FlushTakes? || race[k].FlushPublishes? || race[k].FlushStops?
  }

  lemma {:induction false} RunAppends(b: Buffer, es: seq<Event>, more: seq<Event>)
    ensures Run(b, es + more) == Run(Run(b, es), more)
  {
    if more == [] {
      assert es + more == es;
    } else {
      RunAppends(b, es, more[..|more| - 1]);
      assert (es + more)[..|es + more| - 1] == es + more[..|more| - 1];
    }
  }

  class MessageBuffer {
    const capacity: nat
    var ch: seq<Payload>
    var bufferDropped: nat
    var publishErrors: nat
    var hand: Option<Payload>
    var isFlushing: bool
    ghost var published: seq<Payload>
    ghost var discarded: seq<Payload>
    ghost var begun: seq<Payload>
    ghost var sent: seq<Payload>
    ghost var fates: seq<Fate>
    ghost var behind: nat

    /** The state, given where the producer stands. */
    ghost function At(stage: Stage): Buffer
      reads this
    {
      Buffer(capacity, ch, stage, hand, isFlushing, bufferDropped, publishErrors,
             published, discarded, begun, sent, fates, behind)
    }

    constructor (capacity: nat)
      ensures At(Idle) == Empty(capacity)
    {
      this.capacity := capacity;
      ch, bufferDropped, publishErrors, hand, isFlushing := [], 0, 0, None, true;
      published, discarded, begun, sent, fates, behind := [], [], [], [], [], 0;
    }

    /** Send, with `first` and `second` being what Flush does between its selects
        when the channel turns out to be full. */
    method Send(payload: Payload, first: seq<Event>, second: seq<Event>)
      requires ConsumerOnly(first) && ConsumerOnly(second)
      modifies this
      ensures At(Idle) == if |old(ch)| < capacity
                          then Step(old(At(Idle)), SendBegins(payload))
                          else Run(old(At(Idle)), [SendBegins(payload)] + first + [SendDrops] + second + [SendRetries])
    {
      ghost var start := At(Idle);
      begun := begun + [payload];
      if |ch| < capacity {
        Insert(payload, Idle);
        return;
      }
      ghost var trace := [SendBegins(payload)];
      assert trace[..0] == [];
      assert At(Dropping(payload)) == Run(start, trace);
      Race(first, Dropping(payload));
      RunAppends(start, trace, first);
      trace := trace + first;
      DropOldest(payload);
      assert (trace + [SendDrops])[..|trace|] == trace;
      trace := trace + [SendDrops];
      assert At(Retrying(payload)) == Run(start, trace);
      Race(second, Retrying(payload));
      RunAppends(start, trace, second);
      trace := trace + second;
      Retry(payload);
      assert (trace + [SendRetries])[..|trace|] == trace;
    }

    /** The second select. */
    method DropOldest(ghost payload: Payload)
      modifies this
      ensures At(Retrying(payload)) == Step(old(At(Dropping(payload))), SendDrops)
    {
      if ch != [] {
        ch := ch[1..];
        bufferDropped := bufferDropped + 1;
        if hand.Some? {
          behind := behind + 1;
        } else {
          fates := fates + [Dropped];
        }
      }
    }

    /** The third select. */
    method Retry(payload: Payload)
      modifies this
      ensures At(Idle) == Step(old(At(Retrying(payload))), SendRetries)
    {
      if |ch| < capacity {
        Insert(payload, Retrying(payload));
      } else {
        discarded := discarded + [payload];
      }
    }

    method Insert(payload: Payload, ghost stage: Stage)
      modifies this`ch, this`sent
      ensures At(Idle) == Enqueue(old(At(stage)), payload)
    {
      ch := ch + [payload];
      sent := sent + [payload];
    }

    /** The Flush goroutine for any number of its steps. */
    method Race(race: seq<Event>, ghost stage: Stage)
      requires ConsumerOnly(race)
      modifies this
      ensures At(stage) == Run(old(At(stage)), race)
    {
      for i := 0 to |race|
        invariant At(stage) == Run(old(At(stage)), race[..i])
      {
        assert race[..i + 1][..i] == race[..i];
        FlushStep(race[i], stage);
      }
      assert race[..|race|] == race;
    }

    method FlushStep(e: Event, ghost stage: Stage)
      requires ConsumerOnly([e])
      modifies this
      ensures At(stage) == Step(old(At(stage)), e)
    {
      assert [e][0] == e;
      match e {
        case FlushTakes =>
          if isFlushing && hand.None? && ch != [] {
            hand := Some(ch[0]);
            ch := ch[1..];
          }
        case FlushPublishes(ok) =>
          if hand.Some? {
            if ok {
              published := published + [hand.value];
            } else {
              publishErrors := publishErrors + 1;
            }
            fates := fates + [if ok then Published else Failed] + Drops(behind);
            behind := 0;
            hand := None;
          }
        case FlushStops =>
          if hand.None? {
            isFlushing := false;
          }
      }
    }
  }
}
