/** What each channel operation of the message buffer does, and what the outcome of
    each publication does to the counters, told by the events of a run. */
module BufferOutcomes {
  import opened Domain
  import opened BufferModel
  import opened BufferProofs

  /** The payloads in Flush's hand at the publications that succeeded, in order. */
  function SucceededBy(capacity: nat, es: seq<Event>): seq<Payload> {
    if es == [] then []
    else
      var init, e := es[..|es| - 1], es[|es| - 1];
      var hand := Run(Empty(capacity), init).hand;
      SucceededBy(capacity, init) + if e == FlushPublishes(true) && hand.Some? then [hand.value] else []
  }

  /** The publications that failed, of a payload in hand. */
  function FailedBy(capacity: nat, es: seq<Event>): nat {
    if es == [] then 0
    else
      var init, e := es[..|es| - 1], es[|es| - 1];
      FailedBy(capacity, init) + if e == FlushPublishes(false) && Run(Empty(capacity), init).hand.Some? then 1 else 0
  }

  /** The second selects of Send that found a payload to discard. */
  function DiscardedBy(capacity: nat, es: seq<Event>): nat {
    if es == [] then 0
    else
      var init, e := es[..|es| - 1], es[|es| - 1];
      var b := Run(Empty(capacity), init);
      DiscardedBy(capacity, init) + if e == SendDrops && b.stage.Dropping? && b.ch != [] then 1 else 0
  }

  lemma StepOutcome(b: Buffer, e: Event)
    ensures var t := Step(b, e);
            && t.published == b.published + (if e == FlushPublishes(true) && b.hand.Some? then [b.hand.value] else [])
            && t.errors == b.errors + (if e == FlushPublishes(false) && b.hand.Some? then 1 else 0)
            && t.dropped == b.dropped + (if e == SendDrops && b.stage.Dropping? && b.ch != [] then 1 else 0)
  {
  }

  /** In every run the published payloads are those in hand at the publications that
      succeeded, in order, the errors are the publications that failed, and the drops the
      second selects that discarded something. */
  lemma {:induction false} OutcomesExact(capacity: nat, es: seq<Event>)
    ensures var b := Run(Empty(capacity), es);
            && b.published == SucceededBy(capacity, es)
            && b.errors == FailedBy(capacity, es)
            && b.dropped == DiscardedBy(capacity, es)
  {
    if es != [] {
      var init := es[..|es| - 1];
      OutcomesExact(capacity, init);
      StepOutcome(Run(Empty(capacity), init), es[|es| - 1]);
    }
  }

  /** What each event does to channel, hand and producer. */
  lemma ChannelSteps(b: Buffer, payload: Payload, ok: bool)
    ensures var t := Step(b, SendBegins(payload));
            b.stage.Idle? ==> if |b.ch| < b.capacity then t.ch == b.ch + [payload] && t.stage.Idle?
                              else t.ch == b.ch && t.stage == Dropping(payload)
    ensures var t := Step(b, SendDrops);
            b.stage.Dropping? ==> t.stage == Retrying(b.stage.payload) && t.ch == if b.ch == [] then [] else b.ch[1..]
    ensures var t := Step(b, SendRetries);
            b.stage.Retrying? ==> t.stage.Idle? && t.ch == if |b.ch| < b.capacity then b.ch + [b.stage.payload] else b.ch
    ensures var t := Step(b, FlushTakes);
            t.stage == b.stage && if b.isFlushing && b.hand.None? && b.ch != []
                                  then t.hand == Some(b.ch[0]) && t.ch == b.ch[1..]
                                  else t.hand == b.hand && t.ch == b.ch
    ensures var t := Step(b, FlushPublishes(ok)); t.hand == None && t.ch == b.ch && t.stage == b.stage
    ensures var t := Step(b, FlushStops);
            t.ch == b.ch && t.hand == b.hand && t.stage == b.stage && t.isFlushing == (b.isFlushing && b.hand.Some?)
  {
  }

  /** n rounds of Flush, each publishing successfully. */
  function Rounds(n: nat): seq<Event> {
    if n == 0 then [] else [FlushTakes, FlushPublishes(true)] + Rounds(n - 1)
  }

  lemma RunSplit(b: Buffer, first: Event, second: Event, rest: seq<Event>)
    ensures Run(b, [first, second] + rest) == Run(Step(Step(b, first), second), rest)
    decreases |rest|
  {
    var es := [first, second] + rest;
    if rest == [] {
      assert es == [first, second] && es[..1] == [first] && [first][..0] == [];
      assert Run(b, [first]) == Step(Run(b, []), first);
    } else {
      var n := |rest| - 1;
      RunSplit(b, first, second, rest[..n]);
      assert es[..|es| - 1] == [first, second] + rest[..n];
    }
  }

  /** With the producer pausing and publication succeeding, Flush publishes the whole
      channel, oldest first. */
  lemma {:induction false} FlushDrains(b: Buffer)
    requires b.isFlushing && b.hand.None?
    ensures var t := Run(b, Rounds(|b.ch|));
            t.ch == [] && t.hand == None && t.published == b.published + b.ch && t.errors == b.errors
    decreases |b.ch|
  {
    if b.ch != [] {
      var next := Step(Step(b, FlushTakes), FlushPublishes(true));
      RunSplit(b, FlushTakes, FlushPublishes(true), Rounds(|b.ch| - 1));
      StepOutcome(b, FlushTakes);
      StepOutcome(Step(b, FlushTakes), FlushPublishes(true));
      FlushDrains(next);
      assert b.published + [b.ch[0]] + b.ch[1..] == b.published + b.ch;
    }
  }
}
