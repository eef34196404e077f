/** The drop-oldest message buffer: one producer's `Send`, whose three selects are
    separate steps, interleaved with the `Flush` goroutine. */
module BufferModel {
  import opened Domain

  type Payload = seq<int>

  /** Where the producer stands inside `Send`. */
  datatype Stage = Idle | Dropping(payload: Payload) | Retrying(payload: Payload)

  datatype Fate = Dropped | Published | Failed

  /** `begun`, `sent`, `fates` and `behind` are history: the payloads given to
      Send, those that entered the channel, what became of the first ones of them,
      and how many were dropped behind the payload now in Flush's hand. */
  datatype Buffer = Buffer(
    capacity: nat,
    ch: seq<Payload>,
    stage: Stage,
    hand: Option<Payload>,
    isFlushing: bool,
    dropped: nat,
    errors: nat,
    published: seq<Payload>,
    discarded: seq<Payload>,
    begun: seq<Payload>,
    sent: seq<Payload>,
    fates: seq<Fate>,
    behind: nat)

  function Empty(capacity: nat): Buffer {
    Buffer(capacity, [], Idle, None, true, 0, 0, [], [], [], [], [], 0)
  }

  function Enqueue(b: Buffer, payload: Payload): Buffer {
    b.(ch := b.ch + [payload], sent := b.sent + [payload], stage := Idle)
  }

  /** The first select of Send. */
  function TrySend(b: Buffer, payload: Payload): Buffer {
    var s := b.(begun := b.begun + [payload]);
    if |b.ch| < b.capacity then Enqueue(s, payload) else s.(stage := Dropping(payload))
  }

  /** The second select: discard the oldest payload, if there still is one. */
  function DropOldest(b: Buffer): Buffer
    requires b.stage.Dropping?
  {
    var s := b.(stage := Retrying(b.stage.payload));
    if b.ch == [] then s
    else
      var t := s.(ch := b.ch[1..], dropped := b.dropped + 1);
      if b.hand.Some? then t.(behind := b.behind + 1) else t.(fates := b.fates + [Dropped])
  }

  /** The third select; its default branch would lose the new payload. */
  function Retry(b: Buffer): Buffer
    requires b.stage.Retrying?
  {
    if |b.ch| < b.capacity then Enqueue(b, b.stage.payload)
    else b.(stage := Idle, discarded := b.discarded + [b.stage.payload])
  }

  function Take(b: Buffer): Buffer {
    if b.isFlushing && b.hand.None? && b.ch != []
    then b.(ch := b.ch[1..], hand := Some(b.ch[0]))
    else b
  }

  function Drops(n: nat): (fates: seq<Fate>)
    ensures |fates| == n
  {
    if n == 0 then [] else Drops(n - 1) + [Dropped]
  }

  function Settle(b: Buffer, f: Fate): Buffer {
    b.(hand := None, fates := b.fates + [f] + Drops(b.behind), behind := 0)
  }

  function Finish(b: Buffer, ok: bool): Buffer {
    if b.hand.None? then b
    else if ok then Settle(b, Published).(published := b.published + [b.hand.value])
    else Settle(b, Failed).(errors := b.errors + 1)
  }

  datatype Event =
    | SendBegins(payload: Payload)
    | SendDrops
    | SendRetries
    | FlushTakes
    | FlushPublishes(ok: bool)
    | FlushStops

  function Step(b: Buffer, e: Event): Buffer {
    match e
    case SendBegins(payload) => if b.stage.Idle? then TrySend(b, payload) else b
    case SendDrops => if b.stage.Dropping? then DropOldest(b) else b
    case SendRetries => if b.stage.Retrying? then Retry(b) else b
    case FlushTakes => Take(b)
    case FlushPublishes(ok) => Finish(b, ok)
    case FlushStops => if b.hand.None? then b.(isFlushing := false) else b
  }

  function Run(b: Buffer, es: seq<Event>): Buffer {
    if es == [] then b else Step(Run(b, es[..|es| - 1]), es[|es| - 1])
  }
}
