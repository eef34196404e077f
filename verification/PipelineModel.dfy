/** Commands on their way to the worker: the JetStream subscriber, the command
    pump and the worker, interleaved step by step. */
module PipelineModel {
  import opened Domain
  import opened WorkerModel
  import opened WorkerProofs

  const SUBSCRIBER_CAPACITY: nat := 8
  const TTL: int := 60 * SECOND

  /** A delivery; Garbled is one whose payload does not decode. */
  datatype Message = Garbled | Carrying(cmd: Command)

  /** Term, reply `expired` and Ack, enqueue and Ack, or Nak. */
  datatype Disposition = Terminated | Expired | Accepted | Refused

  datatype Arrival = Arrival(cmd: Command, at: Instant)

  /** `accepted`, `lost`, `expired`, `refused` and `terminated` are history: every accepted
      delivery, the positions among them that the pump dropped, and the deliveries with
      each other disposition. */
  datatype Pipe = Pipe(
    sub: seq<Command>,
    hand: Option<Command>,
    isPumping: bool,
    worker: Worker,
    accepted: seq<Arrival>,
    lost: set<int>,
    expired: seq<Command>,
    refused: seq<Command>,
    terminated: nat)

  /** Go's `Time.Sub` saturates at the 64-bit limits. */
  function Elapsed(now: Instant, since: Instant): int {
    var d := now - since;
    if d >= INT64_LIMIT then INT64_LIMIT - 1 else if d < -INT64_LIMIT then -INT64_LIMIT else d
  }

  /** What happens to a delivery while `waiting` commands are in the channel: exactly
      one of the four, told by the message, its age and the room there is. */
  function Dispose(waiting: nat, msg: Message, now: Instant): (d: Disposition)
    ensures d == Terminated <==> msg.Garbled?
    ensures d == Expired <==> msg.Carrying? && now - msg.cmd.issuedAt > 60 * SECOND
    ensures d == Accepted <==> msg.Carrying? && now - msg.cmd.issuedAt <= 60 * SECOND && waiting < 8
    ensures d == Refused <==> msg.Carrying? && now - msg.cmd.issuedAt <= 60 * SECOND && waiting >= 8
  {
    match msg
    case Garbled => Terminated
    case Carrying(cmd) =>
      if Elapsed(now, cmd.issuedAt) > TTL then Expired
      else if waiting < SUBSCRIBER_CAPACITY then Accepted
      else Refused
  }

  function Handle(p: Pipe, msg: Message, now: Instant): Pipe {
    match Dispose(|p.sub|, msg, now)
    case Expired => p.(expired := p.expired + [msg.cmd])
    case Accepted => p.(sub := p.sub + [msg.cmd], accepted := p.accepted + [Arrival(msg.cmd, now)])
    case Refused => p.(refused := p.refused + [msg.cmd])
    case Terminated => p.(terminated := p.terminated + 1)
  }

  function Receive(p: Pipe): Pipe {
    if p.isPumping && p.hand.None? && p.sub != []
    then p.(hand := Some(p.sub[0]), sub := p.sub[1..])
    else p
  }

  /** The pump's inner select: hand the command on, or drop it. */
  function Forward(env: Environment, p: Pipe): Pipe {
    if p.hand.None? then p
    else if |p.worker.commandCh| < CAPACITY
    then p.(hand := None, worker := WorkerModel.Step(env, p.worker, Offer(p.hand.value)))
    else p.(hand := None, lost := p.lost + {|p.accepted| - |p.sub| - 1})
  }

  datatype Event =
    | Deliver(msg: Message, now: Instant)
    | PumpReceive
    | PumpForward
    | PumpExit
    | AtWorker(e: WorkerModel.Event)

  function Step(env: Environment, p: Pipe, e: Event): Pipe {
    match e
    case Deliver(msg, now) => Handle(p, msg, now)
    case PumpReceive => Receive(p)
    case PumpForward => Forward(env, p)
    case PumpExit => if p.hand.None? then p.(isPumping := false) else p
    case AtWorker(we) => if we.Offer? then p else p.(worker := WorkerModel.Step(env, p.worker, we))
  }

  function Run(env: Environment, p: Pipe, es: seq<Event>): Pipe {
    if es == [] then p else Step(env, Run(env, p, es[..|es| - 1]), es[|es| - 1])
  }

  function Opened(row: Row, sensors: seq<Sensor>): Pipe {
    Pipe([], None, true, Started(row, sensors), [], {}, [], [], 0)
  }
}
