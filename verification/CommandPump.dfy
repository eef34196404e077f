/** The subscriber and the pump goroutine as objects, stepwise, over one worker. */
module CommandPumps {
  import opened Domain
  import opened WorkerModel
  import opened GatewayWorkers
  import opened PipelineModel
  import P = PipelineModel

  class GatewaySubscriber {
    var ch: seq<Command>
    ghost var accepted: seq<Arrival>
    ghost var expired: seq<Command>
    ghost var refused: seq<Command>
    ghost var terminated: nat

    ghost predicate Unused()
      reads this
    {
      ch == [] && accepted == [] && expired == [] && refused == [] && terminated == 0
    }

    constructor ()
      ensures Unused()
    {
      ch, accepted, expired, refused, terminated := [], [], [], [], 0;
    }

    /** Terminate what does not decode, acknowledge what is expired, enqueue and
        acknowledge what finds room, refuse the rest for redelivery. */
    method HandleMsg(msg: Message, now: Instant) returns (d: Disposition)
      modifies this
      ensures d == Terminated <==> msg.Garbled?
      ensures d == Expired <==> msg.Carrying? && now - msg.cmd.issuedAt > 60 * SECOND
      ensures d == Accepted <==> msg.Carrying? && now - msg.cmd.issuedAt <= 60 * SECOND && |old(ch)| < 8
      ensures d == Refused <==> msg.Carrying? && now - msg.cmd.issuedAt <= 60 * SECOND && |old(ch)| >= 8
      ensures ch == (if d == Accepted then old(ch) + [msg.cmd] else old(ch))
      ensures accepted == (if d == Accepted then old(accepted) + [Arrival(msg.cmd, now)] else old(accepted))
      ensures expired == (if d == Expired then old(expired) + [msg.cmd] else old(expired))
      ensures refused == (if d == Refused then old(refused) + [msg.cmd] else old(refused))
      ensures terminated == (if d == Terminated then old(terminated) + 1 else old(terminated))
    {
      if msg.Garbled? {
        terminated := terminated + 1;
        return Terminated;
      }
      if Elapsed(now, msg.cmd.issuedAt) > TTL {
        expired := expired + [msg.cmd];
        return Expired;
      }
      if |ch| < SUBSCRIBER_CAPACITY {
        ch := ch + [msg.cmd];
        accepted := accepted + [Arrival(msg.cmd, now)];
        return Accepted;
      }
      refused := refused + [msg.cmd];
      return Refused;
    }
  }

  class CommandPump {
    const subscriber: GatewaySubscriber
    const worker: GatewayWorker
    var hand: Option<Command>
    var isPumping: bool
    ghost var lost: set<int>

    ghost predicate Valid()
      reads this, worker, worker.generators
    {
      worker.Valid()
    }

    ghost function Snapshot(): Pipe
      requires Valid()
      reads this, subscriber, worker, worker.generators
    {
      Pipe(subscriber.ch, hand, isPumping, worker.Snapshot(), subscriber.accepted, lost,
           subscriber.expired, subscriber.refused, subscriber.terminated)
    }

    constructor (subscriber: GatewaySubscriber, worker: GatewayWorker)
      requires worker.Valid() && subscriber.Unused()
      ensures Valid() && this.subscriber == subscriber && this.worker == worker
      ensures Snapshot() == Pipe([], None, true, worker.Snapshot(), [], {}, [], [], 0)
    {
      this.subscriber, this.worker := subscriber, worker;
      hand, isPumping, lost := None, true, {};
    }

    /** JetStream calls the subscriber back with one delivery. */
    method Deliver(msg: Message, now: Instant) returns (d: Disposition)
      requires Valid()
      modifies subscriber
      ensures Valid()
      ensures d == Dispose(|old(subscriber.ch)|, msg, now)
      ensures Snapshot() == P.Step(worker.env, old(Snapshot()), P.Event.Deliver(msg, now))
    {
      d := subscriber.HandleMsg(msg, now);
      assert worker.Snapshot() == old(worker.Snapshot());
    }

    /** The outer select: take a message, if there is one. */
    method ReceiveMessage()
      requires Valid() && isPumping && hand.None? && subscriber.ch != []
      modifies this, subscriber
      ensures Valid()
      ensures hand == Some(old(subscriber.ch)[0]) && subscriber.ch == old(subscriber.ch)[1..]
      ensures Snapshot() == P.Step(worker.env, old(Snapshot()), PumpReceive)
    {
      hand := Some(subscriber.ch[0]);
      subscriber.ch := subscriber.ch[1..];
      assert worker.Snapshot() == old(worker.Snapshot());
    }

    /** The inner select: hand the message to the worker or drop it. */
    method ForwardMessage()
      requires Valid() && hand.Some?
      modifies this, worker
      ensures Valid()
      ensures hand == None
      ensures |old(worker.commandCh)| < 10 ==> worker.commandCh == old(worker.commandCh) + [old(hand).value]
      ensures |old(worker.commandCh)| >= 10 ==> worker.commandCh == old(worker.commandCh)
      ensures Snapshot() == P.Step(worker.env, old(Snapshot()), PumpForward)
    {
      var passed := worker.TryCommand(hand.value);
      if !passed {
        lost := lost + {|subscriber.accepted| - |subscriber.ch| - 1};
      }
      hand := None;
    }

    /** The outer select sees the cancelled context. */
    method Exit()
      requires Valid() && hand.None?
      modifies this
      ensures Valid() && !isPumping
      ensures Snapshot() == P.Step(worker.env, old(Snapshot()), PumpExit)
    {
      isPumping := false;
      assert worker.Snapshot() == old(worker.Snapshot());
    }
  }
}
