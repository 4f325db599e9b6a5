/**
  A client connection: the queue of outgoing messages, closing, and the packet limit
  (src/connection.cpp:57-90, 148-180, 269-331).  Every handler holds the connection's lock from beginning to
  end, so each is one step.
  */
module Connection {
  import opened Common

  type Message = nat

  /** `queue` and the write that the network is busy with fit together. */
  ghost predicate WritesOk(queue: seq<Message>, inFlight: Option<Message>, disconnected: bool, socketOpen: bool, broken: bool) {
    && (inFlight.Some? ==> queue != [] && inFlight.value == queue[0])
    && (queue != [] && !broken ==> inFlight.Some?)
    && (broken ==> disconnected && !socketOpen && inFlight == None)
    && (disconnected && queue == [] ==> !socketOpen)
  }

  /**
    Messages are handed to the network, and go out, in the order in which they were accepted.  Unless a write
    failed, what has not gone out yet is queued; unless the connection was forced, the socket closes only after
    everything has gone out.
    */
  ghost predicate OrderOk(accepted: seq<Message>, begun: seq<Message>, written: seq<Message>, queue: seq<Message>,
                          inFlight: Option<Message>, socketOpen: bool, failed: bool, forced: bool) {
    && begun <= accepted && written <= begun
    && (!failed ==> accepted == written + queue && begun == written + if inFlight.Some? then [inFlight.value] else [])
    && (failed ==> queue == [] && forced)
    && (!forced && !socketOpen ==> written == accepted)
  }

  class Connection {
    var disconnected: bool
    var queue: seq<Message>
    var socketOpen: bool
    var inFlight: Option<Message>     // the asynchronous write under way, whose end the network will report

    ghost var accepted: seq<Message>  // by `send`
    ghost var begun: seq<Message>     // handed to the network
    ghost var written: seq<Message>   // reported as sent
    ghost var failed: bool            // a write was reported as failed
    ghost var broken: bool            // a write could not be begun
    ghost var forced: bool            // the socket was closed regardless of the queue

    ghost predicate Valid()
      reads this
    {
      && WritesOk(queue, inFlight, disconnected, socketOpen, broken)
      && OrderOk(accepted, begun, written, queue, inFlight, socketOpen, failed, forced)
      && (broken ==> forced) && (failed ==> disconnected) && (!socketOpen && !forced ==> disconnected)
    }

    constructor ()
      ensures Valid() && !disconnected && socketOpen && accepted == []
    {
      disconnected, queue, socketOpen, inFlight := false, [], true, None;
      accepted, begun, written, failed, broken, forced := [], [], [], false, false, false;
    }

    /** `Connection::close`: at once, or, if messages are still queued, when they have gone out. */
    method Close(force: bool)
      requires Valid()
      modifies this`disconnected, this`socketOpen, this`forced
      ensures Valid() && disconnected
      ensures socketOpen <==> old(socketOpen) && queue != [] && !force
      ensures forced <==> old(forced) || (force && queue != [])
    {
      disconnected := true;
      if queue == [] || force {
        forced := forced || queue != [];
        socketOpen := false;
      }
    }

    /** `ConnectionManager::closeAll`: the socket closes, and nobody is told. */
    method CloseAll()
      requires Valid()
      modifies this`socketOpen, this`forced
      ensures Valid() && !socketOpen && forced
    {
      socketOpen, forced := false, true;
    }

    /** `Connection::internalSend` for the head of the queue; `throws` says that the write cannot be begun. */
    method InternalSend(throws: bool)
      requires queue != [] && inFlight == None && !broken && !failed
      requires (disconnected && queue == [] ==> !socketOpen) && (!forced && !socketOpen ==> written == accepted)
      requires begun == written && accepted == written + queue && (!socketOpen && !forced ==> disconnected)
      modifies this`inFlight, this`begun, this`broken, this`disconnected, this`socketOpen, this`forced
      ensures Valid()
      ensures inFlight == if throws then None else Some(queue[0])
      ensures begun == if throws then old(begun) else old(begun) + [queue[0]]
      ensures disconnected <==> old(disconnected) || throws
      ensures !throws ==> socketOpen == old(socketOpen) && forced == old(forced)
    {
      if throws {
        broken, disconnected, socketOpen, forced := true, true, false, true;
      } else {
        inFlight := Some(queue[0]);
        begun := begun + [queue[0]];
        assert accepted == begun + queue[1..];
      }
    }

    /** `Connection::send`: a message joins the queue, and is written at once if nothing else is being written. */
    method Send(msg: Message, throws: bool)
      requires Valid()
      modifies this
      ensures Valid() && written == old(written)
      ensures old(disconnected) ==>
                queue == old(queue) && accepted == old(accepted) && inFlight == old(inFlight) && begun == old(begun)
                && disconnected
      ensures !old(disconnected) ==> queue == old(queue) + [msg] && accepted == old(accepted) + [msg]
      ensures !old(disconnected) && old(queue) != [] ==> inFlight == old(inFlight) && begun == old(begun)
      ensures !throws ==> forced == old(forced)
    {
      if disconnected {
        return;
      }
      var noPendingWrite := queue == [];
      queue, accepted := queue + [msg], accepted + [msg];
      if noPendingWrite {
        assert queue == [msg];
        InternalSend(throws);
      }
    }

    /** `Connection::onWriteOperation`, which the network calls once for each write it was given. */
    method OnWriteOperation(error: bool, throws: bool)
      requires Valid() && inFlight.Some?
      modifies this
      ensures Valid() && accepted == old(accepted)
      ensures old(queue) != [] && old(inFlight.value) == old(queue[0])
      ensures error ==> queue == [] && disconnected && !socketOpen && inFlight == None && written == old(written)
      ensures !error && !throws ==> forced == old(forced)
      ensures !error ==> queue == old(queue[1..]) && written == old(written) + [old(queue[0])]
      ensures !error && |old(queue)| > 1 && !throws ==> inFlight == Some(old(queue[1])) && socketOpen == old(socketOpen)
      ensures !error && |old(queue)| == 1 ==> (socketOpen <==> old(socketOpen) && !old(disconnected))
    {
      var head := queue[0];
      queue := queue[1..];
      inFlight := None;
      if error {
        queue, failed, forced := [], true, true;
        disconnected, socketOpen := true, false;
        return;
      }
      assert accepted == written + [head] + queue;
      written := written + [head];
      if queue != [] {
        InternalSend(throws);
      } else if disconnected {
        socketOpen := false;
      }
    }

    /**
      Over every run: at most one write is under way, and it is the head of the queue; messages go out in the
      order in which they were accepted; and after nothing but soft closes and writes that succeed, a closed
      socket means that every accepted message has gone out.
      */
    method Run(events: seq<Event>)
      requires Valid()
      modifies this
      ensures Valid()
      ensures begun <= accepted && written <= begun && old(written) <= written
      ensures !old(forced) && !socketOpen && (forall i :: 0 <= i < |events| ==> Soft(events[i])) ==> written == accepted
    {
      for i := 0 to |events|
        invariant Valid() && old(written) <= written
        invariant !old(forced) && (forall j :: 0 <= j < i ==> Soft(events[j])) ==> !forced
      {
        match events[i]
        case Sends(msg, throws) => Send(msg, throws);
        case Reported(error, throws) => if inFlight.Some? { OnWriteOperation(error, throws); }
        case Closes(force) => Close(force);
        case ClosesAll => CloseAll();
      }
    }
  }

  datatype Event =
    | Sends(msg: Message, throws: bool)
    | Reported(error: bool, throws: bool)
    | Closes(force: bool)
    | ClosesAll

  predicate Soft(e: Event) {
    match e
    case Sends(_, throws) => !throws
    case Reported(error, throws) => !error && !throws
    case Closes(force) => !force
    case ClosesAll => false
  }

  // ----- the packet limit -----------------------------------------------------------------------------------

  /** The counter of `parseHeader`, with what it is to be judged by: the packets let through in the current second. */
  class PacketLimit {
    const max: nat
    var timeConnected: int
    var packetsSent: nat

    ghost var second: int       // of the last packet
    ghost var inSecond: nat     // packets let through in it
    ghost var polite: bool      // no second so far saw more than `max` packets

    ghost predicate Valid()
      reads this
    {
      && timeConnected <= second <= timeConnected + 1
      && (second == timeConnected ==> packetsSent <= max && inSecond <= packetsSent + 1)
      && (second == timeConnected + 1 ==> packetsSent <= 2 * max + 1 && inSecond <= packetsSent)
      && (polite && second == timeConnected ==> packetsSent <= inSecond)
      && (polite && second == timeConnected + 1 ==> packetsSent <= max + inSecond)
      && (polite ==> inSecond <= max)
    }

    constructor (max: nat, now: int)
      ensures Valid() && polite && this.max == max && second == timeConnected == now && packetsSent == inSecond == 0
    {
      this.max := max;
      timeConnected, packetsSent, second, inSecond, polite := now, 0, now, 0, true;
    }

    /**
      The check in `parseHeader` at time `now`.  A client that keeps to the limit is never cut off, and in no
      second do more than twice the limit and one packet get through.
      */
    method Packet(now: int) returns (cut: bool)
      requires Valid() && now >= second
      modifies this
      ensures !cut ==> Valid() && second == now && inSecond == (if now == old(second) then old(inSecond) else 0) + 1
      ensures !cut ==> inSecond <= 2 * max + 1
      ensures !cut ==> (polite <==> old(polite) && inSecond <= max)
      ensures now <= old(timeConnected) + 1 && !cut ==> timeConnected == old(timeConnected) && packetsSent == old(packetsSent) + 1
      ensures now == old(timeConnected) + 1 ==> (cut <==> old(packetsSent) + 1 >= 2 * max + 2)
      ensures cut && old(polite) ==> (if now == old(second) then old(inSecond) else 0) + 1 > max
    {
      var passed := now - timeConnected + 1;
      var timePassed := if passed > 1 then passed else 1;
      packetsSent := packetsSent + 1;
      CutWhen(packetsSent, timePassed, max);
      if packetsSent / timePassed > max {
        return true;
      }
      if timePassed > 2 {
        timeConnected, packetsSent := now, 0;
      }
      inSecond := (if now == second then inSecond else 0) + 1;
      polite := polite && inSecond <= max;
      second := now;
      cut := false;
    }
  }

  lemma CutWhen(n: nat, t: nat, max: nat)
    requires t >= 1
    ensures t == 1 ==> (n / t > max <==> n >= max + 1)
    ensures t == 2 ==> (n / t > max <==> n >= 2 * max + 2)
    ensures t >= 3 && n <= 2 * max + 2 ==> n / t <= max
  {
    if t >= 3 && n <= 2 * max + 2 && n / t > max {
      Quotient(n, t, max);
      assert false;
    }
  }

  lemma Quotient(n: nat, t: nat, max: nat)
    requires t >= 3 && n / t > max
    ensures n >= 3 * max + 3
  {
    assert n >= t * (n / t);
    assert t * (n / t) == 3 * (n / t) + (t - 3) * (n / t);
    assert (t - 3) * (n / t) >= 0;
  }

  /** The bound is attained: after a second of silence, twice the limit and one packet pass within one second. */
  method Burst(max: nat, now: int) returns (limit: PacketLimit)
    ensures fresh(limit) && limit.Valid() && limit.max == max && limit.inSecond == 2 * max + 1
  {
    limit := new PacketLimit(max, now);
    for i := 0 to 2 * max + 1
      invariant limit.max == max && limit.timeConnected == now && limit.packetsSent == i == limit.inSecond
      invariant limit.Valid() && (i == 0 ==> limit.second == now) && (i > 0 ==> limit.second == now + 1) && fresh(limit)
    {
      var cut := limit.Packet(now + 1);
    }
  }
}
