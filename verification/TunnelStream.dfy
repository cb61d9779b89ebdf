/**
 The table of pending requests of a tunnel stream, as the object the server keeps. Every method is one
 lock section, or the receive loop's send of an error, which needs no lock; each is tied to the channel
 transitions of `ResponseStream`.
 */
module TunnelStream {
  import opened Messages
  import opened ResponseStream

  class ResponseChannel {
    ghost const id: RequestId   // whose channel it is
    const kind: Kind            // which decides its capacity
    var open: bool
    var closes: nat
    var buf: seq<Msg>

    constructor (ghost id: RequestId, kind: Kind)
      ensures this.id == id && this.kind == kind && open && closes == 0 && buf == []
    {
      this.id, this.kind := id, kind;
      open, closes, buf := true, 0, [];
    }
  }

  /** A request whose channel the receive loop has found. */
  function Found(c: Channel, kind: Kind, m: Msg): View {
    View(NewClient, NewServer(kind).(chan := c), [], [], Got(m), false, Losses(0, 0, false))
  }

  /** What the loop's delivery of a message comes to; a channel that stays full times out. */
  function Delivered(c: Channel, kind: Kind, m: Msg, timesOut: bool): View {
    var v := if m.Failure? then Found(c, kind, m) else AfterEnter(Found(c, kind, m));
    if !v.hand.Got? && !v.hand.Locked? then v
    else if v.server.chan.open && (timesOut || |c.buf| >= Capacity(kind)) then AfterTimeout(v)
    else AfterDeliver(v)
  }

  class Stream {
    var pendingRequests: map<RequestId, ResponseChannel>

    constructor ()
      ensures pendingRequests == map[]
    {
      pendingRequests := map[];
    }

    /** Registered channels are open, and each is registered for its own request only. */
    ghost predicate Valid()
      reads this, pendingRequests.Values
    {
      forall id :: id in pendingRequests ==>
        var ch := pendingRequests[id];
        ch.id == id && ch.open && ch.closes == 0
    }

    /** The channel of a request as the request's own machine sees it. */
    ghost function Seen(id: RequestId, ch: ResponseChannel): Channel
      reads this, ch
    {
      Channel(id in pendingRequests && pendingRequests[id] == ch, ch.open, ch.closes, ch.buf)
    }

    /** No other request has taken the entry over: the channel is open exactly while it is registered. */
    ghost predicate Own(id: RequestId, ch: ResponseChannel)
      reads this, ch
    {
      ch.id == id && Seen(id, ch).registered == ch.open
    }

    /** Make a channel and register it before the request is sent, over any entry the id may have. */
    method Register(id: RequestId, kind: Kind) returns (ch: ResponseChannel)
      requires Valid()
      modifies this
      ensures Valid() && fresh(ch) && pendingRequests == old(pendingRequests)[id := ch]
      ensures Seen(id, ch) == NewServer(kind).chan && ch.kind == kind && Own(id, ch)
    {
      ch := new ResponseChannel(id, kind);
      pendingRequests := pendingRequests[id := ch];
    }

    /**
     A waiter that gives up, a failed send and a collector that exits take their entry back and close
     the channel only if it is still theirs.
     */
    method Release(id: RequestId, ch: ResponseChannel)
      requires Valid()
      modifies this, ch
      ensures Valid() && Seen(id, ch) == Removed(old(Seen(id, ch)))
      ensures pendingRequests
              == if old(Seen(id, ch)).registered then old(pendingRequests) - {id} else old(pendingRequests)
    {
      if id in pendingRequests && pendingRequests[id] == ch {
        pendingRequests := pendingRequests - {id};
        ch.open, ch.closes := false, ch.closes + 1;
      }
    }

    /** Deliver a chunk after checking again that the channel looked up is still registered. */
    method DeliverChunk(ch: ResponseChannel, msg: Msg, timesOut: bool) returns (delivered: bool)
      requires Valid() && msg.Chunk? && Own(msg.id, ch)
      modifies ch
      ensures Valid() && pendingRequests == old(pendingRequests) && Own(msg.id, ch)
      ensures Seen(msg.id, ch) == Delivered(old(Seen(msg.id, ch)), ch.kind, msg, timesOut).server.chan
      ensures delivered <==> ch.buf != old(ch.buf)
    {
      delivered := msg.id in pendingRequests && pendingRequests[msg.id] == ch
                   && !timesOut && |ch.buf| < Capacity(ch.kind);
      if delivered {
        ch.buf := ch.buf + [msg];
        assert |ch.buf| == |old(ch.buf)| + 1;
      }
    }

    /**
     Deliver a complete response, or give it up, and drop its request, all without looking again: the
     send panics if another goroutine has closed the channel since the lookup.
     */
    method DeliverWhole(ch: ResponseChannel, msg: Msg, timesOut: bool) returns (panicked: bool)
      requires Valid() && msg.Whole? && Own(msg.id, ch)
      modifies this, ch
      ensures panicked <==> !old(ch.open)
      ensures panicked <==> Delivered(old(Seen(msg.id, ch)), ch.kind, msg, timesOut).hand.Crashed?
      ensures !panicked ==>
                && Valid() && Own(msg.id, ch) && pendingRequests == old(pendingRequests) - {msg.id}
                && Seen(msg.id, ch) == Delivered(old(Seen(msg.id, ch)), ch.kind, msg, timesOut).server.chan
    {
      if !ch.open {
        return true;
      }
      if !timesOut && |ch.buf| < Capacity(ch.kind) {
        ch.buf := ch.buf + [msg];
      }
      pendingRequests := pendingRequests - {msg.id};
      ch.open, ch.closes := false, ch.closes + 1;
      return false;
    }

    /** Send an error into the channel looked up, without the lock: a closed channel panics. */
    method SendError(ch: ResponseChannel, msg: Msg, timesOut: bool) returns (panicked: bool)
      requires Valid() && msg.Failure? && Own(msg.id, ch)
      modifies ch
      ensures panicked <==> !old(ch.open)
      ensures panicked <==> Delivered(old(Seen(msg.id, ch)), ch.kind, msg, timesOut).hand.Crashed?
      ensures Valid() && pendingRequests == old(pendingRequests)
      ensures !panicked ==>
                && Own(msg.id, ch)
                && Seen(msg.id, ch) == Delivered(old(Seen(msg.id, ch)), ch.kind, msg, timesOut).server.chan
    {
      if !ch.open {
        return true;
      }
      if !timesOut && |ch.buf| < Capacity(ch.kind) {
        ch.buf := ch.buf + [msg];
      }
      return false;
    }

    /** And then remove the entry and close the channel, again without looking. */
    method RemoveFailed(id: RequestId, ch: ResponseChannel) returns (panicked: bool)
      requires Valid() && Own(id, ch)
      modifies this, ch
      ensures panicked <==> !old(ch.open)
      ensures !panicked ==>
                && Valid() && Own(id, ch) && pendingRequests == old(pendingRequests) - {id}
                && Seen(id, ch) == Removed(old(Seen(id, ch)))
    {
      pendingRequests := pendingRequests - {id};
      if !ch.open {
        return true;
      }
      ch.open, ch.closes := false, ch.closes + 1;
      return false;
    }

    /** The channel keeps its messages; if it is no longer pending it has been closed once. */
    ghost predicate ClosedOnce(id: RequestId, ch: ResponseChannel, buf: seq<Msg>)
      reads this, ch
    {
      ch.id == id && ch.buf == buf && (id !in pendingRequests ==> !ch.open && ch.closes == 1)
    }

    /** Close every pending channel and forget it: each is closed exactly once and none is left. */
    method CleanupTunnelStreamState()
      requires Valid()
      modifies this, pendingRequests.Values
      ensures Valid() && pendingRequests == map[]
      ensures forall id :: id in old(pendingRequests) ==>
                Seen(id, old(pendingRequests)[id]) == Removed(old(Seen(id, pendingRequests[id])))
    {
      ghost var before := pendingRequests;
      while pendingRequests.Keys != {}
        invariant Valid() && pendingRequests.Keys <= before.Keys
        invariant forall id :: id in pendingRequests ==> pendingRequests[id] == before[id]
        invariant forall id :: id in before ==> ClosedOnce(id, before[id], old(before[id].buf))
        decreases |pendingRequests|
      {
        var id :| id in pendingRequests.Keys;
        RemovalShrinks(pendingRequests, id);
        Release(id, pendingRequests[id]);
      }
      assert pendingRequests == map[];
    }
  }

  lemma RemovalShrinks<T>(m: map<RequestId, T>, id: RequestId)
    requires id in m
    ensures |m - {id}| < |m|
  {
    assert (m - {id}).Keys == m.Keys - {id};
  }
}
