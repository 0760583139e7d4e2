/** The router and a subscription as objects: maps and channels edited in place, and `next`
    as the loop it is, with other tasks at work between any two of its steps. */
module RustSubscription {
  import opened Options
  import opened RustRouter

  /** An unbounded channel; `sent` is everything ever put in. */
  class Channel {
    var frames: seq<Frame>
    ghost var sent: seq<Frame>

    constructor ()
      ensures frames == [] && sent == []
    {
      frames, sent := [], [];
    }
  }

  class SharedRouter {
    var handshake: bool
    var streams: map<Id, Channel>
    var sessions: map<Id, Channel>
    var replies: map<Id, Channel>
    var closed: bool
    var flag: bool

    ghost function Channels(): set<Channel>
      reads this
    {
      streams.Values + sessions.Values + replies.Values
    }

    /** A reply goes to its request; then the stream's route; then the session's. */
    function Target(frame: Frame): Option<Channel>
      reads this
    {
      if frame.replyTo.Some? && frame.replyTo.value in replies then Some(replies[frame.replyTo.value])
      else if frame.streamId.Some? && frame.streamId.value in streams then Some(streams[frame.streamId.value])
      else if frame.sessionId.Some? && frame.sessionId.value in sessions then Some(sessions[frame.sessionId.value])
      else None
    }

    /** One channel gets the frame, or none; no other channel changes. */
    method Dispatch(frame: Frame)
      modifies `handshake, Channels()
      ensures !handshake
      ensures forall c :: c in Channels() ==>
                var gets := !old(handshake) && Target(frame) == Some(c);
                c.frames == old(c.frames) + (if gets then [frame] else [])
                && c.sent == old(c.sent) + (if gets then [frame] else [])
    {
      if handshake {
        handshake := false;
        return;
      }
      var c: Channel;
      if frame.replyTo.Some? && frame.replyTo.value in replies {
        c := replies[frame.replyTo.value];
      } else if frame.streamId.Some? && frame.streamId.value in streams {
        c := streams[frame.streamId.value];
      } else if frame.sessionId.Some? && frame.sessionId.value in sessions {
        c := sessions[frame.sessionId.value];
      } else {
        return;
      }
      assert c in Channels();
      c.frames := c.frames + [frame];
      c.sent := c.sent + [frame];
    }

    method CloseState()
      modifies `closed, `handshake, `streams, `sessions, `replies
      ensures closed && !handshake && Channels() == {}
    {
      closed, handshake := true, false;
      streams, sessions, replies := map[], map[], map[];
    }

    method Unregister(keys: seq<Key>)
      modifies `streams, `sessions, `replies
      ensures forall id :: id in streams <==> id in old(streams) && Stream(id) !in keys
      ensures forall id :: id in sessions <==> id in old(sessions) && Session(id) !in keys
      ensures forall id :: id in replies <==> id in old(replies) && Reply(id) !in keys
      ensures forall id :: id in streams ==> streams[id] == old(streams)[id]
      ensures forall id :: id in sessions ==> sessions[id] == old(sessions)[id]
      ensures forall id :: id in replies ==> replies[id] == old(replies)[id]
    {
      for k := 0 to |keys|
        invariant forall id :: id in streams <==> id in old(streams) && Stream(id) !in keys[..k]
        invariant forall id :: id in sessions <==> id in old(sessions) && Session(id) !in keys[..k]
        invariant forall id :: id in replies <==> id in old(replies) && Reply(id) !in keys[..k]
        invariant forall id :: id in streams ==> streams[id] == old(streams)[id]
        invariant forall id :: id in sessions ==> sessions[id] == old(sessions)[id]
        invariant forall id :: id in replies ==> replies[id] == old(replies)[id]
      {
        match keys[k]
        case Stream(id) => streams := streams - {id};
        case Session(id) => sessions := sessions - {id};
        case Reply(id) => replies := replies - {id};
        assert keys[..k + 1] == keys[..k] + [keys[k]];
      }
      assert keys[..|keys|] == keys;
    }
  }

  datatype Outcome = Received(frame: Frame) | ClosedError | TimedOut

  class Subscription {
    const router: SharedRouter
    const channel: Channel
    var keys: seq<Key>
    ghost var taken: seq<Frame>

    /** Nothing is lost between the two ends, and a closed router holds no way in. */
    ghost predicate Valid()
      reads this, router, channel
    {
      channel.sent == taken + channel.frames
      && (router.flag ==> router.closed)
      && (router.closed ==> channel !in router.Channels())
    }

    /** A subscription to a stream of a router that is still open. */
    constructor (router: SharedRouter, id: Id)
      requires !router.closed && !router.flag
      modifies router`streams
      ensures this.router == router && fresh(channel) && Valid() && taken == []
      ensures router.streams == old(router.streams)[id := channel] && keys == [Stream(id)]
    {
      var c := new Channel();
      this.router, channel, keys, taken := router, c, [Stream(id)], [];
      router.streams := router.streams[id := c];
    }

    method Correlate(message: Id)
      requires Valid()
      modifies this`keys, router`replies
      ensures Valid()
      ensures router.replies == if router.closed then old(router.replies) else old(router.replies)[message := channel]
      ensures keys == if router.closed then old(keys) else old(keys) + [Reply(message)]
    {
      if router.closed {
        return;
      }
      router.replies := router.replies[message := channel];
      keys := keys + [Reply(message)];
    }

    /** A frame arrives, for this subscription or for another. */
    method Arrives(frame: Frame)
      requires Valid()
      modifies router`handshake, router.Channels(), channel
      ensures Valid() && router.Channels() == old(router.Channels())
      ensures old(channel.frames) <= channel.frames
      ensures old(router.closed) ==> channel.frames == old(channel.frames)
    {
      router.Dispatch(frame);
    }

    /** What other tasks may do meanwhile: dispatch, close, set the flag of a closed router. */
    method Others()
      requires Valid()
      modifies router, router.Channels(), channel
      ensures Valid()
      ensures router.Channels() <= old(router.Channels())
      ensures old(channel.frames) <= channel.frames
      ensures old(router.flag) ==> router.flag
      ensures old(router.closed) ==> router.closed && channel.frames == old(channel.frames)
    {
      var closes: bool, announces: bool, dispatches: bool := *, *, *;
      if dispatches {
        var frame: Frame := *;
        Arrives(frame);
      }
      if closes {
        router.CloseState();
      }
      if announces && router.closed {
        router.flag := true;
      }
    }

    method TryReceive() returns (r: Option<Frame>)
      requires Valid()
      modifies channel`frames, this`taken
      ensures Valid()
      ensures old(channel.frames) == [] ==> r == None && channel.frames == [] && taken == old(taken)
      ensures old(channel.frames) != [] ==> r == Some(old(channel.frames)[0]) && taken == old(taken) + [r.value]
    {
      if channel.frames == [] {
        return None;
      }
      r := Some(channel.frames[0]);
      taken := taken + [channel.frames[0]];
      channel.frames := channel.frames[1..];
    }

    /** The next frame; or the closed error, and then everything ever sent has been taken and
        no channel leads here any more; or a time-out after `patience` wake-ups. */
    method Next(patience: nat) returns (r: Outcome)
      requires Valid()
      modifies this`taken, router, router.Channels(), channel
      ensures Valid()
      ensures r.Received? ==> taken == old(taken) + [r.frame]
      ensures !r.Received? ==> taken == old(taken)
      ensures r.ClosedError? ==> router.closed && channel.sent == taken && channel !in router.Channels()
    {
      var left := patience;
      while true
        invariant Valid() && taken == old(taken) && router.Channels() <= old(router.Channels())
        decreases left
      {
        var first := TryReceive();
        if first.Some? {
          return Received(first.value);
        }
        Others();
        if router.flag {
          Others();
          var second := TryReceive();
          if second.Some? {
            return Received(second.value);
          }
          Others();
          return ClosedError;
        }
        Others();
        if left == 0 {
          return TimedOut;
        }
        left := left - 1;
        // Whichever is ready first: a frame, or a change of the flag.
        var received: bool := *;
        if received {
          var third := TryReceive();
          if third.Some? {
            return Received(third.value);
          }
        }
      }
    }
  }
}
