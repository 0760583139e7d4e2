/** The Go transport's routing tables and bounded queues, edited in place. */
module GoTransport {
  import opened Options
  import opened Routes

  type Id = string

  /** An absent id is the empty string. */
  datatype Frame = Frame(inReplyTo: Id, streamId: Id, sessionId: Id, started: bool, body: int)

  datatype Kind = Stream | Session

  /** `arrived` is every frame delivered to the subscription while it was open, `dropped`
      how many of them found the queue full, `taken` what has been read. */
  class Subscription {
    const kind: Kind
    const id: Id
    const capacity: nat
    var queue: seq<Frame>
    var overflow: bool
    var closed: bool
    ghost var arrived: seq<Frame>
    ghost var dropped: nat
    ghost var taken: seq<Frame>

    ghost predicate Valid()
      reads this
    {
      capacity > 0 && |queue| <= capacity && (overflow <==> dropped > 0)
      && |arrived| == |taken| + |queue| + dropped
      && (dropped == 0 ==> arrived == taken + queue)
    }

    constructor (kind: Kind, id: Id, capacity: nat)
      requires capacity > 0
      ensures Valid() && this.kind == kind && this.id == id && this.capacity == capacity
      ensures queue == arrived == taken == [] && !closed && !overflow
    {
      this.kind, this.id, this.capacity := kind, id, capacity;
      queue, overflow, closed, arrived, dropped, taken := [], false, false, [], 0, [];
    }

    method Deliver(f: Frame)
      requires Valid()
      modifies `queue, `overflow, `arrived, `dropped
      ensures Valid()
      ensures old(overflow) ==> overflow
      ensures closed ==> queue == old(queue) && overflow == old(overflow)
      ensures !closed && |old(queue)| < capacity ==> queue == old(queue) + [f] && overflow == old(overflow)
      ensures !closed && |old(queue)| == capacity ==> queue == old(queue) && overflow
      ensures arrived == old(arrived) + if closed then [] else [f]
    {
      if closed {
        return;
      }
      if |queue| < capacity {
        queue := queue + [f];
      } else {
        overflow := true;
        dropped := dropped + 1;
      }
      arrived := arrived + [f];
    }

    method TryReceive() returns (r: Option<Frame>)
      requires Valid()
      modifies `queue, `taken
      ensures Valid()
      ensures old(queue) == [] ==> r == None && queue == [] && taken == old(taken)
      ensures old(queue) != [] ==>
                r == Some(old(queue)[0]) && queue == old(queue)[1..] && taken == old(taken) + [r.value]
    {
      if queue == [] {
        return None;
      }
      r := Some(queue[0]);
      taken := taken + [queue[0]];
      queue := queue[1..];
    }
  }

  datatype Outcome = Received(frame: Frame) | Overflowed | TimedOut | Terminal

  class GoTransport {
    var streams: map<Id, seq<Subscription>>
    var sessions: map<Id, seq<Subscription>>
    var correlates: map<Id, Subscription>
    var done: bool

    /** A table lists each open subscription of its kind once, under its own id. */
    ghost predicate TableOk(table: map<Id, seq<Subscription>>, kind: Kind) {
      forall id :: id in table ==>
        table[id] != [] && Distinct(table[id])
        && forall k :: 0 <= k < |table[id]| ==> table[id][k].kind == kind && table[id][k].id == id
    }

    ghost predicate Valid()
      reads this
    {
      TableOk(streams, Stream) && TableOk(sessions, Session)
    }

    function RouteAt(table: map<Id, seq<Subscription>>, id: Id): seq<Subscription> {
      if id in table then table[id] else []
    }

    /** No table leads to the subscription. */
    ghost predicate Unreachable(sub: Subscription)
      reads this
    {
      (forall id :: id in streams ==> sub !in streams[id])
      && (forall id :: id in sessions ==> sub !in sessions[id])
      && (forall message :: message in correlates ==> correlates[message] != sub)
    }

    constructor ()
      ensures Valid() && streams == sessions == map[] && correlates == map[] && !done
    {
      streams, sessions, correlates, done := map[], map[], map[], false;
    }

    method Subscribe(kind: Kind, id: Id, capacity: nat) returns (sub: Subscription)
      requires Valid() && capacity > 0
      modifies `streams, `sessions
      ensures Valid() && fresh(sub) && sub.Valid() && sub.kind == kind && sub.id == id && sub.queue == []
      ensures streams == if kind.Stream? then old(streams)[id := RouteAt(old(streams), id) + [sub]] else old(streams)
      ensures sessions == if kind.Session? then old(sessions)[id := RouteAt(old(sessions), id) + [sub]] else old(sessions)
    {
      sub := new Subscription(kind, id, capacity);
      if kind.Stream? {
        streams := streams[id := RouteAt(streams, id) + [sub]];
      } else {
        sessions := sessions[id := RouteAt(sessions, id) + [sub]];
      }
    }

    method Correlate(sub: Subscription, message: Id)
      modifies `correlates
      ensures correlates == if message == "" then old(correlates) else old(correlates)[message := sub]
    {
      if message == "" {
        return;
      }
      correlates := correlates[message := sub];
    }

    method Uncorrelate(sub: Subscription, message: Id)
      modifies `correlates
      ensures correlates == if message in old(correlates) && message != "" && old(correlates)[message] == sub
                            then old(correlates) - {message} else old(correlates)
    {
      if message == "" {
        return;
      }
      if message in correlates && correlates[message] == sub {
        correlates := correlates - {message};
      }
    }

    /** The route of a subscription without it; an empty route is taken out of its table. */
    method RemoveFrom(route: seq<Subscription>, sub: Subscription) returns (left: seq<Subscription>)
      ensures left == Without(route, sub)
    {
      left := route;
      for i := 0 to |route|
        invariant left == route && sub !in route[..i]
      {
        if route[i] == sub {
          assert IndexOf(route, sub) == i by {
            assert route[IndexOf(route, sub)] == sub;
          }
          left := route[..i] + route[i + 1..];
          return;
        }
      }
    }

    method DropRoute(sub: Subscription)
      requires Valid()
      modifies `streams, `sessions
      ensures Valid()
      ensures (forall id :: id in streams ==> sub !in streams[id]) && (forall id :: id in sessions ==> sub !in sessions[id])
      ensures streams == if sub.kind.Stream?
                         then SetRoute(old(streams), sub.id, Without(RouteAt(old(streams), sub.id), sub)) else old(streams)
      ensures sessions == if sub.kind.Session?
                          then SetRoute(old(sessions), sub.id, Without(RouteAt(old(sessions), sub.id), sub)) else old(sessions)
    {
      if sub.kind.Stream? {
        RouteGone(streams, Stream, sub);
        var left := RemoveFrom(RouteAt(streams, sub.id), sub);
        if left == [] {
          streams := streams - {sub.id};
        } else {
          streams := streams[sub.id := left];
        }
      } else {
        RouteGone(sessions, Session, sub);
        var left := RemoveFrom(RouteAt(sessions, sub.id), sub);
        if left == [] {
          sessions := sessions - {sub.id};
        } else {
          sessions := sessions[sub.id := left];
        }
      }
    }

    method DropCorrelations(sub: Subscription)
      modifies `correlates
      ensures correlates == map message | message in old(correlates) && old(correlates)[message] != sub :: old(correlates)[message]
    {
      var messages := correlates.Keys;
      while messages != {}
        invariant messages <= old(correlates).Keys
        invariant correlates ==
          map message | message in old(correlates) && (message in messages || old(correlates)[message] != sub) :: old(correlates)[message]
        decreases |messages|
      {
        var message :| message in messages;
        if correlates[message] == sub {
          correlates := correlates - {message};
        }
        messages := messages - {message};
      }
    }

    /** Takes the subscription off its route and drops its correlations, and nothing else. */
    method Unsubscribe(sub: Subscription)
      requires Valid()
      modifies `streams, `sessions, `correlates
      ensures Valid() && Unreachable(sub)
      ensures streams == if sub.kind.Stream?
                         then SetRoute(old(streams), sub.id, Without(RouteAt(old(streams), sub.id), sub)) else old(streams)
      ensures sessions == if sub.kind.Session?
                          then SetRoute(old(sessions), sub.id, Without(RouteAt(old(sessions), sub.id), sub)) else old(sessions)
      ensures correlates == map message | message in old(correlates) && old(correlates)[message] != sub :: old(correlates)[message]
    {
      DropRoute(sub);
      DropCorrelations(sub);
    }

    lemma RouteGone(table: map<Id, seq<Subscription>>, kind: Kind, sub: Subscription)
      requires TableOk(table, kind) && sub.kind == kind
      ensures
        var left := SetRoute(table, sub.id, Without(RouteAt(table, sub.id), sub));
        TableOk(left, kind) && forall id :: id in left ==> sub !in left[id]
    {
      if sub.id in table {
        WithoutMembers(table[sub.id], sub);
      }
    }

    // ---------- dispatch

    /** A reply goes to its request's subscription, everything else to the head of its route. */
    function Target(f: Frame): Option<Subscription>
      reads this
    {
      if f.inReplyTo != "" && f.inReplyTo in correlates then Some(correlates[f.inReplyTo])
      else if f.streamId != "" && RouteAt(streams, f.streamId) != [] then Some(RouteAt(streams, f.streamId)[0])
      else if f.sessionId != "" && RouteAt(sessions, f.sessionId) != [] then Some(RouteAt(sessions, f.sessionId)[0])
      else None
    }

    method PromoteSession(id: Id, sub: Subscription)
      requires Valid()
      modifies `sessions
      ensures Valid()
      ensures sessions == if id in old(sessions) then old(sessions)[id := Promoted(old(sessions)[id], sub)] else old(sessions)
    {
      if id !in sessions {
        return;
      }
      var subs := sessions[id];
      for i := 0 to |subs|
        invariant sub !in subs[..i] && sessions == old(sessions)
      {
        if subs[i] == sub {
          assert IndexOf(subs, sub) == i by {
            assert subs[IndexOf(subs, sub)] == sub;
          }
          PromotionKeepsOrder(subs, sub);
          sessions := sessions[id := [sub] + subs[..i] + subs[i + 1..]];
          assert [sub] + subs[..i] + subs[i + 1..] == Promoted(subs, sub);
          return;
        }
      }
      assert subs[..|subs|] == subs;
    }

    /** One subscription gets the frame, or none; an acknowledged start also puts its
        subscription at the head of the session's route. */
    method Dispatch(f: Frame)
      requires Valid() && (Target(f).Some? ==> Target(f).value.Valid())
      modifies `sessions, if Target(f).Some? then {Target(f).value} else {}
      ensures Valid()
      ensures old(Target(f)).Some? ==>
                var sub := old(Target(f)).value;
                sub.Valid() && sub.taken == old(sub.taken)
                && sub.arrived == old(sub.arrived) + (if sub.closed then [] else [f])
      ensures sessions ==
                if old(Target(f)).Some? && f.started && f.sessionId != "" && f.sessionId in old(sessions)
                then old(sessions)[f.sessionId := Promoted(old(sessions)[f.sessionId], old(Target(f)).value)]
                else old(sessions)
    {
      var target: Subscription? := null;
      if f.inReplyTo != "" && f.inReplyTo in correlates {
        target := correlates[f.inReplyTo];
      }
      if target == null && f.streamId != "" && RouteAt(streams, f.streamId) != [] {
        target := RouteAt(streams, f.streamId)[0];
      }
      if target == null && f.sessionId != "" && RouteAt(sessions, f.sessionId) != [] {
        target := RouteAt(sessions, f.sessionId)[0];
      }
      if target == null {
        return;
      }
      assert Target(f) == Some(target);
      if f.sessionId != "" && f.started {
        PromoteSession(f.sessionId, target);
      }
      target.Deliver(f);
    }

    // ---------- reading

    /** What the reader may do meanwhile: deliver frames, or end. */
    method Others(sub: Subscription)
      requires sub.Valid()
      modifies `done, sub`queue, sub`overflow, sub`arrived, sub`dropped
      ensures sub.Valid() && (old(done) ==> done && sub.queue == old(sub.queue) && sub.overflow == old(sub.overflow))
      ensures sub.overflow && !old(sub.overflow) ==> sub.queue != []
      ensures old(sub.queue) <= sub.queue && (old(sub.overflow) ==> sub.overflow)
    {
      var more: nat := *;
      while more > 0
        invariant sub.Valid() && done == old(done)
        invariant old(done) ==> sub.queue == old(sub.queue) && sub.overflow == old(sub.overflow)
        invariant sub.overflow && !old(sub.overflow) ==> sub.queue != []
        invariant old(sub.queue) <= sub.queue && (old(sub.overflow) ==> sub.overflow)
        decreases more
      {
        if !done {
          var f: Frame := *;
          sub.Deliver(f);
        }
        more := more - 1;
      }
      var ends: bool := *;
      if ends {
        done := true;
      }
    }

    /** The next frame; or the overflow, when some frame was dropped; or the end of the
        transport, and then nothing was dropped and everything delivered has been read. */
    method Next(sub: Subscription, patience: nat) returns (r: Outcome)
      requires sub.Valid()
      modifies `done, sub`queue, sub`overflow, sub`arrived, sub`dropped, sub`taken
      ensures sub.Valid()
      ensures sub.taken == old(sub.taken) + if r.Received? then [r.frame] else []
      ensures r.Overflowed? ==> sub.dropped > 0
      ensures r.Terminal? ==> done && sub.arrived == sub.taken
      ensures old(sub.queue) != [] ==> r == Received(old(sub.queue)[0])
      ensures old(sub.queue) == [] && old(sub.overflow) ==> r.Overflowed?
    {
      var left := patience;
      while true
        invariant sub.Valid() && sub.taken == old(sub.taken) && old(sub.queue) <= sub.queue
        invariant old(done) ==> done && sub.queue == old(sub.queue) && sub.overflow == old(sub.overflow)
        invariant old(sub.queue) == [] && old(sub.overflow) ==> sub.queue == [] && sub.overflow
        decreases left
      {
        var first := sub.TryReceive();
        if first.Some? {
          return Received(first.value);
        }
        Others(sub);
        if sub.overflow {
          return Overflowed;
        }
        Others(sub);
        // The select: a frame, a wake-up, the time-out or the end, whichever is ready.
        var ready: nat := *;
        if ready == 0 {
          var second := sub.TryReceive();
          if second.Some? {
            return Received(second.value);
          }
        } else if ready == 1 && done {
          var last := sub.TryReceive();
          if last.Some? {
            return Received(last.value);
          }
          return Terminal;
        } else if ready == 2 {
          return TimedOut;
        }
        if left == 0 {
          return TimedOut;
        }
        left := left - 1;
      }
    }
  }
}
