/** The frame router of the Rust client as steps of several tasks: the reader dispatches,
    closers close in two steps, and each consumer polls its queue and looks at the closed
    flag at different moments. */
module RustRouter {
  import opened Options

  type Id = string

  datatype Frame = Frame(replyTo: Option<Id>, streamId: Option<Id>, sessionId: Option<Id>, body: int)

  /** Where a consumer stands in a call of `next`: at the top of its loop, after an empty
      poll, after seeing the closed flag, or waiting. */
  datatype Place = Top | Polled | SawClosed | Waiting

  /** `queue` is what is waiting; `dispatched` and `taken` are all frames that ever went in
      and came out; `failed` says that some call has returned the closed error; `early` that
      the router was still open at the registration. */
  datatype Subscriber = Subscriber(
    queue: seq<Frame>, dispatched: seq<Frame>, taken: seq<Frame>,
    place: Place, failed: bool, keys: set<Key>, early: bool)

  datatype Key = Stream(id: Id) | Session(id: Id) | Reply(id: Id)

  /** `closing` counts the closers that have closed the state but not yet set the flag. */
  datatype Router = Router(
    handshake: bool, routes: map<Key, nat>, closed: bool, flag: bool, closing: nat,
    subscribers: seq<Subscriber>)

  datatype Step =
    | Dispatch(frame: Frame)
    | Close | Announce
    | SubscribeStream(id: Id) | SubscribeSession(id: Id)
    | Correlate(who: nat, message: Id) | Uncorrelate(who: nat, message: Id)
    | Drop(who: nat)
    | Poll(who: nat) | Check(who: nat) | PollAgain(who: nat)
    | Wake(who: nat) | Notice(who: nat) | TimeOut(who: nat)
    | Drain(who: nat)

  const START := Router(true, map[], false, false, 0, [])

  function NewSubscriber(keys: set<Key>, early: bool): Subscriber {
    Subscriber([], [], [], Top, false, keys, early)
  }

  // ---------- the router, each call under its lock

  function RouteOf(routes: map<Key, nat>, frame: Frame): Option<nat> {
    if frame.replyTo.Some? && Reply(frame.replyTo.value) in routes then Some(routes[Reply(frame.replyTo.value)])
    else if frame.streamId.Some? && Stream(frame.streamId.value) in routes then Some(routes[Stream(frame.streamId.value)])
    else if frame.sessionId.Some? && Session(frame.sessionId.value) in routes then Some(routes[Session(frame.sessionId.value)])
    else None
  }

  function Enqueue(u: Subscriber, frame: Frame): Subscriber {
    u.(queue := u.queue + [frame], dispatched := u.dispatched + [frame])
  }

  function Dispatched(r: Router, frame: Frame): Router {
    if r.handshake then r.(handshake := false)
    else
      match RouteOf(r.routes, frame)
      case None => r
      case Some(i) =>
        if i < |r.subscribers| then r.(subscribers := r.subscribers[i := Enqueue(r.subscribers[i], frame)]) else r
  }

  function Closed(r: Router): Router {
    r.(closed := true, handshake := false, routes := map[], closing := r.closing + 1)
  }

  /** A stream route goes to the newest subscriber, a session route to the first. The router
      is not asked whether it is closed. */
  function Subscribed(r: Router, key: Key): Router {
    var n := |r.subscribers|;
    if key.Session? && key in r.routes then r.(subscribers := r.subscribers + [NewSubscriber({}, !r.closed)])
    else r.(routes := r.routes[key := n], subscribers := r.subscribers + [NewSubscriber({key}, !r.closed)])
  }

  function Correlated(r: Router, i: nat, message: Id): Router
    requires i < |r.subscribers|
  {
    if r.closed then r
    else
      r.(routes := r.routes[Reply(message) := i],
         subscribers := r.subscribers[i := r.subscribers[i].(keys := r.subscribers[i].keys + {Reply(message)})])
  }

  /** Keys are taken out whoever holds them by now. */
  function Unregistered(r: Router, keys: set<Key>): Router {
    r.(routes := r.routes - keys)
  }

  // ---------- one consumer

  function TakeOne(u: Subscriber): Subscriber
    requires u.queue != []
  {
    u.(queue := u.queue[1..], taken := u.taken + [u.queue[0]], place := Top)
  }

  function Consume(u: Subscriber, step: Step, flag: bool): Subscriber
    requires step.Poll? || step.Check? || step.PollAgain? || step.Wake? || step.Notice? || step.TimeOut? || step.Drain?
  {
    match step
    case Poll(_) => if u.queue != [] then TakeOne(u) else u.(place := Polled)
    case Check(_) => u.(place := if flag then SawClosed else Waiting)
    case PollAgain(_) => if u.queue != [] then TakeOne(u) else u.(place := Top, failed := true)
    case Wake(_) => if u.queue != [] then TakeOne(u) else u
    case Notice(_) => if flag then u.(place := Top) else u
    case TimeOut(_) => u.(place := Top)
    case Drain(_) => u.(taken := u.taken + u.queue, queue := [])
  }

  predicate Enabled(r: Router, step: Step) {
    match step
    case Announce => r.closing > 0
    case Correlate(i, _) => i < |r.subscribers|
    case Uncorrelate(i, _) => i < |r.subscribers|
    case Drop(i) => i < |r.subscribers|
    case Poll(i) => i < |r.subscribers| && r.subscribers[i].place.Top?
    case Check(i) => i < |r.subscribers| && r.subscribers[i].place.Polled?
    case PollAgain(i) => i < |r.subscribers| && r.subscribers[i].place.SawClosed?
    case Wake(i) => i < |r.subscribers| && r.subscribers[i].place.Waiting?
    case Notice(i) => i < |r.subscribers| && r.subscribers[i].place.Waiting?
    case TimeOut(i) => i < |r.subscribers| && r.subscribers[i].place.Waiting?
    case Drain(i) => i < |r.subscribers| && r.subscribers[i].place.Top?
    case _ => true
  }

  function Next(r: Router, step: Step): Router
    requires Enabled(r, step)
  {
    match step
    case Dispatch(frame) => Dispatched(r, frame)
    case Close => Closed(r)
    case Announce => r.(flag := true, closing := r.closing - 1)
    case SubscribeStream(id) => Subscribed(r, Stream(id))
    case SubscribeSession(id) => Subscribed(r, Session(id))
    case Correlate(i, message) => Correlated(r, i, message)
    case Uncorrelate(i, message) =>
      Unregistered(r, {Reply(message)}).(subscribers :=
        r.subscribers[i := r.subscribers[i].(keys := r.subscribers[i].keys - {Reply(message)})])
    case Drop(i) => Unregistered(r, r.subscribers[i].keys)
    case _ => r.(subscribers := r.subscribers[step.who := Consume(r.subscribers[step.who], step, r.flag)])
  }

  /** The router after the steps; a step that is not possible is skipped. */
  function Run(r: Router, steps: seq<Step>): Router
    decreases |steps|
  {
    if steps == [] then r
    else Run(if Enabled(r, steps[0]) then Next(r, steps[0]) else r, steps[1..])
  }

  // ---------- what every step keeps

  predicate Routed(r: Router, i: nat) {
    exists key :: key in r.routes && r.routes[key] == i
  }

  /** Nothing is lost or reordered between the two ends of the queue, and the closed flag was
      really up. */
  predicate SubscriberInv(u: Subscriber, flag: bool) {
    u.dispatched == u.taken + u.queue && (u.place.SawClosed? || u.failed ==> flag)
  }

  /** The reason the closed error is final: the closed router routes nothing to those who
      registered before, so a queue once found empty stays empty. */
  predicate EarlyInv(r: Router, i: nat)
    requires i < |r.subscribers|
  {
    r.subscribers[i].early && r.closed ==>
      !Routed(r, i) && (r.subscribers[i].failed ==> r.subscribers[i].queue == [])
  }

  predicate Inv(r: Router) {
    (r.flag ==> r.closed) && (r.closing > 0 ==> r.closed)
    && (r.closed ==> !r.handshake && (r.flag || r.closing > 0))
    && (forall key :: key in r.routes ==> r.routes[key] < |r.subscribers|)
    && (forall i :: 0 <= i < |r.subscribers| ==> SubscriberInv(r.subscribers[i], r.flag))
    && (forall i :: 0 <= i < |r.subscribers| ==> EarlyInv(r, i))
  }

  predicate Consumes(step: Step) {
    step.Poll? || step.Check? || step.PollAgain? || step.Wake? || step.Notice? || step.TimeOut? || step.Drain?
  }

  lemma ConsumeKeeps(u: Subscriber, step: Step, flag: bool)
    requires Consumes(step) && SubscriberInv(u, flag) && (step.PollAgain? ==> u.place.SawClosed?)
    ensures SubscriberInv(Consume(u, step, flag), flag)
    ensures Consume(u, step, flag).early == u.early
    ensures (u.failed ==> u.queue == []) ==> (Consume(u, step, flag).failed ==> Consume(u, step, flag).queue == [])
  {
  }

  lemma ConsumeStepKeepsInv(r: Router, step: Step)
    requires Inv(r) && Enabled(r, step) && Consumes(step)
    ensures Inv(Next(r, step))
  {
    var t := Next(r, step);
    ConsumeKeeps(r.subscribers[step.who], step, r.flag);
    forall i | 0 <= i < |t.subscribers| ensures EarlyInv(t, i) {
      assert EarlyInv(r, i) && (Routed(t, i) ==> Routed(r, i));
    }
  }

  lemma DispatchKeepsInv(r: Router, frame: Frame)
    requires Inv(r)
    ensures Inv(Dispatched(r, frame))
  {
    var t, route := Dispatched(r, frame), RouteOf(r.routes, frame);
    if !r.handshake && route.Some? {
      var u := r.subscribers[route.value];
      assert Routed(r, route.value);
      assert u.dispatched + [frame] == u.taken + (u.queue + [frame]);
    }
    forall i | 0 <= i < |t.subscribers| ensures EarlyInv(t, i) {
      assert EarlyInv(r, i) && (Routed(t, i) ==> Routed(r, i));
    }
  }

  lemma SubscribeKeepsInv(r: Router, key: Key)
    requires Inv(r)
    ensures Inv(Subscribed(r, key))
  {
    var t := Subscribed(r, key);
    forall i | 0 <= i < |t.subscribers| ensures EarlyInv(t, i) && SubscriberInv(t.subscribers[i], t.flag) {
      if i < |r.subscribers| {
        assert EarlyInv(r, i) && (Routed(t, i) ==> Routed(r, i));
      }
    }
  }

  lemma CorrelateKeepsInv(r: Router, i: nat, message: Id)
    requires Inv(r) && i < |r.subscribers|
    ensures Inv(Correlated(r, i, message))
  {
  }

  lemma CloseKeepsInv(r: Router, step: Step)
    requires Inv(r) && Enabled(r, step) && (step.Close? || step.Announce?)
    ensures Inv(Next(r, step))
  {
    var t := Next(r, step);
    forall i | 0 <= i < |t.subscribers| ensures EarlyInv(t, i) {
      assert EarlyInv(r, i) && SubscriberInv(r.subscribers[i], r.flag) && (Routed(t, i) ==> Routed(r, i));
    }
  }

  lemma UnregisterKeepsInv(r: Router, step: Step)
    requires Inv(r) && Enabled(r, step) && (step.Drop? || step.Uncorrelate?)
    ensures Inv(Next(r, step))
  {
    var t := Next(r, step);
    forall i | 0 <= i < |t.subscribers| ensures EarlyInv(t, i) && SubscriberInv(t.subscribers[i], t.flag) {
      assert EarlyInv(r, i) && (Routed(t, i) ==> Routed(r, i));
    }
  }

  lemma StepKeepsInv(r: Router, step: Step)
    requires Inv(r) && Enabled(r, step)
    ensures Inv(Next(r, step))
  {
    match step
    case Dispatch(frame) => DispatchKeepsInv(r, frame);
    case Close => CloseKeepsInv(r, step);
    case Announce => CloseKeepsInv(r, step);
    case SubscribeStream(id) => SubscribeKeepsInv(r, Stream(id));
    case SubscribeSession(id) => SubscribeKeepsInv(r, Session(id));
    case Correlate(i, message) => CorrelateKeepsInv(r, i, message);
    case Uncorrelate(_, _) => UnregisterKeepsInv(r, step);
    case Drop(_) => UnregisterKeepsInv(r, step);
    case _ => ConsumeStepKeepsInv(r, step);
  }

  lemma {:induction false} RunKeepsInv(r: Router, steps: seq<Step>)
    requires Inv(r)
    ensures Inv(Run(r, steps))
    decreases |steps|
  {
    if steps != [] {
      if Enabled(r, steps[0]) {
        StepKeepsInv(r, steps[0]);
      }
      RunKeepsInv(if Enabled(r, steps[0]) then Next(r, steps[0]) else r, steps[1..]);
    }
  }

  // ---------- the closed error

  /** Once a call has returned the closed error, everything ever dispatched has come out. */
  predicate ErrorIsFinal(u: Subscriber) {
    u.failed ==> u.taken == u.dispatched
  }

  /** In every run, for everyone who registered before the router closed. */
  lemma ErrorComesLast(steps: seq<Step>, i: nat)
    requires i < |Run(START, steps).subscribers|
    ensures var u := Run(START, steps).subscribers[i];
            u.taken <= u.dispatched && (u.early ==> ErrorIsFinal(u))
  {
    RunKeepsInv(START, steps);
    var r := Run(START, steps);
    assert EarlyInv(r, i) && SubscriberInv(r.subscribers[i], r.flag);
  }

  lemma ClosedRoutesNothing(r: Router, i: nat, step: Step)
    requires r.closed && i < |r.subscribers| && !Routed(r, i) && r.subscribers[i].dispatched == []
    requires Enabled(r, step)
    ensures var t := Next(r, step);
            t.closed && i < |t.subscribers| && !Routed(t, i) && t.subscribers[i].dispatched == []
  {
    var t := Next(r, step);
    if step.Dispatch? {
      var route := RouteOf(r.routes, step.frame);
      assert route.Some? ==> Routed(r, route.value);
    }
    forall key | key in t.routes ensures t.routes[key] != i {
      assert key in r.routes ==> r.routes[key] != i;
    }
  }

  lemma {:induction false} ClosedRunRoutesNothing(r: Router, i: nat, steps: seq<Step>)
    requires r.closed && i < |r.subscribers| && !Routed(r, i) && r.subscribers[i].dispatched == []
    ensures i < |Run(r, steps).subscribers| && Run(r, steps).subscribers[i].dispatched == []
    decreases |steps|
  {
    if steps != [] {
      if Enabled(r, steps[0]) {
        ClosedRoutesNothing(r, i, steps[0]);
      }
      ClosedRunRoutesNothing(if Enabled(r, steps[0]) then Next(r, steps[0]) else r, i, steps[1..]);
    }
  }

  lemma {:induction false} EarlyStaysEarly(r: Router, i: nat, steps: seq<Step>)
    requires i < |r.subscribers|
    ensures i < |Run(r, steps).subscribers| && Run(r, steps).subscribers[i].early == r.subscribers[i].early
    decreases |steps|
  {
    if steps != [] {
      EarlyStaysEarly(if Enabled(r, steps[0]) then Next(r, steps[0]) else r, i, steps[1..]);
    }
  }

  /** A late route: the flag is up, the queue is empty, the call fails, and then the reader
      still dispatches to it. */
  function LateRun(r: Router, key: Key): seq<Step> {
    var i, frame := |r.subscribers|, if key.Stream? then Frame(None, Some(key.id), None, 0) else Frame(None, None, Some(key.id), 0);
    [Announce, Poll(i), Check(i), PollAgain(i), Dispatch(frame)]
  }

  lemma LateRouteFails(r: Router, key: Key)
    requires Inv(r) && r.closed && !key.Reply? && (key.Session? ==> key !in r.routes)
    ensures var t := Run(Subscribed(r, key), LateRun(r, key));
            |r.subscribers| < |t.subscribers| && !ErrorIsFinal(t.subscribers[|r.subscribers|])
  {
    var i, steps, s := |r.subscribers|, LateRun(r, key), Subscribed(r, key);
    var r1 := if s.closing > 0 then s.(flag := true, closing := s.closing - 1) else s;
    assert steps[1..] == [Poll(i), Check(i), PollAgain(i), steps[4]];
    assert steps[1..][1..] == [Check(i), PollAgain(i), steps[4]];
    assert steps[1..][1..][1..] == [PollAgain(i), steps[4]];
    assert steps[1..][1..][1..][1..] == [steps[4]];
    assert steps[1..][1..][1..][1..][1..] == [];
    assert Run(s, steps) == Run(r1, steps[1..]);
    var r2 := Next(r1, Poll(i));
    assert Run(r1, steps[1..]) == Run(r2, steps[1..][1..]);
    var r3 := Next(r2, Check(i));
    assert r3.subscribers[i].place == SawClosed;
    var r4 := Next(r3, PollAgain(i));
    assert Run(r2, steps[1..][1..]) == Run(r4, steps[1..][1..][1..][1..]);
    assert r4.subscribers[i].failed && r4.routes == s.routes;
    assert RouteOf(r4.routes, steps[4].frame) == Some(i);
    assert Run(r4, [steps[4]]) == Dispatched(r4, steps[4].frame);
  }

  /** Whatever happens after a registration, its closed error comes last: exactly if the
      router was open at the registration, or the registration got no route. */
  lemma ErrorIsFinalIff(before: seq<Step>, key: Key)
    requires !key.Reply?
    ensures var r := Run(START, before);
            (forall steps ::
               var t := Run(Subscribed(r, key), steps);
               |r.subscribers| < |t.subscribers| ==> ErrorIsFinal(t.subscribers[|r.subscribers|]))
            <==> (!r.closed || (key.Session? && key in r.routes))
  {
    RunKeepsInv(START, before);
    var r := Run(START, before);
    var s, i := Subscribed(r, key), |r.subscribers|;
    var step := if key.Stream? then SubscribeStream(key.id) else SubscribeSession(key.id);
    StepKeepsInv(r, step);
    if !r.closed || (key.Session? && key in r.routes) {
      forall steps ensures i < |Run(s, steps).subscribers| && ErrorIsFinal(Run(s, steps).subscribers[i]) {
        RunKeepsInv(s, steps);
        EarlyStaysEarly(s, i, steps);
        var t := Run(s, steps);
        assert EarlyInv(t, i) && SubscriberInv(t.subscribers[i], t.flag);
        if r.closed {
          ClosedRunRoutesNothing(s, i, steps);
        }
      }
    } else {
      LateRouteFails(r, key);
    }
  }
}
