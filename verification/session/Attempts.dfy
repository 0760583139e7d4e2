/** One attempt at an agent run, as the Rust and Go clients keep it, and how each reacts
    to a frame, to the end of the run and to being dropped. */
module Attempts {
  import opened Options
  import opened Protocol

  /** The client library. `Go(true)` is Go with one guard changed: before acceptance it
      takes only frames that name its own start, as Rust does. */
  datatype Client = Rust | Go(correlatedOnly: bool)

  /** How a teardown ended: its stop confirmed, its replies exhausted without one, out of
      time, sent without waiting, dropped, or withheld because the session is not ours. */
  datatype End = Confirmed | GaveUp | TimedOut | Unwaited | Dropped | Withheld

  /** A `Ready` attempt has subscribed and not yet sent its start, so it has no `startMsg`.
      `Probing(retry)` waits for the answer to the last stop; `retry` is the sequence to
      stop with should it come back as out of order. */
  datatype Phase = Ready | Running | Failed | Probing(retry: Option<nat>) | Done(end: End)

  datatype Attempt = Attempt(
    id: SessionId,
    generated: bool,           // the client made the id up itself
    ownsRoute: bool,           // Rust: no other subscription held the session's route
    startMsg: nat,
    messageMsg: Option<nat>,
    stops: seq<nat>,
    startAccepted: bool,
    startReplyObserved: bool,
    settled: bool,             // stopped already, or never to be stopped
    next: nat,
    unresolved: Option<nat>,
    phase: Phase,
    open: bool,                // the subscription is registered
    inbox: seq<nat>,           // positions in the runtime's log, oldest first
    misled: bool               // took an uncorrelated refusal for the answer to its start
  )

  datatype Send = SendMessage | SendStop(number: nat) | SendToolResult

  /** An attempt after a step, and what it sent. The first frame sent gets message id
      `msg`, the next one `msg + 1`. */
  datatype Reaction = Reaction(attempt: Attempt, sends: seq<Send>)

  function Subscribed(client: Client, id: SessionId, generated: bool, ownsRoute: bool): Attempt {
    Attempt(id, generated && ownsRoute, ownsRoute, 0, None, [], false, false,
            client.Rust?, 1, None, Ready, true, [], false)
  }

  /** The start goes out; in Rust that is what arms the guard. */
  function Begun(a: Attempt, msg: nat): Attempt {
    a.(startMsg := msg, next := 2, settled := a.settled && !a.ownsRoute, phase := Running)
  }

  predicate MayStop(a: Attempt) {
    !a.settled && (a.generated || a.startReplyObserved)
  }

  function Rollback(a: Attempt): Attempt {
    match a.unresolved
    case None => a
    case Some(n) => a.(next := n, unresolved := None)
  }

  function Accept(a: Attempt, msg: nat): Reaction {
    var b := a.(startAccepted := true, startReplyObserved := true);
    if b.messageMsg.Some? then Reaction(b, [])
    else Reaction(b.(messageMsg := Some(msg), next := 3, unresolved := Some(2)), [SendMessage])
  }

  /** Go fails on a frame it does not expect; Rust passes over it. */
  function TakeOutput(client: Client, a: Attempt, kind: OutputKind): Reaction {
    match kind
    case Silent => Reaction(a, [])
    case Unexpected => Reaction(if client.Go? then a.(phase := Failed) else a, [])
    case ToolExecute => Reaction(a.(unresolved := None), [SendToolResult])
    case _ => Reaction(a.(unresolved := None), [])
  }

  function CodeOf(f: Reply): Option<Code> {
    match f
    case Refused(_, _, code) => Some(code)
    case RunError(_, code, _) => Some(code)
    case _ => None
  }

  /** A refusal reaches a running attempt: a rejected message is rolled back, a busy id is
      given up, and the run has failed. */
  function TakeRefusal(a: Attempt, f: Reply, giveUpOnBusy: bool): Attempt {
    var b := if a.messageMsg.Some? && f.InReplyTo() == a.messageMsg then Rollback(a) else a;
    b.(settled := b.settled || (CodeOf(f) == Some(AgentBusy) && giveUpOnBusy), phase := Failed)
  }

  function RustObserve(a: Attempt, f: Reply, msg: nat): Reaction {
    if f.Acked? || f.Stopped? then Reaction(a, [])
    else if !a.startAccepted && f.InReplyTo() != Some(a.startMsg) then Reaction(a, [])
    else
      var b := if a.startAccepted then a else a.(startReplyObserved := true);
      match f
      case Started(_, _) => Accept(b, msg)
      case Refused(_, _, _) => Reaction(TakeRefusal(b, f, true), [])
      case RunError(_, _, _) => Reaction(TakeRefusal(b, f, true), [])
      case Output(_, kind, _) => TakeOutput(Rust, b, kind)
      case _ => Reaction(b, [])
  }

  function GoObserve(correlatedOnly: bool, a: Attempt, f: Reply, msg: nat): Reaction {
    match f
    case Acked(_, _) => Reaction(a, [])
    case Stopped(_, _) => Reaction(a, [])
    case Output(_, kind, _) =>
      if !a.startAccepted then Reaction(a, []) else TakeOutput(Go(correlatedOnly), a, kind)
    case Started(_, to) =>
      if to != a.startMsg then Reaction(a, []) else Accept(a, msg)
    case _ =>
      if !a.startAccepted && f.InReplyTo() != Some(a.startMsg)
         && (correlatedOnly || f.InReplyTo().Some?)
      then Reaction(a, [])
      else
        var b := a.(startReplyObserved := true,
                    misled := a.misled || (!a.startAccepted && f.InReplyTo().None?));
        Reaction(TakeRefusal(b, f, !a.startAccepted), [])
  }

  function Observe(client: Client, a: Attempt, f: Reply, msg: nat): Reaction {
    match client
    case Rust => RustObserve(a, f, msg)
    case Go(correlatedOnly) => GoObserve(correlatedOnly, a, f, msg)
  }

  /** Sends one stop if the attempt may stop its session at all. */
  function StopOnce(a: Attempt, number: nat, msg: nat, then_: Phase): Reaction {
    if MayStop(a)
    then Reaction(a.(settled := true, stops := a.stops + [msg], phase := then_), [SendStop(number)])
    else Reaction(a.(settled := true, phase := Done(Withheld)), [])
  }

  /** The waiting teardown: with the message unresolved the pre-send sequence goes first
      and the post-send one is kept for a retry. */
  function Teardown(client: Client, a: Attempt, probe: bool, msg: nat): Reaction {
    if client.Go? && (!probe || a.unresolved.None?) then
      StopOnce(a, a.next, msg, Done(Unwaited))
    else
      match a.unresolved
      case None => StopOnce(a, a.next, msg, Probing(None))
      case Some(pre) =>
        var retry := if client.Go? && pre == a.next then None else Some(a.next);
        StopOnce(a.(unresolved := None, next := pre), pre, msg, Probing(retry))
  }

  /** Rust's `finish_without_stop`: one stop, no waiting. */
  function Finish(a: Attempt, msg: nat): Reaction {
    StopOnce(a, a.next, msg, Done(Unwaited))
  }

  /** The frame is an answer to request `stop` as the client sees it: Go passes over replies
      that neither confirm nor refuse. */
  predicate Answers(client: Client, f: Reply, stop: nat) {
    f.InReplyTo() == Some(stop) && (client.Rust? || f.Stopped? || f.Refused?)
  }

  /** One frame read while the answer to the last stop is awaited. */
  function Probe(client: Client, a: Attempt, f: Reply, msg: nat): (r: Reaction)
    requires a.phase.Probing? && a.stops != []
    ensures r.attempt.stops != []
  {
    if !Answers(client, f, a.stops[|a.stops| - 1]) then Reaction(a, [])
    else if f.Stopped? then Reaction(a.(phase := Done(Confirmed)), [])
    else if CodeOf(f) == Some(InvalidRequest) && a.phase.retry.Some? then
      var post := a.phase.retry.value;
      Reaction(a.(next := post, stops := a.stops + [msg], phase := Probing(None)), [SendStop(post)])
    else Reaction(a.(phase := Done(GaveUp)), [])
  }

  /** Rust's `Drop`: it cannot wait, so an unresolved message means both candidates are
      sent, back to back. */
  function Drop(a: Attempt, msg: nat): Reaction {
    var closed := a.(open := false);
    if a.phase.Done? then Reaction(closed, [])
    else if !MayStop(a) then
      var next := if a.unresolved.Some? then a.unresolved.value else a.next;
      Reaction(closed.(settled := true, next := next, unresolved := None, phase := Done(Dropped)), [])
    else
      match a.unresolved
      case Some(pre) =>
        if pre != a.next
        then Reaction(closed.(settled := true, unresolved := None, stops := a.stops + [msg, msg + 1], phase := Done(Dropped)),
                      [SendStop(pre), SendStop(a.next)])
        else Reaction(closed.(settled := true, unresolved := None, stops := a.stops + [msg], phase := Done(Dropped)),
                      [SendStop(a.next)])
      case None =>
        Reaction(closed.(settled := true, stops := a.stops + [msg], phase := Done(Dropped)),
                 [SendStop(a.next)])
  }

  /** The message ids whose replies come straight to the attempt. */
  predicate Correlates(client: Client, a: Attempt, to: nat) {
    !a.phase.Ready? &&
    match client
    case Rust =>
      (to == a.startMsg && a.messageMsg.None?) || a.messageMsg == Some(to) || (a.phase.Probing? && to in a.stops)
    case Go(_) =>
      to == a.startMsg || a.messageMsg == Some(to)
  }

  /** The request that a send of attempt `i` puts on the wire. */
  function ToRequest(i: nat, id: SessionId, send: Send): Request {
    match send
    case SendMessage => Message(i, id, 2)
    case SendStop(number) => Stop(i, id, number)
    case SendToolResult => ToolResult(i, id)
  }

  function ToRequests(i: nat, id: SessionId, sends: seq<Send>): (qs: seq<Request>)
    ensures |qs| == |sends|
    ensures forall k :: 0 <= k < |qs| ==> qs[k] == ToRequest(i, id, sends[k])
  {
    seq(|sends|, k requires 0 <= k < |sends| => ToRequest(i, id, sends[k]))
  }

  /** The waiting part of a teardown: frames are read until an answer settles it or, with
      no frame left, its time is up. `sent` is the history of what went out. */
  function Await(client: Client, i: nat, a: Attempt, sent: seq<Request>, frames: seq<Reply>): (r: (Attempt, seq<Request>))
    requires a.phase.Probing? ==> a.stops != []
    decreases |frames|
  {
    if !a.phase.Probing? then (a, sent)
    else if frames == [] then (a.(phase := Done(TimedOut)), sent)
    else
      var reaction := Probe(client, a, frames[0], |sent|);
      Await(client, i, reaction.attempt, sent + ToRequests(i, a.id, reaction.sends), frames[1..])
  }
}
