/** The TypeScript client's session, updated in place. It reads from a queue that attempts on
    one session share, and until its start is accepted only the replies to that start; with
    such reads it reacts as the guarded attempt of the session system does. */
module TypeScriptSession {
  import opened Options
  import opened Protocol
  import opened Attempts
  import opened Outbound
  import opened Routes
  import opened TypeScriptProbe

  // ---------- the shared queues

  /** A frame an attempt may take from its session's queue: any if it waits on no reply, else a
      reply to the request it waits on or, unless it takes replies only, a frame that replies
      to nothing. */
  predicate Eligible(f: Reply, correlate: Option<nat>, repliesOnly: bool) {
    correlate.None? || f.InReplyTo() == correlate || (!repliesOnly && f.InReplyTo().None?)
  }

  function FirstEligible(queued: seq<Reply>, correlate: Option<nat>, repliesOnly: bool): (k: nat)
    ensures k <= |queued|
    ensures k < |queued| ==> Eligible(queued[k], correlate, repliesOnly)
    ensures forall j :: 0 <= j < k ==> !Eligible(queued[j], correlate, repliesOnly)
  {
    if queued == [] || Eligible(queued[0], correlate, repliesOnly) then 0
    else 1 + FirstEligible(queued[1..], correlate, repliesOnly)
  }

  lemma FirstEligibleIs(queued: seq<Reply>, correlate: Option<nat>, repliesOnly: bool, k: nat)
    requires k <= |queued| && (k < |queued| ==> Eligible(queued[k], correlate, repliesOnly))
    requires forall j :: 0 <= j < k ==> !Eligible(queued[j], correlate, repliesOnly)
    ensures FirstEligible(queued, correlate, repliesOnly) == k
  {
  }

  function QueueOf(queues: map<nat, seq<Reply>>, id: nat): seq<Reply> {
    if id in queues then queues[id] else []
  }

  /** What was read and not yet taken: replies by the request they answer, other frames by
      their session. */
  class FrameQueues {
    var replyFrameQueues: map<nat, seq<Reply>>
    var sessionFrameQueues: map<SessionId, seq<Reply>>

    /** A reply queued for the request waited on comes first; otherwise the first eligible frame
        of the session's queue is taken out and the others keep their places. */
    method DequeueOwnFrame(sessionId: SessionId, correlate: Option<nat>, repliesOnly: bool) returns (frame: Option<Reply>)
      modifies this
      ensures
        var replies := if correlate.Some? then QueueOf(old(replyFrameQueues), correlate.value) else [];
        var queued := QueueOf(old(sessionFrameQueues), sessionId);
        var k := FirstEligible(queued, correlate, repliesOnly);
        if replies != [] then
          frame == Some(replies[0]) && sessionFrameQueues == old(sessionFrameQueues)
          && replyFrameQueues == SetRoute(old(replyFrameQueues), correlate.value, replies[1..])
        else
          replyFrameQueues == old(replyFrameQueues) &&
          if k == |queued| then frame == None && sessionFrameQueues == old(sessionFrameQueues)
          else frame == Some(queued[k])
               && sessionFrameQueues == SetRoute(old(sessionFrameQueues), sessionId, queued[..k] + queued[k + 1..])
    {
      if correlate.Some? {
        var replies := QueueOf(replyFrameQueues, correlate.value);
        if replies != [] {
          replyFrameQueues := SetRoute(replyFrameQueues, correlate.value, replies[1..]);
          return Some(replies[0]);
        }
      }
      var queued := QueueOf(sessionFrameQueues, sessionId);
      var index := 0;
      while index < |queued| && !Eligible(queued[index], correlate, repliesOnly)
        invariant 0 <= index <= |queued|
        invariant forall j :: 0 <= j < index ==> !Eligible(queued[j], correlate, repliesOnly)
      {
        index := index + 1;
      }
      FirstEligibleIs(queued, correlate, repliesOnly, index);
      if index == |queued| {
        return None;
      }
      sessionFrameQueues := SetRoute(sessionFrameQueues, sessionId, queued[..index] + queued[index + 1..]);
      return Some(queued[index]);
    }
  }

  // ---------- one attempt

  class ActiveAgentSession {
    const transport: Outbox
    const sender: nat
    const sessionId: SessionId
    const idClientGenerated: bool
    const startMessageId: nat
    var messageMessageId: Option<nat>
    var startAccepted: bool
    var nextSequence: nat
    var unresolvedMessageSequence: Option<nat>
    var startReplyObserved: bool
    var stopped: bool
    ghost var stops: seq<nat>

    /** The attempt this session is, at a point of its control flow. */
    ghost function View(phase: Phase): Attempt
      reads this
    {
      Attempt(sessionId, idClientGenerated, true, startMessageId, messageMessageId, stops, startAccepted,
              startReplyObserved, stopped, nextSequence, unresolvedMessageSequence, phase, true, [], false)
    }

    ghost predicate Valid()
      reads this
    {
      startAccepted ==> startReplyObserved && messageMessageId.Some?
    }

    constructor (transport: Outbox, sender: nat, sessionId: SessionId, idClientGenerated: bool)
      modifies transport
      ensures Valid() && this.transport == transport && this.sender == sender && this.sessionId == sessionId
      ensures transport.sent == old(transport.sent) + [Start(sender, sessionId, 1)]
      ensures View(Running) == Begun(Subscribed(Go(true), sessionId, idClientGenerated, true), |old(transport.sent)|)
    {
      this.transport, this.sender, this.sessionId := transport, sender, sessionId;
      this.idClientGenerated := idClientGenerated;
      messageMessageId, startAccepted, startReplyObserved, stopped := None, false, false, false;
      nextSequence, unresolvedMessageSequence, stops := 1, None, [];
      startMessageId := |transport.sent|;
      new;
      var id := transport.Send(Start(sender, sessionId, 1));
      nextSequence := 2;
    }

    method RollbackUnresolvedMessage()
      modifies this`nextSequence, this`unresolvedMessageSequence
      ensures unresolvedMessageSequence == None
      ensures nextSequence ==
                if old(unresolvedMessageSequence).Some? then old(unresolvedMessageSequence).value else old(nextSequence)
    {
      if unresolvedMessageSequence.None? {
        return;
      }
      nextSequence := unresolvedMessageSequence.value;
      unresolvedMessageSequence := None;
    }

    /** A `nack` or an `agent_error`. */
    method TakeRefused(f: Reply) returns (going: bool)
      requires Valid() && (f.Refused? || f.RunError?) && (!startAccepted ==> Eligible(f, Some(startMessageId), true))
      modifies this`startReplyObserved, this`nextSequence, this`unresolvedMessageSequence, this`stopped
      ensures Valid()
      ensures
        var reaction := GoObserve(true, old(View(Running)), f, 0);
        reaction.sends == [] && View(if going then Running else Failed) == reaction.attempt
    {
      if !startAccepted && f.InReplyTo().Some? && f.InReplyTo() != Some(startMessageId) {
        return true;
      }
      startReplyObserved := true;
      if messageMessageId.Some? && f.InReplyTo() == messageMessageId {
        RollbackUnresolvedMessage();
      }
      if !startAccepted && CodeOf(f) == Some(AgentBusy) {
        stopped := true;
      }
      going := false;
    }

    /** One frame of the run loop. A frame that shows nothing fails the run and leaves the
        counters alone; every other one is taken as the guarded attempt takes it. */
    method Take(f: Reply) returns (going: bool)
      requires Valid() && (!startAccepted ==> Eligible(f, Some(startMessageId), true))
      modifies this, transport
      ensures Valid()
      ensures
        var reaction := GoObserve(true, old(View(Running)), f, |old(transport.sent)|);
        var silent := f.Output? && f.kind.Silent? && old(startAccepted);
        View(if going then Running else Failed) == (if silent then reaction.attempt.(phase := Failed) else reaction.attempt)
        && transport.sent == old(transport.sent) + ToRequests(sender, sessionId, reaction.sends)
    {
      going := true;
      ghost var sent := transport.sent;
      assert sent == sent + [];
      if f.Acked? || f.Stopped? || (f.Output? && !startAccepted) {
        return;
      }
      if f.Refused? || f.RunError? {
        going := TakeRefused(f);
      } else if f.Started? {
        if !startAccepted && f.to != startMessageId {
          return;
        }
        startAccepted := true;
        startReplyObserved := true;
        if messageMessageId.None? {
          var id := transport.Send(Message(sender, sessionId, 2));
          messageMessageId := Some(id);
          nextSequence, unresolvedMessageSequence := 3, Some(2);
        }
      } else if f.kind.Silent? || f.kind.Unexpected? {
        going := false;
      } else {
        unresolvedMessageSequence := None;
        if f.kind.ToolExecute? {
          var id := transport.Send(ToolResult(sender, sessionId));
        }
      }
    }

    /** `stopAgentSession`: nothing for a session that is stopped or may not be ours; one stop
        if the message is resolved; else the probe, whose first stop is the attempt's. */
    method StopAgentSession(frames: seq<Reply>, ghost phase: Phase)
      modifies this`stopped, this`unresolvedMessageSequence, transport
      ensures stopped
      ensures
        var reaction := Teardown(Go(true), old(View(phase)), true, |old(transport.sent)|);
        var first := old(transport.sent) + ToRequests(sender, sessionId, reaction.sends);
        if reaction.attempt.phase.Probing? then
          var n, preSend := |old(transport.sent)|, old(unresolvedMessageSequence).value;
          first == old(transport.sent) + [Stop(sender, sessionId, preSend)]
          && transport.sent == first + if Retries(frames, n) then [Stop(sender, sessionId, nextSequence)] else []
        else transport.sent == first
    {
      ghost var reaction := Teardown(Go(true), View(phase), true, |transport.sent|);
      if stopped {
        assert transport.sent == transport.sent + ToRequests(sender, sessionId, reaction.sends);
        return;
      }
      if !startReplyObserved && !idClientGenerated {
        stopped := true;
        assert transport.sent == transport.sent + ToRequests(sender, sessionId, reaction.sends);
        return;
      }
      stopped := true;
      if unresolvedMessageSequence.Some? {
        var preSend := unresolvedMessageSequence.value;
        unresolvedMessageSequence := None;
        assert ToRequests(sender, sessionId, reaction.sends) == [Stop(sender, sessionId, preSend)];
        var _ := StopAgentWithSequenceProbe(transport, sender, sessionId, preSend, nextSequence, frames);
        return;
      }
      var _ := transport.Send(Stop(sender, sessionId, nextSequence));
      assert ToRequests(sender, sessionId, reaction.sends) == [Stop(sender, sessionId, nextSequence)];
    }
  }
}
