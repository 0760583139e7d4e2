/** The Rust client's session objects, updated in place as `SessionGuard` and `AgentSession`
    are, each method shown to do what the attempt of the session system does. */
module RustSession {
  import opened Options
  import opened Protocol
  import opened Attempts
  import opened Outbound
  import opened StopReplies

  class SessionGuard {
    const transport: Outbox
    const sender: nat
    const sessionId: SessionId
    const idClientGenerated: bool
    var nextSequence: nat
    var startReplyObserved: bool
    var settled: bool
    var unresolvedSequence: Option<nat>
    ghost var stops: seq<nat>

    constructor (transport: Outbox, sender: nat, sessionId: SessionId, idClientGenerated: bool)
      ensures this.transport == transport && this.sender == sender && this.sessionId == sessionId
      ensures this.idClientGenerated == idClientGenerated
      ensures nextSequence == 2 && !startReplyObserved && settled && unresolvedSequence == None && stops == []
    {
      this.transport, this.sender, this.sessionId := transport, sender, sessionId;
      this.idClientGenerated := idClientGenerated;
      nextSequence, startReplyObserved, settled, unresolvedSequence := 2, false, true, None;
      stops := [];
    }

    method Arm()
      modifies this`settled
      ensures !settled
    {
      settled := false;
    }

    method Abandon()
      modifies this`settled
      ensures settled
    {
      settled := true;
    }

    predicate MayStop()
      reads this
    {
      !settled && (idClientGenerated || startReplyObserved)
    }

    method Stop() returns (msg: Option<nat>)
      modifies this`settled, this`stops, transport
      ensures settled
      ensures msg.Some? <==> old(MayStop())
      ensures msg.Some? ==>
        msg.value == |old(transport.sent)| && stops == old(stops) + [msg.value]
        && transport.sent == old(transport.sent) + [Request.Stop(sender, sessionId, nextSequence)]
      ensures msg.None? ==> stops == old(stops) && transport.sent == old(transport.sent)
    {
      if !MayStop() {
        settled := true;
        return None;
      }
      settled := true;
      var id := transport.Send(Request.Stop(sender, sessionId, nextSequence));
      stops := stops + [id];
      return Some(id);
    }

    /** `Drop` for the guard. */
    method DropGuard()
      modifies this, transport
      ensures settled && unresolvedSequence == None && startReplyObserved == old(startReplyObserved)
      ensures transport.sent == old(transport.sent) +
        if !old(MayStop()) then []
        else if old(unresolvedSequence.Some? && unresolvedSequence.value != nextSequence)
        then [Request.Stop(sender, sessionId, old(unresolvedSequence.value)), Request.Stop(sender, sessionId, old(nextSequence))]
        else [Request.Stop(sender, sessionId, old(nextSequence))]
      ensures |stops| == |old(stops)| + |transport.sent| - |old(transport.sent)| && old(stops) <= stops
      ensures forall k :: |old(stops)| <= k < |stops| ==> stops[k] == |old(transport.sent)| + k - |old(stops)|
      ensures nextSequence == if !old(MayStop()) && old(unresolvedSequence).Some? then old(unresolvedSequence).value else old(nextSequence)
    {
      var postSend := nextSequence;
      var taken := unresolvedSequence;
      unresolvedSequence := None;
      if taken.Some? && taken.value != postSend {
        nextSequence := taken.value;
        var first := Stop();
        if first.Some? {
          settled := false;
          nextSequence := postSend;
          var second := Stop();
        }
      } else {
        var only := Stop();
      }
    }
  }

  class AgentSession {
    const transport: Outbox
    const guard: SessionGuard
    const sender: nat
    const sessionId: SessionId
    const ownsSession: bool
    const startMessageId: nat
    var messageMessageId: Option<nat>
    var startAccepted: bool

    ghost predicate Valid()
      reads this, guard
    {
      guard.transport == transport && guard.sender == sender && guard.sessionId == sessionId
      && (startAccepted ==> guard.startReplyObserved)
    }

    /** The attempt this session is, at a point of its control flow. */
    ghost function View(phase: Phase): Attempt
      reads this, guard
    {
      Attempt(sessionId, guard.idClientGenerated, ownsSession, startMessageId, messageMessageId, guard.stops,
              startAccepted, guard.startReplyObserved, guard.settled, guard.nextSequence, guard.unresolvedSequence,
              phase, true, [], false)
    }

    /** `AgentSession::start`: the guard is armed only if no other subscription held the route. */
    constructor (transport: Outbox, sender: nat, sessionId: SessionId, idClientGenerated: bool, ownsSession: bool)
      modifies transport
      ensures Valid() && this.transport == transport && this.sender == sender && fresh(guard)
      ensures transport.sent == old(transport.sent) + [Request.Start(sender, sessionId, 1)]
      ensures View(Running) == Begun(Subscribed(Rust, sessionId, idClientGenerated, ownsSession), |old(transport.sent)|)
    {
      this.transport, this.sender, this.sessionId, this.ownsSession := transport, sender, sessionId, ownsSession;
      messageMessageId, startAccepted := None, false;
      var g := new SessionGuard(transport, sender, sessionId, idClientGenerated && ownsSession);
      guard := g;
      startMessageId := |transport.sent|;
      new;
      var id := transport.Send(Request.Start(sender, sessionId, 1));
      if ownsSession {
        g.Arm();
      }
    }

    method SendMessage()
      requires Valid()
      modifies this, guard`nextSequence, guard`unresolvedSequence, transport
      ensures messageMessageId.Some? && startAccepted == old(startAccepted)
      ensures old(messageMessageId.Some?) ==>
        messageMessageId == old(messageMessageId) && transport.sent == old(transport.sent)
        && guard.nextSequence == old(guard.nextSequence) && guard.unresolvedSequence == old(guard.unresolvedSequence)
      ensures old(messageMessageId.None?) ==>
        messageMessageId == Some(|old(transport.sent)|) && guard.nextSequence == 3 && guard.unresolvedSequence == Some(2)
        && transport.sent == old(transport.sent) + [Request.Message(sender, sessionId, 2)]
    {
      if messageMessageId.Some? {
        return;
      }
      var id := transport.Send(Request.Message(sender, sessionId, 2));
      messageMessageId := Some(id);
      guard.nextSequence := 3;
      guard.unresolvedSequence := Some(2);
    }

    method RollbackMessageSequence()
      modifies guard`nextSequence, guard`unresolvedSequence
      ensures guard.unresolvedSequence == None
      ensures guard.nextSequence == if old(guard.unresolvedSequence).Some? then old(guard.unresolvedSequence).value else old(guard.nextSequence)
    {
      if guard.unresolvedSequence.Some? {
        guard.nextSequence := guard.unresolvedSequence.value;
        guard.unresolvedSequence := None;
      }
    }

    /** One frame of the run loop: `classify` and what the loop does with its verdict.
        `going` says whether the loop goes on. */
    method Take(f: Reply) returns (going: bool)
      requires Valid()
      modifies this, guard, transport
      ensures Valid()
      ensures
        var reaction := RustObserve(old(View(Running)), f, |old(transport.sent)|);
        View(if going then Running else Failed) == reaction.attempt
        && transport.sent == old(transport.sent) + ToRequests(sender, sessionId, reaction.sends)
    {
      going := true;
      if f.Acked? || f.Stopped? {
        return;
      }
      if !startAccepted {
        if f.InReplyTo() != Some(startMessageId) {
          return;
        }
        guard.startReplyObserved := true;
      }
      if f.Started? {
        startAccepted := true;
        SendMessage();
      } else if f.Output? {
        if !f.kind.Silent? && !f.kind.Unexpected? {
          guard.unresolvedSequence := None;
        }
        if f.kind.ToolExecute? {
          var id := transport.Send(Request.ToolResult(sender, sessionId));
        }
      } else {
        if messageMessageId.Some? && f.InReplyTo() == messageMessageId {
          RollbackMessageSequence();
        }
        if CodeOf(f) == Some(AgentBusy) {
          guard.Abandon();
        }
        going := false;
      }
    }

    /** `finish_without_stop`, after a failure: one stop if the session may be stopped. */
    method FinishWithoutStop()
      requires Valid()
      modifies guard, transport
      ensures Valid()
      ensures
        var reaction := Finish(old(View(Failed)), |old(transport.sent)|);
        View(reaction.attempt.phase) == reaction.attempt
        && transport.sent == old(transport.sent) + ToRequests(sender, sessionId, reaction.sends)
    {
      if guard.MayStop() {
        var id := guard.Stop();
      } else {
        guard.Abandon();
        assert transport.sent == transport.sent + [];
      }
    }

    /** `Drop` for the whole session: what the guard sends is what dropping the attempt sends. */
    method DropSession(ghost phase: Phase)
      requires Valid() && !phase.Done?
      modifies guard, transport
      ensures Valid()
      ensures
        var reaction := Drop(old(View(phase)), |old(transport.sent)|);
        View(Done(Dropped)).(open := false) == reaction.attempt
        && transport.sent == old(transport.sent) + ToRequests(sender, sessionId, reaction.sends)
    {
      ghost var reaction := Drop(View(phase), |transport.sent|);
      ghost var sent := transport.sent;
      guard.DropGuard();
      assert transport.sent == sent + ToRequests(sender, sessionId, reaction.sends);
      assert guard.stops == reaction.attempt.stops;
    }

    /** `probe_stop`: reads on until the answer to one stop, and says how it came out. */
    method ProbeStop(frames: seq<Reply>, stop: nat) returns (outcome: StopOutcome, rest: seq<Reply>)
      ensures
        var k := FirstAnswer(Rust, frames, stop);
        if k == |frames| then outcome == Unknown && rest == []
        else outcome == OutcomeOf(frames[k]) && rest == frames[k + 1..]
    {
      var read := 0;
      while read < |frames|
        invariant 0 <= read <= |frames|
        invariant FirstAnswer(Rust, frames, stop) == read + FirstAnswer(Rust, frames[read..], stop)
      {
        var f := frames[read];
        read := read + 1;
        if f.InReplyTo() != Some(stop) {
          continue;
        }
        return OutcomeOf(f), frames[read..];
      }
      return Unknown, [];
    }

    /** What was sent and how it ended is what the attempt `was` would have done. */
    ghost predicate TornDown(was: Attempt, before: seq<Request>, frames: seq<Reply>, end: Phase)
      reads this, guard, transport
    {
      var reaction := Attempts.Teardown(Rust, was, true, |before|);
      (reaction.attempt.phase.Probing? ==> reaction.attempt.stops != []) &&
      (View(end), transport.sent) ==
        Await(Rust, sender, reaction.attempt, before + ToRequests(sender, sessionId, reaction.sends), frames)
    }

    /** The waiting teardown. `frames` is what the subscription yields before time is up. */
    method Teardown(frames: seq<Reply>, ghost phase: Phase) returns (ghost end: Phase)
      requires Valid() && guard.stops == []
      modifies guard, transport
      ensures Valid() && TornDown(old(View(phase)), old(transport.sent), frames, end)
    {
      if guard.unresolvedSequence.Some? {
        end := StopCandidates(frames, phase);
      } else {
        end := StopAndWait(frames, phase);
      }
    }

    method StopAndWait(frames: seq<Reply>, ghost phase: Phase) returns (ghost end: Phase)
      requires Valid() && guard.stops == [] && guard.unresolvedSequence.None?
      modifies guard, transport
      ensures Valid() && TornDown(old(View(phase)), old(transport.sent), frames, end)
    {
      ghost var reaction := Attempts.Teardown(Rust, View(phase), true, |transport.sent|);
      ghost var sent := transport.sent + ToRequests(sender, sessionId, reaction.sends);
      var only := guard.Stop();
      assert transport.sent == sent;
      if only.None? {
        return Done(Withheld);
      }
      assert View(reaction.attempt.phase) == reaction.attempt;
      AwaitEnds(Rust, sender, reaction.attempt, sent, frames);
      var _, _ := ProbeStop(frames, only.value);
      end := EndOf(Rust, frames, only.value);
    }

    method StopCandidates(frames: seq<Reply>, ghost phase: Phase) returns (ghost end: Phase)
      requires Valid() && guard.stops == [] && guard.unresolvedSequence.Some?
      modifies guard, transport
      ensures Valid() && TornDown(old(View(phase)), old(transport.sent), frames, end)
    {
      ghost var reaction := Attempts.Teardown(Rust, View(phase), true, |transport.sent|);
      ghost var sent := transport.sent + ToRequests(sender, sessionId, reaction.sends);
      var preSend, postSend := guard.unresolvedSequence.value, guard.nextSequence;
      guard.unresolvedSequence, guard.nextSequence := None, preSend;
      var first := guard.Stop();
      assert transport.sent == sent;
      if first.None? {
        return Done(Withheld);
      }
      ghost var waiting := View(reaction.attempt.phase);
      assert waiting == reaction.attempt;
      var outcome, rest := ProbeStop(frames, first.value);
      if outcome != WrongSequence {
        AwaitEnds(Rust, sender, waiting, sent, frames);
        return EndOf(Rust, frames, first.value);
      }
      AwaitRetries(Rust, sender, waiting, sent, frames);
      guard.settled := false;
      guard.nextSequence := postSend;
      var second := guard.Stop();
      var _, _ := ProbeStop(rest, second.value);
      end := EndOf(Rust, rest, second.value);
      assert View(end) == waiting.(next := postSend, stops := waiting.stops + [|sent|], phase := end);
    }
  }
}
