/** The Go client's `agentRun`, updated in place. */
module GoSession {
  import opened Options
  import opened Protocol
  import opened Attempts
  import opened Outbound
  import opened StopReplies

  lemma GoTakesRefusal(a: Attempt, now: Attempt, f: Reply)
    requires f.Refused? || f.RunError?
    requires a.startAccepted || f.InReplyTo().None? || f.InReplyTo() == Some(a.startMsg)
    requires now == a.(startReplyObserved := true, misled := now.misled, next := now.next, unresolved := now.unresolved,
                       settled := now.settled, phase := Failed)
    requires now.misled == (a.misled || (!a.startAccepted && f.InReplyTo().None?))
    requires now.settled == (a.settled || (CodeOf(f) == Some(AgentBusy) && !a.startAccepted))
    requires
      var rolled := a.messageMsg.Some? && f.InReplyTo() == a.messageMsg && a.unresolved.Some?;
      now.next == (if rolled then a.unresolved.value else a.next)
      && now.unresolved == if rolled then None else a.unresolved
    ensures GoObserve(false, a, f, 0) == Reaction(now, [])
  {
  }

  class AgentRun {
    const transport: Outbox
    const sender: nat
    const sessionId: SessionId
    const idClientGenerated: bool
    const startMessageId: nat
    var messageMessageId: Option<nat>
    var startAccepted: bool
    var nextSequence: nat
    var unresolvedMessageSequence: nat   // 0 when there is none
    var startReplyObserved: bool
    var foreignSession: bool
    var stopped: bool
    ghost var stops: seq<nat>
    ghost var misled: bool

    /** The attempt this run is, at a point of its control flow. */
    ghost function View(phase: Phase): Attempt
      reads this
    {
      Attempt(sessionId, idClientGenerated, true, startMessageId, messageMessageId, stops, startAccepted,
              startReplyObserved, foreignSession || stopped, nextSequence,
              if unresolvedMessageSequence == 0 then None else Some(unresolvedMessageSequence),
              phase, true, [], misled)
    }

    /** `begin`, once the session is subscribed to. */
    constructor (transport: Outbox, sender: nat, sessionId: SessionId, idClientGenerated: bool)
      modifies transport
      ensures this.transport == transport && this.sender == sender && this.sessionId == sessionId
      ensures transport.sent == old(transport.sent) + [Start(sender, sessionId, 1)]
      ensures View(Running) == Begun(Subscribed(Go(false), sessionId, idClientGenerated, true), |old(transport.sent)|)
    {
      this.transport, this.sender, this.sessionId := transport, sender, sessionId;
      this.idClientGenerated := idClientGenerated;
      messageMessageId, startAccepted, startReplyObserved, foreignSession, stopped := None, false, false, false, false;
      nextSequence, unresolvedMessageSequence, stops, misled := 1, 0, [], false;
      startMessageId := |transport.sent|;
      new;
      var id := transport.Send(Start(sender, sessionId, 1));
      nextSequence := 2;
    }

    method SendMessage()
      modifies this`messageMessageId, this`nextSequence, this`unresolvedMessageSequence, transport
      ensures transport.sent == old(transport.sent) + [Message(sender, sessionId, 2)]
      ensures messageMessageId == Some(|old(transport.sent)|) && nextSequence == 3 && unresolvedMessageSequence == 2
    {
      var id := transport.Send(Message(sender, sessionId, 2));
      messageMessageId := Some(id);
      nextSequence, unresolvedMessageSequence := 3, 2;
    }

    method RollbackMessage()
      modifies this`nextSequence, this`unresolvedMessageSequence
      ensures unresolvedMessageSequence == 0
      ensures nextSequence == if old(unresolvedMessageSequence) == 0 then old(nextSequence) else old(unresolvedMessageSequence)
    {
      if unresolvedMessageSequence == 0 {
        return;
      }
      nextSequence := unresolvedMessageSequence;
      unresolvedMessageSequence := 0;
    }

    /** A `nack` or an `agent_error`. */
    method TakeRefused(f: Reply) returns (going: bool)
      requires f.Refused? || f.RunError?
      modifies this`startReplyObserved, this`misled, this`nextSequence, this`unresolvedMessageSequence, this`foreignSession
      ensures
        var reaction := GoObserve(false, old(View(Running)), f, 0);
        reaction.sends == [] && View(if going then Running else Failed) == reaction.attempt
    {
      if !startAccepted && f.InReplyTo().Some? && f.InReplyTo() != Some(startMessageId) {
        return true;
      }
      Refuse(f);
      going := false;
    }

    /** What `pump` does with one that concerns this attempt, or may. */
    method Refuse(f: Reply)
      requires f.Refused? || f.RunError?
      requires startAccepted || f.InReplyTo().None? || f.InReplyTo() == Some(startMessageId)
      modifies this`startReplyObserved, this`misled, this`nextSequence, this`unresolvedMessageSequence, this`foreignSession
      ensures GoObserve(false, old(View(Running)), f, 0) == Reaction(View(Failed), [])
    {
      ghost var was := View(Running);
      startReplyObserved := true;
      misled := misled || (!startAccepted && f.InReplyTo().None?);
      if messageMessageId.Some? && f.InReplyTo() == messageMessageId {
        RollbackMessage();
      }
      NoteForeignSession(CodeOf(f));
      ghost var now := View(Failed);
      assert now == was.(startReplyObserved := true, misled := now.misled, next := now.next, unresolved := now.unresolved,
                         settled := now.settled, phase := Failed);
      GoTakesRefusal(was, now, f);
    }

    method NoteForeignSession(code: Option<Code>)
      modifies this`foreignSession
      ensures foreignSession == (old(foreignSession) || (code == Some(AgentBusy) && !startAccepted))
    {
      if code == Some(AgentBusy) && !startAccepted {
        foreignSession := true;
      }
    }

    /** One frame of `pump`; `going` says whether the loop goes on. */
    method Take(f: Reply) returns (going: bool)
      modifies this, transport
      ensures
        var reaction := GoObserve(false, old(View(Running)), f, |old(transport.sent)|);
        View(if going then Running else Failed) == reaction.attempt
        && transport.sent == old(transport.sent) + ToRequests(sender, sessionId, reaction.sends)
    {
      going := true;
      ghost var sent := transport.sent;
      assert sent == sent + [];
      if f.Acked? || f.Stopped? || (f.Output? && !startAccepted) {
        return;
      }
      if f.Refused? || f.RunError? {
        going := TakeRefused(f);
      } else if f.Started? {
        if f.to != startMessageId {
          return;
        }
        startAccepted := true;
        startReplyObserved := true;
        if messageMessageId.None? {
          SendMessage();
        }
      } else {
        if f.kind.Unexpected? {
          return false;
        }
        if !f.kind.Silent? {
          unresolvedMessageSequence := 0;
        }
        if f.kind.ToolExecute? {
          var id := transport.Send(ToolResult(sender, sessionId));
        }
      }
    }

    method StopAgent(number: nat) returns (msg: nat)
      modifies this`stops, transport
      ensures msg == |old(transport.sent)| && stops == old(stops) + [msg]
      ensures transport.sent == old(transport.sent) + [Stop(sender, sessionId, number)]
    {
      msg := transport.Send(Stop(sender, sessionId, number));
      stops := stops + [msg];
    }

    /** `awaitStopReply`: whether the stop settled the session, and whether another number
        is worth a try. */
    method AwaitStopReply(frames: seq<Reply>, stop: nat) returns (settled: bool, retry: bool, rest: seq<Reply>)
      ensures
        var k := FirstAnswer(Go(false), frames, stop);
        if k == |frames| then !settled && !retry && rest == []
        else rest == frames[k + 1..] && (settled <==> frames[k].Stopped?)
             && (retry <==> OutcomeOf(frames[k]) == WrongSequence)
    {
      var read := 0;
      while read < |frames|
        invariant 0 <= read <= |frames|
        invariant FirstAnswer(Go(false), frames, stop) == read + FirstAnswer(Go(false), frames[read..], stop)
      {
        var f := frames[read];
        read := read + 1;
        if f.InReplyTo() != Some(stop) {
          continue;
        }
        if f.Stopped? {
          return true, false, frames[read..];
        }
        if !f.Refused? {
          continue;
        }
        return false, CodeOf(f) == Some(InvalidRequest), frames[read..];
      }
      return false, false, [];
    }

    /** `teardown`: nothing the second time; else the stops sent, and how the waiting ended, are
        those of the attempt. */
    method Teardown(probe: bool, frames: seq<Reply>, ghost phase: Phase) returns (ghost end: Phase)
      requires !stopped ==> stops == []
      modifies this, transport
      ensures stopped
      ensures old(stopped) ==> transport.sent == old(transport.sent) && stops == old(stops) && end == phase
      ensures !old(stopped) ==>
        var reaction := Attempts.Teardown(Go(false), old(View(phase)), probe, |old(transport.sent)|);
        (reaction.attempt.phase.Probing? ==> reaction.attempt.stops != []) &&
        var (a, sent) :=
          Await(Go(false), sender, reaction.attempt, old(transport.sent) + ToRequests(sender, sessionId, reaction.sends), frames);
        transport.sent == sent && stops == a.stops && end == a.phase
    {
      if stopped {
        return phase;
      }
      ghost var reaction := Attempts.Teardown(Go(false), View(phase), probe, |transport.sent|);
      ghost var sent := transport.sent + ToRequests(sender, sessionId, reaction.sends);
      stopped := true;
      if foreignSession || (!startReplyObserved && !idClientGenerated) {
        assert sent == transport.sent && !reaction.attempt.phase.Probing?;
        return Done(Withheld);
      }
      if !probe || unresolvedMessageSequence == 0 {
        var _ := StopAgent(nextSequence);
        assert sent == transport.sent && !reaction.attempt.phase.Probing?;
        return Done(Unwaited);
      }
      assert sent == transport.sent + [Stop(sender, sessionId, unresolvedMessageSequence)];
      end := StopWithSequenceProbe(frames, reaction.attempt);
    }

    /** `stopWithSequenceProbe`: the candidates in turn, until one settles it. */
    method StopWithSequenceProbe(frames: seq<Reply>, ghost a: Attempt) returns (ghost end: Phase)
      requires unresolvedMessageSequence != 0 && stops == []
      requires a.id == sessionId && a.stops == [|transport.sent|]
      requires a.phase == Probing(if nextSequence == unresolvedMessageSequence then None else Some(nextSequence))
      modifies this`stops, transport
      ensures
        var (a', sent) := Await(Go(false), sender, a, old(transport.sent) + [Stop(sender, sessionId, unresolvedMessageSequence)], frames);
        transport.sent == sent && stops == a'.stops && end == a'.phase
    {
      var candidates := [unresolvedMessageSequence];
      if nextSequence != unresolvedMessageSequence {
        candidates := candidates + [nextSequence];
      }
      var first := StopAgent(candidates[0]);
      ghost var sent := transport.sent;
      var settled, retry, rest := AwaitStopReply(frames, first);
      if settled || !retry || |candidates| == 1 {
        AwaitEnds(Go(false), sender, a, sent, frames);
        return EndOf(Go(false), frames, first);
      }
      AwaitRetries(Go(false), sender, a, sent, frames);
      var second := StopAgent(candidates[1]);
      settled, retry, rest := AwaitStopReply(rest, second);
      end := EndOf(Go(false), frames[FirstAnswer(Go(false), frames, first) + 1..], second);
    }
  }
}
