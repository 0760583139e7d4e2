/** Every reaction of an attempt keeps the session invariant. */
module SessionReactions {
  import opened Options
  import opened Protocol
  import opened Attempts
  import opened AttemptFrames
  import opened SessionSystem
  import opened SessionInvariant
  import opened SessionSteps

  ghost predicate ReactionOk(s: System, i: nat, reaction: Reaction)
    requires i < |s.attempts|
  {
    var s' := React(s, i, reaction);
    Follows(s.attempts[i], reaction.attempt) && SentSince(s.attempts[i], reaction.attempt, |s.requests|)
    && AttemptOk(s', i, reaction.attempt)
    && (forall r :: |s.requests| <= r < |s'.requests| ==> RequestOk(s', r))
    && (reaction.attempt.misled ==> MayBeMisled(s, i))
  }

  /** An attempt as it stands once the frame it is about to see has left its inbox. */
  predicate Reads(s: System, i: nat, a: Attempt) {
    i < |s.attempts| && !a.phase.Ready? && a == s.attempts[i].(inbox := a.inbox)
    && |s.verdicts| <= |s.requests| && AttemptOk(s, i, s.attempts[i]) && AttemptOk(s, i, a)
  }

  lemma QuietOk(s: System, i: nat, a: Attempt, a': Attempt)
    requires Reads(s, i, a) && a' == a.(phase := a'.phase, settled := a'.settled, unresolved := a'.unresolved,
                                        next := a'.next, open := a'.open, startReplyObserved := a'.startReplyObserved)
    requires !a'.phase.Ready? && StartOk(s, a') && PhaseOk(s, a') && MisledOk(s, a') && (a.stops != [] ==> a'.settled)
    ensures ReactionOk(s, i, Reaction(a', []))
  {
    assert React(s, i, Reaction(a', [])).requests == s.requests;
    assert StandingOk(React(s, i, Reaction(a', [])), i, a');
  }

  lemma StopOnceOk(s: System, i: nat, a: Attempt, a0: Attempt, number: nat, end: Phase)
    requires Reads(s, i, a) && (a.phase.Running? || a.phase.Failed?)
    requires a0 == a.(next := a0.next, unresolved := a0.unresolved)
    requires a.misled ==> number == 2 && end.Done? && a0 == a
    requires match end
             case Probing(None) => number == a.next && a.unresolved.None?
             case Probing(Some(post)) => a.messageMsg.Some? && number == 2 && post == 3
             case Done(e) => e == Unwaited || e == Dropped
             case _ => false
    ensures ReactionOk(s, i, StopOnce(a0, number, |s.requests|, end))
  {
    var reaction := StopOnce(a0, number, |s.requests|, end);
    var s' := React(s, i, reaction);
    if MayStop(a0) {
      assert s'.requests == s.requests + [Stop(i, a.id, number)];
      StopSentOk(s, s', i, a, reaction.attempt, number);
    } else {
      NoStopOk(s, i, a, a0, number, end);
    }
  }

  lemma StopSentOk(s: System, s': System, i: nat, a: Attempt, a': Attempt, number: nat)
    requires Reads(s, i, a) && (a.phase.Running? || a.phase.Failed?) && MayStop(a)
    requires a' == a.(next := a'.next, unresolved := a'.unresolved, settled := true, stops := [|s.requests|], phase := a'.phase)
    requires a.misled ==> number == 2 && a'.phase.Done? && a'.unresolved.None?
    requires match a'.phase
             case Probing(None) => number == a.next && a.unresolved.None?
             case Probing(Some(post)) => a.messageMsg.Some? && number == 2 && post == 3
             case Done(e) => e == Unwaited || e == Dropped
             case _ => false
    requires s' == s.(attempts := s.attempts[i := a'], requests := s.requests + [Stop(i, a.id, number)])
    ensures Follows(s.attempts[i], a') && SentSince(s.attempts[i], a', |s.requests|)
    ensures AttemptOk(s', i, a') && RequestOk(s', |s.requests|)
  {
    assert a.stops == [] && StopNumber(s', |s.requests|) == number;
    assert IdentityOk(s', i, a') && StartOk(s', a');
    assert StopsOk(s', a') && PhaseOk(s', a') && MisledOk(s', a');
  }

  lemma NoStopOk(s: System, i: nat, a: Attempt, a0: Attempt, number: nat, end: Phase)
    requires Reads(s, i, a) && (a.phase.Running? || a.phase.Failed?)
    requires a0 == a.(next := a0.next, unresolved := a0.unresolved) && !MayStop(a0)
    requires a.misled ==> a0 == a
    ensures ReactionOk(s, i, StopOnce(a0, number, |s.requests|, end))
  {
    var reaction := StopOnce(a0, number, |s.requests|, end);
    assert React(s, i, reaction).requests == s.requests;
    assert StandingOk(React(s, i, reaction), i, reaction.attempt);
  }

  lemma TeardownOk(s: System, i: nat, probe: bool)
    requires Inv(s) && Enabled(s, TearDown(i, probe))
    ensures ReactionOk(s, i, Teardown(s.client, s.attempts[i], probe, |s.requests|))
  {
    var a := s.attempts[i];
    assert AttemptOk(s, i, a);
    if s.client.Go? && (!probe || a.unresolved.None?) {
      StopOnceOk(s, i, a, a, a.next, Done(Unwaited));
    } else {
      match a.unresolved
      case None => StopOnceOk(s, i, a, a, a.next, Probing(None));
      case Some(pre) => StopOnceOk(s, i, a, a.(unresolved := None, next := pre), pre, Probing(Some(3)));
    }
  }

  lemma FinishOk(s: System, i: nat)
    requires Inv(s) && Enabled(s, FinishUp(i))
    ensures ReactionOk(s, i, Finish(s.attempts[i], |s.requests|))
  {
    var a := s.attempts[i];
    assert AttemptOk(s, i, a);
    StopOnceOk(s, i, a, a, a.next, Done(Unwaited));
  }

  lemma ExpireOk(s: System, i: nat)
    requires Inv(s) && Enabled(s, Expire(i))
    ensures ReactionOk(s, i, Reaction(s.attempts[i].(phase := Done(TimedOut)), []))
  {
    var a := s.attempts[i];
    assert AttemptOk(s, i, a);
    QuietOk(s, i, a, a.(phase := Done(TimedOut)));
  }

  lemma DropReactionOk(s: System, i: nat, a: Attempt)
    requires Reads(s, i, a) && s.client.Rust?
    ensures ReactionOk(s, i, Drop(a, |s.requests|))
  {
    var reaction := Drop(a, |s.requests|);
    if reaction.sends == [] {
      QuietOk(s, i, a, reaction.attempt);
    } else {
      DropSendsOk(s, i, a, reaction);
    }
  }

  lemma DropSendsOk(s: System, i: nat, a: Attempt, reaction: Reaction)
    requires Reads(s, i, a) && s.client.Rust? && MayStop(a) && !a.phase.Done?
    requires reaction == Drop(a, |s.requests|)
    ensures ReactionOk(s, i, reaction)
  {
    assert a.stops == [] && BracketOk(s, a);
    var a' := reaction.attempt;
    var pair := a.unresolved.Some?;
    assert a' == a.(open := false, settled := true, unresolved := None, phase := Done(Dropped),
                    stops := if pair then [|s.requests|, |s.requests| + 1] else [|s.requests|]);
    var s' := React(s, i, reaction);
    assert s'.requests == s.requests + (if pair then [Stop(i, a.id, 2), Stop(i, a.id, 3)] else [Stop(i, a.id, a.next)]);
    DroppedOk(s, s', i, a, a');
  }

  lemma DroppedOk(s: System, s': System, i: nat, a: Attempt, a': Attempt)
    requires Reads(s, i, a) && s.client.Rust? && MayStop(a) && a.stops == []
    requires a' == a.(open := false, settled := true, unresolved := None, phase := Done(Dropped), stops := a'.stops)
    requires a'.stops == [|s.requests|] || a'.stops == [|s.requests|, |s.requests| + 1]
    requires s' == s.(attempts := s'.attempts, requests := s'.requests)
    requires s'.attempts == s.attempts[i := a']
    requires |s'.requests| == |s.requests| + |a'.stops| && s'.requests[..|s.requests|] == s.requests
    requires forall r :: |s.requests| <= r < |s'.requests| ==>
      s'.requests[r].Stop? && s'.requests[r].sender == i && s'.requests[r].id == a.id
    ensures Follows(s.attempts[i], a') && SentSince(s.attempts[i], a', |s.requests|)
    ensures AttemptOk(s', i, a') && forall r :: |s.requests| <= r < |s'.requests| ==> RequestOk(s', r)
  {
    assert forall r :: 0 <= r < |s.requests| ==> s'.requests[r] == s.requests[r];
    assert IdentityOk(s', i, a');
    assert StartOk(s', a') && StopsOk(s', a') && PhaseOk(s', a');
  }

  lemma DropOk(s: System, i: nat)
    requires Inv(s) && s.client.Rust? && i < |s.attempts| && !s.attempts[i].phase.Ready?
    ensures ReactionOk(s, i, Drop(s.attempts[i], |s.requests|))
  {
    assert AttemptOk(s, i, s.attempts[i]);
    DropReactionOk(s, i, s.attempts[i]);
  }

  lemma CloseOk(s: System, i: nat)
    requires Inv(s) && i < |s.attempts| && !s.attempts[i].phase.Ready?
    ensures ReactionOk(s, i, Reaction(s.attempts[i].(open := false), []))
  {
    var a := s.attempts[i];
    assert AttemptOk(s, i, a);
    QuietOk(s, i, a, a.(open := false));
  }

  // ---------- reading a frame

  /** The head of the inbox is gone; what is left is still in order and still one's own. */
  lemma PoppedOk(s: System, i: nat)
    requires Inv(s) && CanRead(s, i)
    ensures
      var a := s.attempts[i];
      Reads(s, i, a.(inbox := a.inbox[1..]))
      && a.inbox[0] < s.dispatched && s.log[a.inbox[0]].id == a.id && ReplyOk(s, a.inbox[0])
      && (forall k :: 1 <= k < |a.inbox| ==> a.inbox[0] < a.inbox[k])
      && (a.startAccepted && Live(s, a) ==> !Foreign(s.log, a.inbox[0], a.id, a.startMsg))
  {
    var a := s.attempts[i];
    assert AttemptOk(s, i, a);
    assert ReplyOk(s, a.inbox[0]);
    var b := a.(inbox := a.inbox[1..]);
    StandingKept(s, s, i, a, b);
    TailIsOk(s, a, b);
  }

  lemma TailIsOk(s: System, a: Attempt, b: Attempt)
    requires ReadingOk(s, a) && a.inbox != [] && b == a.(inbox := a.inbox[1..])
    ensures ReadingOk(s, b)
    ensures forall k :: 1 <= k < |a.inbox| ==> a.inbox[0] < a.inbox[k]
  {
    assert forall k :: 0 <= k < |b.inbox| ==> b.inbox[k] == a.inbox[k + 1];
  }

  /** The start is acknowledged: everything after that acknowledgement is the attempt's own. */
  lemma AcceptOk(s: System, i: nat, a: Attempt, p: nat)
    requires Reads(s, i, a) && a.phase.Running? && s.dispatched <= |s.log|
    requires p < s.dispatched && s.log[p] == Started(a.id, a.startMsg) && Accepted(s, a)
    requires forall k :: 0 <= k < |a.inbox| ==> p < a.inbox[k]
    ensures ReactionOk(s, i, Accept(a, |s.requests|))
  {
    var reaction := Accept(a, |s.requests|);
    var s' := React(s, i, reaction);
    var a' := reaction.attempt;
    if a.messageMsg.Some? {
      assert s'.requests == s.requests;
    } else {
      assert s'.requests == s.requests + [Message(i, a.id, 2)];
    }
    assert StandingOk(s', i, a');
    assert Live(s', a') == Live(s, a);
    assert OrderOk(s, a);
    assert UnreadOk(s', a');
    assert OrderOk(s', a');
  }

  lemma TakeOutputOk(s: System, i: nat, a: Attempt, kind: OutputKind)
    requires Reads(s, i, a) && a.phase.Running? && a.startAccepted && Admitted(s, a)
    ensures ReactionOk(s, i, TakeOutput(s.client, a, kind))
  {
    var reaction := TakeOutput(s.client, a, kind);
    if kind.ToolExecute? {
      ToolResultOk(s, i, a, a.(unresolved := None));
      assert React(s, i, reaction).requests == s.requests + [ToolResult(i, a.id)];
    } else {
      QuietOk(s, i, a, reaction.attempt);
    }
  }

  lemma ToolResultOk(s: System, i: nat, a: Attempt, a': Attempt)
    requires Reads(s, i, a) && a.phase.Running? && a.startAccepted && Admitted(s, a) && a' == a.(unresolved := None)
    ensures
      var s' := s.(attempts := s.attempts[i := a'], requests := s.requests + [ToolResult(i, a.id)]);
      Follows(s.attempts[i], a') && SentSince(s.attempts[i], a', |s.requests|)
      && AttemptOk(s', i, a') && RequestOk(s', |s.requests|)
  {
    var s' := s.(attempts := s.attempts[i := a'], requests := s.requests + [ToolResult(i, a.id)]);
    assert IdentityOk(s', i, a') && StartOk(s', a') && StopsOk(s', a') && PhaseOk(s', a') && MisledOk(s', a');
  }

  lemma TakeRefusalOk(s: System, i: nat, a: Attempt, a0: Attempt, f: Reply, giveUp: bool)
    requires Reads(s, i, a) && a.phase.Running? && f.id == a.id
    requires f.Refused? || f.RunError?
    requires f.Refused? ==> f.to < |s.verdicts| && s.verdicts[f.to] == Denied(f.code)
    requires a0 == a || a0 == a.(startReplyObserved := true)
    requires a0.startReplyObserved ==> a.startReplyObserved || (f.Refused? && f.to == a.startMsg) || a.startAccepted
    requires !a.startAccepted ==> giveUp
    ensures ReactionOk(s, i, Reaction(TakeRefusal(a0, f, giveUp), []))
  {
    var a' := TakeRefusal(a0, f, giveUp);
    assert StartOk(s, a');
    assert BracketOk(s, a');
    QuietOk(s, i, a, a');
  }

  /** What the runtime sends as a run's output shows that the message was admitted. */
  lemma OutputShowsAdmission(s: System, i: nat, p: nat)
    requires Inv(s) && i < |s.attempts| && !s.attempts[i].phase.Ready? && p < |s.log| && s.log[p].OfRun()
    requires s.log[p].id == s.attempts[i].id && !Foreign(s.log, p, s.attempts[i].id, s.attempts[i].startMsg)
    ensures Admitted(s, s.attempts[i])
  {
    assert ReplyOk(s, p);
    assert AttemptOk(s, i, s.attempts[i]);
  }

  /** Attempt `i` with the head of its inbox, which it is about to take, taken off. */
  function Popped(s: System, i: nat): Attempt
    requires i < |s.attempts| && s.attempts[i].inbox != []
  {
    s.attempts[i].(inbox := s.attempts[i].inbox[1..])
  }

  function Head(s: System, i: nat): Reply
    requires Enabled(s, Read(i))
  {
    s.log[s.attempts[i].inbox[0]]
  }

  lemma ObserveOk(s: System, i: nat)
    requires Inv(s) && Enabled(s, Read(i)) && s.attempts[i].phase.Running?
    ensures ReactionOk(s, i, Observe(s.client, Popped(s, i), Head(s, i), |s.requests|))
  {
    var a, f := Popped(s, i), Head(s, i);
    PoppedOk(s, i);
    if Observe(s.client, a, f, |s.requests|) == Reaction(a, []) {
      QuietOk(s, i, a, a);
    } else if f.Started? {
      ObserveStartOk(s, i);
    } else if f.Output? {
      ObserveOutputOk(s, i);
    } else if s.client.Go? && !a.startAccepted && f.RunError? {
      MisleadingOk(s, i, a, s.attempts[i].inbox[0]);
    } else {
      ObserveRefusalOk(s, i);
    }
  }

  lemma ObserveStartOk(s: System, i: nat)
    requires Inv(s) && Enabled(s, Read(i)) && s.attempts[i].phase.Running? && Head(s, i).Started?
    requires Observe(s.client, Popped(s, i), Head(s, i), |s.requests|) != Reaction(Popped(s, i), [])
    ensures ReactionOk(s, i, Observe(s.client, Popped(s, i), Head(s, i), |s.requests|))
  {
    var a, f := Popped(s, i), Head(s, i);
    PoppedOk(s, i);
    StartedIsOwn(s.client, a, f, |s.requests|);
    AcceptOk(s, i, a, s.attempts[i].inbox[0]);
  }

  lemma ObserveOutputOk(s: System, i: nat)
    requires Inv(s) && Enabled(s, Read(i)) && s.attempts[i].phase.Running? && Head(s, i).Output?
    requires Observe(s.client, Popped(s, i), Head(s, i), |s.requests|) != Reaction(Popped(s, i), [])
    ensures ReactionOk(s, i, Observe(s.client, Popped(s, i), Head(s, i), |s.requests|))
  {
    var a, f := Popped(s, i), Head(s, i);
    PoppedOk(s, i);
    OutputIsTaken(s.client, a, f, |s.requests|);
    assert Live(s, a);
    OutputShowsAdmission(s, i, s.attempts[i].inbox[0]);
    TakeOutputOk(s, i, a, f.kind);
  }

  lemma ObserveRefusalOk(s: System, i: nat)
    requires Inv(s) && Enabled(s, Read(i)) && s.attempts[i].phase.Running?
    requires Head(s, i).Refused? || (Head(s, i).RunError? && (s.client.Rust? || s.attempts[i].startAccepted))
    requires Observe(s.client, Popped(s, i), Head(s, i), |s.requests|) != Reaction(Popped(s, i), [])
    ensures ReactionOk(s, i, Observe(s.client, Popped(s, i), Head(s, i), |s.requests|))
  {
    var a, f := Popped(s, i), Head(s, i);
    PoppedOk(s, i);
    RefusalIsTaken(s.client, a, f, |s.requests|);
    var a0 := if s.client.Rust? && a.startAccepted then a else a.(startReplyObserved := true);
    TakeRefusalOk(s, i, a, a0, f, s.client.Rust? || !a.startAccepted);
  }

  /** An attempt that takes an acknowledged start takes its own. */
  lemma StartedIsOwn(client: Client, a: Attempt, f: Reply, msg: nat)
    requires f.Started? && Observe(client, a, f, msg) != Reaction(a, [])
    requires a.startAccepted ==> a.startReplyObserved && a.messageMsg.Some?
    ensures f.to == a.startMsg && Observe(client, a, f, msg) == Accept(a, msg)
  {
  }

  lemma OutputIsTaken(client: Client, a: Attempt, f: Reply, msg: nat)
    requires f.Output? && Observe(client, a, f, msg) != Reaction(a, [])
    ensures a.startAccepted && Observe(client, a, f, msg) == TakeOutput(client, a, f.kind)
  {
  }

  lemma RefusalIsTaken(client: Client, a: Attempt, f: Reply, msg: nat)
    requires f.Refused? || (f.RunError? && (client.Rust? || a.startAccepted))
    requires Observe(client, a, f, msg) != Reaction(a, [])
    ensures a.startAccepted || f.InReplyTo() == Some(a.startMsg)
    ensures
      var a0 := if client.Rust? && a.startAccepted then a else a.(startReplyObserved := true);
      Observe(client, a, f, msg) == Reaction(TakeRefusal(a0, f, client.Rust? || !a.startAccepted), [])
  {
  }

  /** An error that names no request and reaches an attempt before its acceptance is one of a
      rival's run. */
  lemma ErrorIsRivals(s: System, i: nat, p: nat)
    requires Inv(s) && i < |s.attempts| && p < |s.log| && s.log[p].RunError? && s.log[p].id == s.attempts[i].id
    requires s.attempts[i].messageMsg.None?
    ensures exists j :: Rival(s, i, j)
    ensures !s.attempts[i].generated
  {
    assert ReplyOk(s, p);
    var j := s.requests[s.log[p].origin].sender;
    assert Rival(s, i, j);
  }

  lemma MisleadingOk(s: System, i: nat, a: Attempt, p: nat)
    requires Inv(s) && Reads(s, i, a) && a.phase.Running? && s.client == Go(false) && !a.startAccepted
    requires p < |s.log| && s.log[p].RunError? && s.log[p].id == a.id
    ensures ReactionOk(s, i, GoObserve(false, a, s.log[p], |s.requests|))
  {
    ErrorIsRivals(s, i, p);
    var a' := GoObserve(false, a, s.log[p], |s.requests|).attempt;
    assert a' == a.(startReplyObserved := true, misled := true, phase := Failed, settled := a'.settled);
    var s' := React(s, i, Reaction(a', []));
    assert s'.requests == s.requests;
    assert StandingOk(s', i, a');
  }

  /** A probe that sends nothing more has either to wait on or had its stop confirmed. */
  lemma ProbeEndOk(s: System, i: nat, a: Attempt, f: Reply)
    requires StandingOk(s, i, a) && a.phase.Probing?
    requires f.Started? ==> f.to < |s.requests| && s.requests[f.to].Start?
    requires f.Acked? ==> f.to < |s.requests| && !s.requests[f.to].Stop?
    requires f.Stopped? ==> GrantedAt(s, f.to)
    requires f.Refused? ==> f.to < |s.verdicts| && s.verdicts[f.to] == Denied(f.code)
    requires Probe(s.client, a, f, |s.requests|).sends == []
    ensures PhaseOk(s, Probe(s.client, a, f, |s.requests|).attempt)
  {
  }

  lemma ProbeRetryOk(s: System, i: nat, a: Attempt, a': Attempt)
    requires Reads(s, i, a) && a.phase == Probing(Some(3)) && DeniedAt(s, a.stops[0])
    requires a' == a.(next := 3, stops := a.stops + [|s.requests|], phase := Probing(None))
    ensures
      var s' := s.(attempts := s.attempts[i := a'], requests := s.requests + [Stop(i, a.id, 3)]);
      Follows(s.attempts[i], a') && SentSince(s.attempts[i], a', |s.requests|)
      && AttemptOk(s', i, a') && RequestOk(s', |s.requests|)
  {
    var s' := s.(attempts := s.attempts[i := a'], requests := s.requests + [Stop(i, a.id, 3)]);
    assert a'.stops == [a.stops[0], |s.requests|];
    assert IdentityOk(s', i, a') && StartOk(s', a') && StopsOk(s', a') && PhaseOk(s', a');
  }

  lemma ProbeReactionOk(s: System, i: nat, a: Attempt, f: Reply)
    requires Reads(s, i, a) && a.phase.Probing?
    requires f.Started? ==> f.to < |s.requests| && s.requests[f.to].Start?
    requires f.Acked? ==> f.to < |s.requests| && !s.requests[f.to].Stop?
    requires f.Stopped? ==> GrantedAt(s, f.to)
    requires f.Refused? ==> f.to < |s.verdicts| && s.verdicts[f.to] == Denied(f.code)
    ensures ReactionOk(s, i, Probe(s.client, a, f, |s.requests|))
  {
    var reaction := Probe(s.client, a, f, |s.requests|);
    if reaction.sends == [] {
      ProbeEndOk(s, i, a, f);
      ProbeEnds(s.client, a, f, |s.requests|);
      QuietOk(s, i, a, reaction.attempt);
    } else {
      assert reaction == Reaction(a.(next := 3, stops := a.stops + [|s.requests|], phase := Probing(None)), [SendStop(3)]);
      ProbeRetryOk(s, i, a, reaction.attempt);
      assert React(s, i, reaction).requests == s.requests + [Stop(i, a.id, 3)];
    }
  }

  lemma ProbeOk(s: System, i: nat)
    requires Inv(s) && Enabled(s, Read(i)) && s.attempts[i].phase.Probing?
    ensures ReactionOk(s, i, Probe(s.client, Popped(s, i), Head(s, i), |s.requests|))
  {
    PoppedOk(s, i);
    ProbeReactionOk(s, i, Popped(s, i), Head(s, i));
  }
}
