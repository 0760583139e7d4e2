/** The TypeScript client's waiting teardown: what it makes of the frames it reads, and that a
    number it returns is the number of a stop the runtime accepted. */
module TypeScriptProbe {
  import opened Options
  import opened Protocol
  import opened Attempts
  import opened Outbound
  import opened StopReplies
  import opened SessionSystem
  import opened SessionInvariant
  import opened SessionRuns

  // ---------- what it does

  /** A reply to the stop that decides something: a refusal with any other code is passed over. */
  predicate Decides(f: Reply, stop: nat) {
    f.InReplyTo() == Some(stop)
    && (f.Stopped? || CodeOf(f) == Some(InvalidRequest) || CodeOf(f) == Some(AgentNotFound))
  }

  function FirstDecision(frames: seq<Reply>, stop: nat): (k: nat)
    ensures k <= |frames|
    ensures k < |frames| ==> Decides(frames[k], stop)
    ensures forall j :: 0 <= j < k ==> !Decides(frames[j], stop)
  {
    if frames == [] || Decides(frames[0], stop) then 0 else 1 + FirstDecision(frames[1..], stop)
  }

  /** The stop `first` turns out to be out of order. */
  predicate Retries(frames: seq<Reply>, first: nat) {
    var k := FirstDecision(frames, first);
    k < |frames| && OutcomeOf(frames[k]) == WrongSequence
  }

  /** Whether the stop is confirmed. */
  predicate Confirms(frames: seq<Reply>, stop: nat) {
    var k := FirstDecision(frames, stop);
    k < |frames| && frames[k].Stopped?
  }

  /** What the probe returns, its two stops being the requests `first` and `second`: the second
      is sent when the first is out of order, and only what is read after that can confirm it. */
  function ProbeResult(frames: seq<Reply>, first: nat, second: nat, preSend: nat, postSend: nat): Option<nat> {
    if Confirms(frames, first) then Some(preSend)
    else if Retries(frames, first) && Confirms(frames[FirstDecision(frames, first) + 1..], second) then Some(postSend)
    else None
  }

  /** `stopAgentWithSequenceProbe`. */
  method StopAgentWithSequenceProbe(transport: Outbox, sender: nat, id: SessionId, preSend: nat, postSend: nat,
                                    frames: seq<Reply>)
    returns (result: Option<nat>)
    modifies transport
    ensures
      var n := |old(transport.sent)|;
      result == ProbeResult(frames, n, n + 1, preSend, postSend)
      && transport.sent == old(transport.sent) + [Stop(sender, id, preSend)]
                           + if Retries(frames, n) then [Stop(sender, id, postSend)] else []
  {
    var outstanding := transport.Send(Stop(sender, id, preSend));
    var sequence := preSend;
    var retried := false;
    var read := 0;
    ghost var n := outstanding;
    ghost var from := 0;
    while read < |frames|
      invariant from <= read <= |frames|
      invariant FirstDecision(frames[from..], outstanding) == read - from + FirstDecision(frames[read..], outstanding)
      invariant if retried
                then Retries(frames, n) && from == FirstDecision(frames, n) + 1 && outstanding == n + 1 && sequence == postSend
                else from == 0 && outstanding == n && sequence == preSend
      invariant transport.sent == old(transport.sent) + [Stop(sender, id, preSend)] + if retried then [Stop(sender, id, postSend)] else []
    {
      var f := frames[read];
      ghost var unread := frames[read..];
      assert unread[0] == f && unread[1..] == frames[read + 1..];
      ghost var at := FirstDecision(frames[from..], outstanding);
      assert Decides(f, outstanding) ==> at == read - from;
      read := read + 1;
      if f.InReplyTo() != Some(outstanding) {
        continue;
      }
      if f.Stopped? {
        return Some(sequence);
      }
      if CodeOf(f) == Some(InvalidRequest) {
        if retried {
          break;
        }
        retried := true;
        outstanding := transport.Send(Stop(sender, id, postSend));
        sequence := postSend;
        from := read;
        continue;
      }
      if CodeOf(f) == Some(AgentNotFound) {
        break;
      }
    }
    result := None;
  }

  // ---------- what it is worth

  /** A refused stop is always refused in a way that decides. */
  predicate RefusalsDecide(frames: seq<Reply>, stop: nat) {
    forall k :: 0 <= k < |frames| && Answers(Go(true), frames[k], stop) ==> Decides(frames[k], stop)
  }

  lemma {:induction false} FirstDecisionIsAnswer(frames: seq<Reply>, stop: nat)
    requires RefusalsDecide(frames, stop)
    ensures FirstDecision(frames, stop) == FirstAnswer(Go(true), frames, stop)
  {
    if frames != [] {
      assert Answers(Go(true), frames[0], stop) == Decides(frames[0], stop);
      FirstDecisionIsAnswer(frames[1..], stop);
    }
  }

  lemma ConfirmsIsEnd(frames: seq<Reply>, stop: nat)
    requires RefusalsDecide(frames, stop)
    ensures EndOf(Go(true), frames, stop) == Done(Confirmed) <==> Confirms(frames, stop)
    ensures Retries(frames, stop) ==> !Confirms(frames, stop)
  {
    FirstDecisionIsAnswer(frames, stop);
  }

  /** Where every refusal decides, the probe sends and confirms what the attempt of the step
      system does. */
  lemma ProbeMeetsAttempt(i: nat, a: Attempt, sent: seq<Request>, frames: seq<Reply>, preSend: nat)
    requires a.phase.Probing? && a.phase.retry.Some? && a.stops != []
    requires RefusalsDecide(frames, a.stops[|a.stops| - 1]) && RefusalsDecide(frames, |sent|)
    ensures
      var first, post := a.stops[|a.stops| - 1], a.phase.retry.value;
      var (a', sent') := Await(Go(true), i, a, sent, frames);
      sent' == sent + (if Retries(frames, first) then [Stop(i, a.id, post)] else [])
      && (a'.phase == Done(Confirmed) <==> ProbeResult(frames, first, |sent|, preSend, post).Some?)
  {
    var first := a.stops[|a.stops| - 1];
    ConfirmsIsEnd(frames, first);
    if Retries(frames, first) {
      RetryMeetsAttempt(i, a, sent, frames);
    } else {
      SingleMeetsAttempt(i, a, sent, frames);
    }
  }

  lemma SingleMeetsAttempt(i: nat, a: Attempt, sent: seq<Request>, frames: seq<Reply>)
    requires a.phase.Probing? && a.stops != [] && RefusalsDecide(frames, a.stops[|a.stops| - 1])
    requires !Retries(frames, a.stops[|a.stops| - 1])
    ensures Await(Go(true), i, a, sent, frames) == (a.(phase := EndOf(Go(true), frames, a.stops[|a.stops| - 1])), sent)
  {
    FirstDecisionIsAnswer(frames, a.stops[|a.stops| - 1]);
    AwaitEnds(Go(true), i, a, sent, frames);
  }

  lemma RetryMeetsAttempt(i: nat, a: Attempt, sent: seq<Request>, frames: seq<Reply>)
    requires a.phase.Probing? && a.phase.retry.Some? && a.stops != []
    requires RefusalsDecide(frames, a.stops[|a.stops| - 1]) && RefusalsDecide(frames, |sent|)
    requires Retries(frames, a.stops[|a.stops| - 1])
    ensures
      var rest := frames[FirstDecision(frames, a.stops[|a.stops| - 1]) + 1..];
      var (a', sent') := Await(Go(true), i, a, sent, frames);
      sent' == sent + [Stop(i, a.id, a.phase.retry.value)]
      && (a'.phase == Done(Confirmed) <==> Confirms(rest, |sent|))
  {
    var first := a.stops[|a.stops| - 1];
    FirstDecisionIsAnswer(frames, first);
    AwaitRetries(Go(true), i, a, sent, frames);
    var rest := frames[FirstDecision(frames, first) + 1..];
    assert RefusalsDecide(rest, |sent|);
    ConfirmsIsEnd(rest, |sent|);
  }

  /** The frames are replies the runtime gave. */
  predicate FromLog(s: System, frames: seq<Reply>) {
    forall k :: 0 <= k < |frames| ==> frames[k] in s.log
  }

  predicate IsStop(s: System, r: nat, i: nat, number: nat) {
    i < |s.attempts| && r < |s.requests| && s.requests[r] == Stop(i, s.attempts[i].id, number)
  }

  /** The runtime accepted the stop, and what may since be registered under the id is another
      attempt's. */
  predicate Removed(s: System, r: nat, i: nat) {
    i < |s.attempts| && GrantedAt(s, r)
    && (s.attempts[i].id in s.registry ==> s.registry[s.attempts[i].id].start != s.attempts[i].startMsg)
  }

  lemma StoppedIsUnregistered(s: System, i: nat, a: Attempt)
    requires i < |s.attempts| && s.attempts[i] == a && IdentityOk(s, i, a) && HasStopped(s, a)
    requires a.id in s.registry ==> RegistrationOk(s, a.id)
    ensures a.id in s.registry ==> s.registry[a.id].start != a.startMsg
  {
  }

  lemma GrantedStopRemoves(client: Client, s: System, r: nat, i: nat, number: nat)
    requires Reachable(client, s) && (client == Go(false) ==> Tame(s))
    requires IsStop(s, r, i, number) && GrantedAt(s, r)
    ensures Removed(s, r, i)
  {
    ReachableInv(client, s);
    var a := s.attempts[i];
    assert RequestOk(s, r) && AttemptOk(s, i, a);
    StoppedIsUnregistered(s, i, a);
  }

  /** What decides about a stop is its verdict. */
  lemma DecisionIsVerdict(client: Client, s: System, f: Reply, r: nat)
    requires Reachable(client, s) && (client == Go(false) ==> Tame(s)) && f in s.log
    ensures f.InReplyTo() == Some(r) && f.Stopped? ==> GrantedAt(s, r)
    ensures f.InReplyTo() == Some(r) && GrantedAt(s, r) && r < |s.requests| && s.requests[r].Stop? ==> f.Stopped?
  {
    ReachableInv(client, s);
    var q :| 0 <= q < |s.log| && s.log[q] == f;
    assert ReplyOk(s, q);
  }

  /** The runtime refuses a stop only in ways that decide. */
  lemma LogDecides(client: Client, s: System, frames: seq<Reply>, r: nat)
    requires Reachable(client, s) && (client == Go(false) ==> Tame(s)) && FromLog(s, frames)
    requires r < |s.requests| && s.requests[r].Stop?
    ensures RefusalsDecide(frames, r)
  {
    ReachableInv(client, s);
    forall k | 0 <= k < |frames| && Answers(Go(true), frames[k], r) ensures Decides(frames[k], r) {
      var q :| 0 <= q < |s.log| && s.log[q] == frames[k];
      assert ReplyOk(s, q);
    }
  }

  predicate HasReply(frames: seq<Reply>, r: nat) {
    exists k :: 0 <= k < |frames| && frames[k].InReplyTo() == Some(r)
  }

  lemma ConfirmsIff(client: Client, s: System, frames: seq<Reply>, i: nat, r: nat, number: nat)
    requires Reachable(client, s) && (client == Go(false) ==> Tame(s)) && FromLog(s, frames)
    requires IsStop(s, r, i, number)
    ensures Confirms(frames, r) <==> GrantedAt(s, r) && HasReply(frames, r)
  {
    var k := FirstDecision(frames, r);
    if k < |frames| {
      DecisionIsVerdict(client, s, frames[k], r);
    }
    if j :| 0 <= j < |frames| && frames[j].InReplyTo() == Some(r) {
      DecisionIsVerdict(client, s, frames[j], r);
    }
  }

  /** The number the probe returns is that of a stop of its own which the runtime accepted, and
      with it went the attempt's registration. And it returns one whenever it has read the
      reply to an accepted stop. */
  lemma ResultIsTrue(client: Client, s: System, frames: seq<Reply>, i: nat, first: nat, second: nat, preSend: nat, postSend: nat)
    requires Reachable(client, s) && (client == Go(false) ==> Tame(s)) && FromLog(s, frames)
    requires IsStop(s, first, i, preSend) && (Retries(frames, first) ==> IsStop(s, second, i, postSend))
    ensures
      var result := ProbeResult(frames, first, second, preSend, postSend);
      && (result.Some? ==> exists r :: (r == first || r == second) && IsStop(s, r, i, result.value) && Removed(s, r, i))
      && (GrantedAt(s, first) && HasReply(frames, first) ==> result == Some(preSend))
      && (Retries(frames, first) && GrantedAt(s, second) && HasReply(frames[FirstDecision(frames, first) + 1..], second)
          ==> result == Some(postSend))
  {
    ConfirmsIff(client, s, frames, i, first, preSend);
    if GrantedAt(s, first) {
      GrantedStopRemoves(client, s, first, i, preSend);
    }
    if Retries(frames, first) {
      var rest := frames[FirstDecision(frames, first) + 1..];
      assert FromLog(s, rest);
      ConfirmsIff(client, s, rest, i, second, postSend);
      if GrantedAt(s, second) {
        GrantedStopRemoves(client, s, second, i, postSend);
      }
    }
  }
}
