/** Every step of the session system keeps the invariant. */
module SessionSteps {
  import opened Options
  import opened Protocol
  import opened Attempts
  import opened Routes
  import opened SessionSystem
  import opened SessionInvariant

  /** One more frame in the log, unless it is a foreign one, disturbs no reading. */
  lemma ReadingKept(s: System, s': System, a: Attempt)
    requires ReadingOk(s, a) && s.dispatched == s'.dispatched <= |s.log|
    requires |s'.log| == |s.log| + 1 && s'.log[..|s.log|] == s.log
    requires Live(s', a) ==> Live(s, a) && !Foreign(s'.log, |s.log|, a.id, a.startMsg)
    ensures ReadingOk(s', a)
  {
    assert forall p :: 0 <= p < |s.log| ==> s'.log[p] == s.log[p];
    if Live(s', a) {
      forall p, q | 0 <= p < q < |s'.log| && s'.log[p] == Started(a.id, a.startMsg)
        ensures !Foreign(s'.log, q, a.id, a.startMsg)
      {
        assert q < |s.log| ==> !Foreign(s.log, q, a.id, a.startMsg);
      }
      if a.startAccepted {
        forall k | 0 <= k < |a.inbox| ensures !Foreign(s'.log, a.inbox[k], a.id, a.startMsg) {
          assert !Foreign(s.log, a.inbox[k], a.id, a.startMsg);
        }
        forall q | s'.dispatched <= q < |s'.log| ensures !Foreign(s'.log, q, a.id, a.startMsg) {
          assert q < |s.log| ==> !Foreign(s.log, q, a.id, a.startMsg);
        }
      }
    }
  }

  // ---------- who misled whom

  /** What no step of an attempt undoes. */
  predicate Follows(a: Attempt, a': Attempt) {
    a'.id == a.id && a'.generated == a.generated
    && (!a.phase.Ready? ==> a'.startMsg == a.startMsg && !a'.phase.Ready?)
    && (a.messageMsg.Some? ==> a'.messageMsg == a.messageMsg)
    && a.stops <= a'.stops
  }

  lemma RivalKept(s: System, s': System, i: nat, j: nat)
    requires Rival(s, i, j) && |s.attempts| <= |s'.attempts| && s.verdicts <= s'.verdicts
    requires Follows(s.attempts[i], s'.attempts[i]) && Follows(s.attempts[j], s'.attempts[j])
    ensures Rival(s', i, j)
  {
  }

  /** Attempt `i` may be misled: it already was, or it has a rival. */
  ghost predicate MayBeMisled(s: System, i: nat) {
    i < |s.attempts| && (s.attempts[i].misled || exists j :: Rival(s, i, j))
  }

  lemma RivalsKept(s: System, s': System)
    requires RivalsOk(s) && |s.attempts| <= |s'.attempts| && s.verdicts <= s'.verdicts
    requires forall j :: 0 <= j < |s.attempts| ==> Follows(s.attempts[j], s'.attempts[j])
    requires forall i :: 0 <= i < |s'.attempts| && s'.attempts[i].misled ==> MayBeMisled(s, i)
    ensures RivalsOk(s')
  {
    forall i | 0 <= i < |s'.attempts| && s'.attempts[i].misled ensures exists j :: Rival(s', i, j) {
      assert MayBeMisled(s, i);
      var j :| Rival(s, i, j);
      RivalKept(s, s', i, j);
    }
  }

  lemma RivalsRemain(s: System, s': System)
    requires RivalsOk(s) && s'.attempts == s.attempts && s.verdicts <= s'.verdicts
    ensures RivalsOk(s')
  {
    forall j | 0 <= j < |s.attempts| ensures Follows(s.attempts[j], s'.attempts[j]) {
    }
    RivalsKept(s, s');
  }

  /** Neither the runtime nor the attempt has moved, but for what is in its inbox. */
  lemma StandingKept(s: System, s': System, i: nat, a: Attempt, a': Attempt)
    requires StandingOk(s, i, a) && a' == a.(inbox := a'.inbox)
    requires s'.requests == s.requests && s'.verdicts == s.verdicts && s'.registry == s.registry && s'.client == s.client
    ensures StandingOk(s', i, a')
  {
  }

  // ---------- the runtime serves a request

  /** The registration a message or a stop of attempt `a` meets: its own if it is live; else
      none, or one that does not take it. */
  predicate Meets(s: System, q: Request, a: Attempt) {
    if Live(s, a) then a.id in s.registry && s.registry[a.id] == Registration(a.startMsg, Expects(s, a))
    else a.id in s.registry ==> q.Stop? && q.number != s.registry[a.id].expected
  }

  /** A misled attempt's stop that does not meet its own registration can meet only that of
      its one rival, which expects another number. */
  lemma MisledMeets(s: System, r: nat, i: nat)
    requires Inv(s) && Paired(s.attempts) && r == |s.verdicts| < |s.requests|
    requires i == s.requests[r].sender && s.requests[r].Stop? && i < |s.attempts| && s.attempts[i].misled
    ensures s.attempts[i].id == s.requests[r].id && Meets(s, s.requests[r], s.attempts[i])
  {
    assert RequestOk(s, r);
    var a := s.attempts[i];
    assert AttemptOk(s, i, a);
    if a.id in s.registry {
      assert RegistrationOk(s, a.id);
      var k := s.requests[s.registry[a.id].start].sender;
      if k != i {
        var j :| Rival(s, i, j);
        OneRival(s.attempts, i, j, k);
      }
    }
  }

  lemma OneRival(attempts: seq<Attempt>, i: nat, j: nat, k: nat)
    requires Paired(attempts) && i < |attempts| && j < |attempts| && k < |attempts|
    requires attempts[i].id == attempts[j].id == attempts[k].id && j != i && k != i
    ensures j == k
  {
    if j < k < i || k < j < i || j < i < k || k < i < j || i < j < k || i < k < j {
      assert false;
    }
  }

  /** A message or a stop the runtime is about to serve meets its own registration, or none,
      or one that rejects it: it is never taken for another attempt's. */
  lemma MeetsOwnRegistration(s: System, r: nat, i: nat)
    requires Inv(s) && Tame(s) && r == |s.verdicts| < |s.requests|
    requires i == s.requests[r].sender
    requires s.requests[r].Message? || s.requests[r].Stop?
    ensures i < |s.attempts| && s.attempts[i].id == s.requests[r].id
    ensures Meets(s, s.requests[r], s.attempts[i])
  {
    assert RequestOk(s, r);
    var a := s.attempts[i];
    assert AttemptOk(s, i, a);
    if a.id in s.registry {
      assert RegistrationOk(s, a.id);
    }
    if a.misled {
      MisledMeets(s, r, i);
    } else if s.requests[r].Stop? && r == a.stops[0] {
      assert Live(s, a);
    } else if s.requests[r].Stop? {
      assert r == a.stops[1];
      if GrantedAt(s, a.stops[0]) {
        assert a.stops[1] == a.stops[0] + 1;
        assert a.id !in s.registry;
      } else {
        assert DeniedAt(s, a.stops[0]);
        assert Live(s, a);
      }
    } else {
      assert Live(s, a);
    }
  }

  /** What serving a request leaves of an attempt that did not send it. */
  lemma ServeKeepsOther(s: System, admission: Verdict, j: nat, b: Attempt)
    requires |s.verdicts| < |s.requests| && s.dispatched <= |s.log|
    requires AttemptOk(s, j, b) && s.requests[|s.verdicts|].sender != j
    requires s.requests[|s.verdicts|].Message? || s.requests[|s.verdicts|].Stop?
      ==> !(Live(s, b) && b.id == s.requests[|s.verdicts|].id)
          || Decide(s.registry, s.requests[|s.verdicts|], admission).Denied?
    ensures AttemptOk(ApplyServe(s, admission), j, b)
  {
    var s' := ApplyServe(s, admission);
    assert StandingOk(s', j, b);
    ReadingKept(s, s', b);
  }

  lemma ServeKeepsStarter(s: System, admission: Verdict, i: nat, a: Attempt)
    requires |s.verdicts| < |s.requests| && s.dispatched <= |s.log| && AttemptOk(s, i, a)
    requires s.requests[|s.verdicts|] == Start(i, a.id, 1) && a.startMsg == |s.verdicts|
    requires a.id in s.registry ==> !a.generated
    requires forall p :: 0 <= p < |s.log| ==> s.log[p] != Started(a.id, a.startMsg)
    ensures AttemptOk(ApplyServe(s, admission), i, a)
  {
    var s' := ApplyServe(s, admission);
    assert StandingOk(s', i, a);
    assert !a.startAccepted;
    assert InboxOk(s', a) && UnreadOk(s', a) && OrderOk(s', a);
  }

  lemma ServeKeepsOwn(s: System, admission: Verdict, i: nat, a: Attempt)
    requires |s.verdicts| < |s.requests| && s.dispatched <= |s.log| && AttemptOk(s, i, a)
    requires
      var q := s.requests[|s.verdicts|];
      q.sender == i && q.id == a.id && !q.Start?
      && (q.Message? ==> a.messageMsg == Some(|s.verdicts|) && q.number == 2)
      && (q.Stop? ==> |s.verdicts| in a.stops)
      && (!q.ToolResult? ==> Meets(s, q, a))
    ensures AttemptOk(ApplyServe(s, admission), i, a)
  {
    var q := s.requests[|s.verdicts|];
    if q.ToolResult? {
      ServeKeepsCaller(s, admission, i, a);
    } else if q.Message? {
      ServeKeepsMessenger(s, admission, i, a);
    } else {
      ServeKeepsStopper(s, admission, i, a);
    }
    ReadingKept(s, ApplyServe(s, admission), a);
  }

  lemma ServeKeepsCaller(s: System, admission: Verdict, i: nat, a: Attempt)
    requires |s.verdicts| < |s.requests| && StandingOk(s, i, a)
    requires s.requests[|s.verdicts|] == ToolResult(i, a.id)
    ensures StandingOk(ApplyServe(s, admission), i, a) && (Live(ApplyServe(s, admission), a) ==> Live(s, a))
  {
  }

  lemma ServeKeepsMessenger(s: System, admission: Verdict, i: nat, a: Attempt)
    requires |s.verdicts| < |s.requests| && StandingOk(s, i, a)
    requires s.requests[|s.verdicts|] == Message(i, a.id, 2) && a.messageMsg == Some(|s.verdicts|)
    requires Meets(s, s.requests[|s.verdicts|], a)
    ensures StandingOk(ApplyServe(s, admission), i, a) && (Live(ApplyServe(s, admission), a) ==> Live(s, a))
  {
    var s' := ApplyServe(s, admission);
    assert IdentityOk(s', i, a) && StartOk(s', a) && StopsOk(s', a);
    assert PhaseOk(s', a) && MisledOk(s', a);
  }

  lemma ServeKeepsStopper(s: System, admission: Verdict, i: nat, a: Attempt)
    requires |s.verdicts| < |s.requests| && StandingOk(s, i, a)
    requires s.requests[|s.verdicts|].Stop? && s.requests[|s.verdicts|].sender == i && s.requests[|s.verdicts|].id == a.id
    requires |s.verdicts| in a.stops && Meets(s, s.requests[|s.verdicts|], a)
    ensures StandingOk(ApplyServe(s, admission), i, a) && (Live(ApplyServe(s, admission), a) ==> Live(s, a))
  {
    var s' := ApplyServe(s, admission);
    assert IdentityOk(s', i, a) && StartOk(s', a);
    assert StopsOk(s', a);
    assert PhaseOk(s', a) && MisledOk(s', a);
  }

  lemma ServeKeepsSender(s: System, admission: Verdict)
    requires Inv(s) && Tame(s) && |s.verdicts| < |s.requests|
    ensures
      var i := s.requests[|s.verdicts|].sender;
      i < |s.attempts| && AttemptOk(ApplyServe(s, admission), i, s.attempts[i])
  {
    var r := |s.verdicts|;
    var q := s.requests[r];
    assert RequestOk(s, r);
    var i := q.sender;
    var a := s.attempts[i];
    assert AttemptOk(s, i, a);
    if q.Start? {
      if a.id in s.registry {
        assert RegistrationOk(s, a.id);
      }
      forall p | 0 <= p < |s.log| ensures s.log[p] != Started(a.id, r) {
        assert ReplyOk(s, p);
      }
      ServeKeepsStarter(s, admission, i, a);
    } else {
      if !q.ToolResult? {
        MeetsOwnRegistration(s, r, i);
      }
      ServeKeepsOwn(s, admission, i, a);
    }
  }

  /** A registration whose owner sent nothing is as good as before. */
  lemma ServeKeepsRegistration(s: System, admission: Verdict, id: SessionId, j: nat, b: Attempt)
    requires |s.verdicts| < |s.requests| && s.requests[|s.verdicts|].sender != j
    requires id in s.registry && RegistrationOk(s, id)
    requires s.requests[s.registry[id].start].sender == j && s.attempts[j] == b && IdentityOk(s, j, b)
    requires id in ApplyServe(s, admission).registry && ApplyServe(s, admission).registry[id] == s.registry[id]
    ensures RegistrationOk(ApplyServe(s, admission), id)
  {
  }

  lemma ServeKeepsOwnRegistration(s: System, admission: Verdict, i: nat, a: Attempt)
    requires |s.verdicts| < |s.requests| && IdentityOk(s, i, a)
    requires i < |s.attempts| && s.attempts[i] == a && !a.phase.Ready?
    requires a.id in ApplyServe(s, admission).registry
    requires
      var q := s.requests[|s.verdicts|];
      q.sender == i && q.id == a.id
      && (q.Start? ==> a.startMsg == |s.verdicts| && a.id !in s.registry)
      && (q.Message? ==> a.messageMsg == Some(|s.verdicts|) && q.number == 2)
      && (q.Stop? ==> |s.verdicts| in a.stops)
      && (a.id in s.registry ==> Live(s, a) && s.registry[a.id] == Registration(a.startMsg, Expects(s, a)))
    ensures RegistrationOk(ApplyServe(s, admission), a.id)
  {
  }

  lemma ServeKeepsRegistrations(s: System, admission: Verdict, id: SessionId)
    requires Inv(s) && Tame(s) && |s.verdicts| < |s.requests| && id in ApplyServe(s, admission).registry
    ensures RegistrationOk(ApplyServe(s, admission), id)
  {
    var r := |s.verdicts|;
    var q := s.requests[r];
    assert RequestOk(s, r);
    var a := s.attempts[q.sender];
    assert AttemptOk(s, q.sender, a);
    if id in s.registry {
      assert RegistrationOk(s, id);
      if s.requests[s.registry[id].start].sender != q.sender {
        ServeKeepsOthersRegistration(s, admission, id);
      } else {
        ServeKeepsOwnRegistration(s, admission, q.sender, a);
      }
    } else {
      ServeKeepsOwnRegistration(s, admission, q.sender, a);
    }
  }

  lemma ServeKeepsOthersRegistration(s: System, admission: Verdict, id: SessionId)
    requires Inv(s) && Tame(s) && |s.verdicts| < |s.requests|
    requires id in s.registry && id in ApplyServe(s, admission).registry && RegistrationOk(s, id)
    requires s.requests[s.registry[id].start].sender != s.requests[|s.verdicts|].sender
    ensures RegistrationOk(ApplyServe(s, admission), id)
  {
    var r := |s.verdicts|;
    var j := s.requests[s.registry[id].start].sender;
    assert RequestOk(s, r);
    assert AttemptOk(s, j, s.attempts[j]);
    if s.requests[r].Message? || s.requests[r].Stop? {
      MeetsOwnRegistration(s, r, s.requests[r].sender);
    }
    ServeKeepsRegistration(s, admission, id, j, s.attempts[j]);
  }

  lemma ServeKeepsAttempt(s: System, admission: Verdict, j: nat)
    requires Inv(s) && Tame(s) && |s.verdicts| < |s.requests| && j < |s.attempts|
    ensures AttemptOk(ApplyServe(s, admission), j, s.attempts[j])
  {
    var r := |s.verdicts|;
    if j == s.requests[r].sender {
      ServeKeepsSender(s, admission);
    } else {
      assert RequestOk(s, r);
      assert AttemptOk(s, j, s.attempts[j]);
      if s.requests[r].Message? || s.requests[r].Stop? {
        MeetsOwnRegistration(s, r, s.requests[r].sender);
      }
      ServeKeepsOther(s, admission, j, s.attempts[j]);
    }
  }

  lemma ServeKeepsReplies(s: System, admission: Verdict, p: nat)
    requires Inv(s) && |s.verdicts| < |s.requests| && p <= |s.log|
    ensures ReplyOk(ApplyServe(s, admission), p)
  {
    assert RequestOk(s, |s.verdicts|);
    if p < |s.log| {
      ServeKeepsReply(s, admission, p);
    }
  }

  lemma ServeKeepsReply(s: System, admission: Verdict, p: nat)
    requires |s.verdicts| < |s.requests| && p < |s.log| && ReplyOk(s, p)
    ensures ReplyOk(ApplyServe(s, admission), p)
  {
  }

  lemma ServeKeepsInv(s: System, admission: Verdict)
    requires Inv(s) && Tame(s) && |s.verdicts| < |s.requests|
    ensures Inv(ApplyServe(s, admission))
  {
    var s' := ApplyServe(s, admission);
    forall j | 0 <= j < |s.attempts| ensures AttemptOk(s', j, s'.attempts[j]) {
      ServeKeepsAttempt(s, admission, j);
    }
    forall id | id in s'.registry ensures RegistrationOk(s', id) {
      ServeKeepsRegistrations(s, admission, id);
    }
    forall r | 0 <= r < |s'.requests| ensures RequestOk(s', r) {
      assert RequestOk(s, r);
    }
    forall p | 0 <= p < |s'.log| ensures ReplyOk(s', p) {
      ServeKeepsReplies(s, admission, p);
    }
    RivalsRemain(s, s');
  }

  /** The live registration `id` emits `f`. */
  lemma EmitKeepsAttempt(s: System, f: Reply, j: nat, b: Attempt)
    requires AttemptOk(s, j, b) && s.dispatched <= |s.log|
    requires f.OfRun() && f.id in s.registry && OriginOf(f) == s.registry[f.id].start
    ensures AttemptOk(s.(log := s.log + [f]), j, b)
  {
    var s' := s.(log := s.log + [f]);
    assert StandingOk(s', j, b);
    ReadingKept(s, s', b);
  }

  lemma EmitKeepsRegistration(s: System, f: Reply, id: SessionId)
    requires id in s.registry && RegistrationOk(s, id)
    ensures RegistrationOk(s.(log := s.log + [f]), id)
  {
  }

  lemma EmitKeepsReply(s: System, f: Reply, p: nat)
    requires p < |s.log| && ReplyOk(s, p)
    ensures ReplyOk(s.(log := s.log + [f]), p)
  {
  }

  lemma EmitKeepsInv(s: System, f: Reply)
    requires Inv(s) && f.OfRun() && f.id in s.registry
    requires s.registry[f.id].expected > 2 && OriginOf(f) == s.registry[f.id].start
    ensures Inv(s.(log := s.log + [f]))
  {
    var s' := s.(log := s.log + [f]);
    assert RegistrationOk(s, f.id);
    EmitKeepsReplies(s, f);
    EmitKeepsRequests(s, f);
    forall j | 0 <= j < |s.attempts| ensures AttemptOk(s', j, s'.attempts[j]) {
      EmitKeepsAttempt(s, f, j, s.attempts[j]);
    }
    forall id | id in s'.registry ensures RegistrationOk(s', id) {
      EmitKeepsRegistration(s, f, id);
    }
    RivalsRemain(s, s');
  }

  lemma EmitKeepsReplies(s: System, f: Reply)
    requires forall q :: 0 <= q < |s.log| ==> ReplyOk(s, q)
    requires f.OfRun() && f.id in s.registry && RegistrationOk(s, f.id)
    requires s.registry[f.id].expected > 2 && OriginOf(f) == s.registry[f.id].start
    ensures forall q :: 0 <= q <= |s.log| ==> ReplyOk(s.(log := s.log + [f]), q)
  {
    forall p | 0 <= p < |s.log| ensures ReplyOk(s.(log := s.log + [f]), p) {
      EmitKeepsReply(s, f, p);
    }
  }

  lemma EmitKeepsRequests(s: System, f: Reply)
    requires forall r :: 0 <= r < |s.requests| ==> RequestOk(s, r)
    ensures forall r :: 0 <= r < |s.requests| ==> RequestOk(s.(log := s.log + [f]), r)
  {
    forall r | 0 <= r < |s.requests| ensures RequestOk(s.(log := s.log + [f]), r) {
      assert RequestOk(s, r);
    }
  }

  // ---------- the client side moves

  /** The requests `a'` has and `a` has not are later than `r`. */
  predicate SentSince(a: Attempt, a': Attempt, r: nat) {
    (a.phase.Ready? && !a'.phase.Ready? ==> a'.startMsg >= r)
    && (a'.messageMsg != a.messageMsg ==> a'.messageMsg.Some? && a'.messageMsg.value >= r)
    && (forall k :: |a.stops| <= k < |a'.stops| ==> a'.stops[k] >= r)
  }

  /** The runtime has done nothing between `s` and `s'`; the queue may have grown. */
  predicate RuntimeIdle(s: System, s': System) {
    |s.verdicts| <= |s.requests| <= |s'.requests| && s'.requests[..|s.requests|] == s.requests
    && s'.verdicts == s.verdicts && s'.registry == s.registry && s'.log == s.log && s'.client == s.client
  }

  lemma IdleKeepsRegistration(s: System, s': System, id: SessionId, b: Attempt, b': Attempt)
    requires RuntimeIdle(s, s') && id in s.registry && RegistrationOk(s, id)
    requires
      var j := s.requests[s.registry[id].start].sender;
      j < |s'.attempts| && s.attempts[j] == b && s'.attempts[j] == b' && Follows(b, b') && SentSince(b, b', |s.requests|)
      && |b'.stops| <= 2
    ensures RegistrationOk(s', id)
  {
    assert s'.requests[s.registry[id].start] == s.requests[s.registry[id].start];
    assert HasStopped(s', b') == HasStopped(s, b);
  }

  lemma IdleKeepsRequest(s: System, s': System, r: nat)
    requires RuntimeIdle(s, s') && r < |s.requests| && RequestOk(s, r)
    requires
      var j := s.requests[r].sender;
      j < |s'.attempts| && Follows(s.attempts[j], s'.attempts[j])
    ensures RequestOk(s', r)
  {
    assert s'.requests[r] == s.requests[r];
  }

  lemma IdleKeepsReply(s: System, s': System, p: nat)
    requires RuntimeIdle(s, s') && p < |s.log| && ReplyOk(s, p)
    requires |s.attempts| <= |s'.attempts|
    requires forall j :: 0 <= j < |s.attempts| ==> Follows(s.attempts[j], s'.attempts[j])
    ensures ReplyOk(s', p)
  {
    assert forall r :: 0 <= r < |s.requests| ==> s'.requests[r] == s.requests[r];
  }

  /** With the runtime idle, only what the attempts know has to be shown again. */
  lemma IdleKeepsInv(s: System, s': System)
    requires Inv(s) && RuntimeIdle(s, s') && |s.attempts| <= |s'.attempts| && s'.dispatched <= |s'.log|
    requires forall j :: 0 <= j < |s.attempts| ==>
      Follows(s.attempts[j], s'.attempts[j]) && SentSince(s.attempts[j], s'.attempts[j], |s.requests|)
    requires forall j :: 0 <= j < |s'.attempts| ==> AttemptOk(s', j, s'.attempts[j])
    requires forall r :: |s.requests| <= r < |s'.requests| ==> RequestOk(s', r)
    requires IdsOk(s'.attempts) && RoutesOk(s'.attempts, s'.routes)
    requires forall i :: 0 <= i < |s'.attempts| && s'.attempts[i].misled ==> MayBeMisled(s, i)
    ensures Inv(s')
  {
    RivalsKept(s, s');
    forall j | 0 <= j < |s'.attempts| ensures |s'.attempts[j].stops| <= 2 {
      assert AttemptOk(s', j, s'.attempts[j]);
    }
    IdleKeepsRegistrations(s, s');
    IdleKeepsRequests(s, s');
    IdleKeepsReplies(s, s');
    IdleKeepsLastStop(s, s');
  }

  lemma IdleKeepsRegistrations(s: System, s': System)
    requires RuntimeIdle(s, s') && |s.attempts| <= |s'.attempts|
    requires forall id :: id in s.registry ==> RegistrationOk(s, id)
    requires forall j :: 0 <= j < |s.attempts| ==>
      Follows(s.attempts[j], s'.attempts[j]) && SentSince(s.attempts[j], s'.attempts[j], |s.requests|)
    requires forall j :: 0 <= j < |s'.attempts| ==> |s'.attempts[j].stops| <= 2
    ensures forall id :: id in s'.registry ==> RegistrationOk(s', id)
  {
    forall id | id in s'.registry ensures RegistrationOk(s', id) {
      assert RegistrationOk(s, id);
      var j := s.requests[s.registry[id].start].sender;
      IdleKeepsRegistration(s, s', id, s.attempts[j], s'.attempts[j]);
    }
  }

  lemma IdleKeepsRequests(s: System, s': System)
    requires RuntimeIdle(s, s') && |s.attempts| <= |s'.attempts|
    requires forall r :: 0 <= r < |s.requests| ==> RequestOk(s, r)
    requires forall j :: 0 <= j < |s.attempts| ==> Follows(s.attempts[j], s'.attempts[j])
    ensures forall r :: 0 <= r < |s.requests| ==> RequestOk(s', r)
  {
    forall r | 0 <= r < |s.requests| ensures RequestOk(s', r) {
      assert RequestOk(s, r);
      IdleKeepsRequest(s, s', r);
    }
  }

  lemma IdleKeepsReplies(s: System, s': System)
    requires RuntimeIdle(s, s') && |s.attempts| <= |s'.attempts|
    requires forall p :: 0 <= p < |s.log| ==> ReplyOk(s, p)
    requires forall j :: 0 <= j < |s.attempts| ==> Follows(s.attempts[j], s'.attempts[j])
    ensures forall p :: 0 <= p < |s'.log| ==> ReplyOk(s', p)
  {
    forall p | 0 <= p < |s'.log| ensures ReplyOk(s', p) {
      IdleKeepsReply(s, s', p);
    }
  }

  lemma IdleKeepsLastStop(s: System, s': System)
    requires RuntimeIdle(s, s') && LastStopOk(s)
    ensures LastStopOk(s')
  {
    assert forall r :: 0 <= r < |s.requests| ==> s'.requests[r] == s.requests[r];
  }

  /** More requests in the queue change nothing for an attempt that did not act. */
  lemma IdleKeepsAttempt(s: System, s': System, j: nat, b: Attempt)
    requires AttemptOk(s, j, b) && RuntimeIdle(s, s') && s'.dispatched == s.dispatched
    ensures AttemptOk(s', j, b)
  {
    assert forall r :: 0 <= r < |s.requests| ==> s'.requests[r] == s.requests[r];
    assert StandingOk(s', j, b);
  }

  // ---------- the reader routes a frame

  lemma TargetOwnsSession(s: System, q: nat)
    requires Inv(s) && q < |s.log|
    ensures
      var target := Target(s, s.log[q]);
      target.Some? ==> target.value < |s.attempts| && s.attempts[target.value].id == s.log[q].id
  {
    assert ReplyOk(s, q);
    var f := s.log[q];
    if f.InReplyTo().Some? {
      assert RequestOk(s, f.to);
    }
  }

  /** Attempt `b` gets the next frame, or nothing. */
  lemma DispatchKeepsAttempt(s: System, s': System, j: nat, b: Attempt, b': Attempt)
    requires AttemptOk(s, j, b) && s.dispatched < |s.log|
    requires s' == s.(dispatched := s.dispatched + 1, attempts := s'.attempts, routes := s'.routes)
    requires b' == b || (b' == b.(inbox := b.inbox + [s.dispatched]) && s.log[s.dispatched].id == b.id)
    ensures AttemptOk(s', j, b')
  {
    StandingKept(s, s', j, b, b');
    assert OrderOk(s', b') && InboxOk(s', b');
    if b'.startAccepted && Live(s', b') {
      forall k | 0 <= k < |b'.inbox| ensures !Foreign(s'.log, b'.inbox[k], b'.id, b'.startMsg) {
        assert !Foreign(s.log, b'.inbox[k], b.id, b.startMsg);
      }
      forall q | s'.dispatched <= q < |s'.log| ensures !Foreign(s'.log, q, b'.id, b'.startMsg) {
        assert !Foreign(s.log, q, b.id, b.startMsg);
      }
    }
  }

  lemma DispatchKeepsRoutes(s: System)
    requires RoutesOk(s.attempts, s.routes) && s.dispatched < |s.log|
    ensures RoutesOk(s.attempts, ApplyDispatch(s).routes)
  {
    var f := s.log[s.dispatched];
    if f.id in s.routes && Target(s, f).Some? {
      PromoteKeepsRoutes(s.attempts, s.routes, f.id, Target(s, f).value);
    }
  }

  lemma PromoteKeepsRoutes(attempts: seq<Attempt>, routes: map<SessionId, seq<nat>>, id: SessionId, i: nat)
    requires RoutesOk(attempts, routes) && id in routes
    ensures RoutesOk(attempts, routes[id := Promoted(routes[id], i)])
  {
    var route := Promoted(routes[id], i);
    PromotedIsPermutation(routes[id], i);
    forall k | 0 <= k < |route| ensures route[k] < |attempts| && attempts[route[k]].id == id {
      assert route[k] in multiset(route);
      assert route[k] in routes[id];
    }
  }

  /** Routing changes the inbox of one attempt at most, one of the frame's session. */
  lemma DispatchDelivers(s: System, j: nat)
    requires s.dispatched < |s.log| && j < |s.attempts|
    requires
      var target := Target(s, s.log[s.dispatched]);
      target.Some? ==> target.value < |s.attempts| && s.attempts[target.value].id == s.log[s.dispatched].id
    ensures |ApplyDispatch(s).attempts| == |s.attempts|
    ensures
      var b, b', s' := s.attempts[j], ApplyDispatch(s).attempts[j], ApplyDispatch(s);
      s' == s.(dispatched := s.dispatched + 1, attempts := s'.attempts, routes := s'.routes)
      && (b' == b || (b' == b.(inbox := b.inbox + [s.dispatched]) && s.log[s.dispatched].id == b.id))
  {
  }

  lemma DispatchKeepsOne(s: System, j: nat)
    requires Inv(s) && s.dispatched < |s.log| && j < |s.attempts|
    ensures |ApplyDispatch(s).attempts| == |s.attempts|
    ensures
      var b, b' := s.attempts[j], ApplyDispatch(s).attempts[j];
      AttemptOk(ApplyDispatch(s), j, b') && b' == b.(inbox := b'.inbox)
  {
    TargetOwnsSession(s, s.dispatched);
    DispatchDelivers(s, j);
    DispatchKeepsAttempt(s, ApplyDispatch(s), j, s.attempts[j], ApplyDispatch(s).attempts[j]);
  }

  lemma DispatchKeepsInv(s: System)
    requires Inv(s) && s.dispatched < |s.log|
    ensures Inv(ApplyDispatch(s))
  {
    var s' := ApplyDispatch(s);
    DispatchKeepsRoutes(s);
    assert |s'.attempts| == |s.attempts|;
    forall j | 0 <= j < |s.attempts|
      ensures AttemptOk(s', j, s'.attempts[j]) && s'.attempts[j] == s.attempts[j].(inbox := s'.attempts[j].inbox)
    {
      DispatchKeepsOne(s, j);
    }
    InboxesKeepInv(s, s');
  }

  /** Only inboxes and routes have changed. */
  lemma InboxesKeepInv(s: System, s': System)
    requires Inv(s) && RuntimeIdle(s, s') && s'.requests == s.requests && |s'.attempts| == |s.attempts|
    requires s'.dispatched <= |s'.log| && RoutesOk(s.attempts, s'.routes)
    requires forall j :: 0 <= j < |s.attempts| ==>
      AttemptOk(s', j, s'.attempts[j]) && s'.attempts[j] == s.attempts[j].(inbox := s'.attempts[j].inbox)
    ensures Inv(s')
  {
    forall j | 0 <= j < |s.attempts|
      ensures Follows(s.attempts[j], s'.attempts[j]) && SentSince(s.attempts[j], s'.attempts[j], |s.requests|)
    {
      InboxFollows(s.attempts[j], s'.attempts[j], |s.requests|);
    }
    KeptIds(s.attempts, s'.attempts, s'.routes);
    IdleKeepsInv(s, s');
  }

  lemma InboxFollows(b: Attempt, b': Attempt, r: nat)
    requires b' == b.(inbox := b'.inbox)
    ensures Follows(b, b') && SentSince(b, b', r)
  {
  }

  lemma KeptIds(attempts: seq<Attempt>, attempts': seq<Attempt>, routes: map<SessionId, seq<nat>>)
    requires IdsOk(attempts) && RoutesOk(attempts, routes) && |attempts'| == |attempts|
    requires forall j :: 0 <= j < |attempts| ==>
      attempts'[j].id == attempts[j].id && attempts'[j].generated == attempts[j].generated
    ensures IdsOk(attempts') && RoutesOk(attempts', routes)
  {
  }

  // ---------- a new attempt

  lemma SubscribeKeepsIds(s: System, id: SessionId, generated: bool)
    requires Inv(s) && Enabled(s, Subscribe(id, generated))
    ensures
      var s' := ApplySubscribe(s, id, generated);
      IdsOk(s'.attempts) && RoutesOk(s'.attempts, s'.routes)
  {
  }

  lemma SubscribedIsOk(s: System, i: nat, client: Client, id: SessionId, generated: bool, ownsRoute: bool)
    ensures
      var a := Subscribed(client, id, generated, ownsRoute);
      AttemptOk(s, i, a) && !a.misled
  {
  }

  lemma SubscribeKeepsAttempt(s: System, id: SessionId, generated: bool, j: nat)
    requires |s.verdicts| <= |s.requests| && j <= |s.attempts|
    requires j < |s.attempts| ==> AttemptOk(s, j, s.attempts[j])
    ensures
      var s' := ApplySubscribe(s, id, generated);
      AttemptOk(s', j, s'.attempts[j])
  {
    var s' := ApplySubscribe(s, id, generated);
    if j < |s.attempts| {
      IdleKeepsAttempt(s, s', j, s.attempts[j]);
    } else {
      SubscribedIsOk(s', j, s.client, id, generated, s'.attempts[j].ownsRoute);
    }
  }

  lemma SubscribeFollows(s: System, id: SessionId, generated: bool, j: nat)
    requires j < |s.attempts|
    ensures
      var b, b' := s.attempts[j], ApplySubscribe(s, id, generated).attempts[j];
      Follows(b, b') && SentSince(b, b', |s.requests|)
  {
  }

  lemma SubscribeMisleads(s: System, id: SessionId, generated: bool, j: nat)
    requires j <= |s.attempts| && ApplySubscribe(s, id, generated).attempts[j].misled
    ensures MayBeMisled(s, j)
  {
  }

  lemma SubscribeKeepsInv(s: System, id: SessionId, generated: bool)
    requires Inv(s) && Enabled(s, Subscribe(id, generated))
    ensures Inv(ApplySubscribe(s, id, generated))
  {
    var s' := ApplySubscribe(s, id, generated);
    SubscribeKeepsIds(s, id, generated);
    forall j | 0 <= j < |s.attempts|
      ensures Follows(s.attempts[j], s'.attempts[j]) && SentSince(s.attempts[j], s'.attempts[j], |s.requests|)
    {
      SubscribeFollows(s, id, generated, j);
    }
    forall j | 0 <= j < |s'.attempts|
      ensures AttemptOk(s', j, s'.attempts[j]) && (s'.attempts[j].misled ==> MayBeMisled(s, j))
    {
      SubscribeKeepsAttempt(s, id, generated, j);
      if s'.attempts[j].misled {
        SubscribeMisleads(s, id, generated, j);
      }
    }
    IdleKeepsInv(s, s');
  }

  lemma BegunIsOk(s: System, i: nat)
    requires Inv(s) && Enabled(s, Begin(i))
    ensures
      var s' := ApplyBegin(s, i);
      AttemptOk(s', i, s'.attempts[i]) && RequestOk(s', |s.requests|)
  {
    var s' := ApplyBegin(s, i);
    assert AttemptOk(s, i, s.attempts[i]);
    assert StandingOk(s', i, s'.attempts[i]);
  }

  lemma BeginKeepsInv(s: System, i: nat)
    requires Inv(s) && Enabled(s, Begin(i))
    ensures Inv(ApplyBegin(s, i))
  {
    var s' := ApplyBegin(s, i);
    BegunIsOk(s, i);
    forall j | 0 <= j < |s'.attempts| ensures AttemptOk(s', j, s'.attempts[j]) {
      if j != i {
        IdleKeepsAttempt(s, s', j, s.attempts[j]);
      }
    }
    assert s'.requests[..|s.requests|] == s.requests;
    KeptIds(s.attempts, s'.attempts, s'.routes);
    IdleKeepsInv(s, s');
  }

  // ---------- an attempt acts

  lemma ReactKeepsInv(s: System, i: nat, reaction: Reaction, routes: map<SessionId, seq<nat>>)
    requires Inv(s) && i < |s.attempts|
    requires Follows(s.attempts[i], reaction.attempt) && SentSince(s.attempts[i], reaction.attempt, |s.requests|)
    requires
      var s' := React(s, i, reaction).(routes := routes);
      AttemptOk(s', i, reaction.attempt) && forall r :: |s.requests| <= r < |s'.requests| ==> RequestOk(s', r)
    requires RoutesOk(s.attempts, routes) && (reaction.attempt.misled ==> MayBeMisled(s, i))
    ensures Inv(React(s, i, reaction).(routes := routes))
  {
    var s' := React(s, i, reaction).(routes := routes);
    forall j | 0 <= j < |s'.attempts| ensures AttemptOk(s', j, s'.attempts[j]) {
      if j != i {
        IdleKeepsAttempt(s, s', j, s.attempts[j]);
      }
    }
    IdleKeepsInv(s, s');
  }
}
