/** A run of three Go attempts on one session id, in which the second takes a late error of the
    first for the answer to its own start, and stops the third. */
module MisledRun {
  import opened Options
  import opened Protocol
  import opened Attempts
  import opened Routes
  import opened SessionSystem
  import opened SessionRuns

  lemma Take(s: System, step: Step) returns (s': System)
    requires Reachable(Go(false), s) && Enabled(s, step)
    ensures s' == Apply(s, step) && Reachable(Go(false), s')
  {
    ReachableStep(Go(false), s, step);
    s' := Apply(s, step);
  }

  /** The first of three Go attempts that share an id is accepted and sends its message. */
  lemma FirstStarts() returns (s: System)
    ensures Reachable(Go(false), s)
    ensures s == System(Go(false),
      [Attempt(7, false, true, 0, None, [], false, false, false, 2, None, Running, true, [], false)],
      [Start(0, 7, 1)], [Granted], map[7 := Registration(0, 2)], [Started(7, 0)], 0, map[7 := [0]])
  {
    s := Initial(Go(false));
    assert Run(Initial(Go(false)), []) == Some(s);
    assert RouteOf(s, 7) + [0] == [0];
    s := Take(s, Subscribe(7, false));
    assert s.attempts == [Subscribed(Go(false), 7, false, true)] && s.routes == map[7 := [0]];
    s := Take(s, Begin(0));
    assert s.attempts == [Attempt(7, false, true, 0, None, [], false, false, false, 2, None, Running, true, [], false)];
    assert s.requests == [Start(0, 7, 1)];
    s := Take(s, Serve(Granted));
    assert s.verdicts == [Granted] && s.registry == map[7 := Registration(0, 2)] && s.log == [Started(7, 0)];
  }

  lemma FirstIsAnswered() returns (s: System)
    ensures Reachable(Go(false), s)
    ensures s == System(Go(false),
      [Attempt(7, false, true, 0, None, [], false, false, false, 2, None, Running, true, [0], false)],
      [Start(0, 7, 1)], [Granted], map[7 := Registration(0, 2)], [Started(7, 0)], 1, map[7 := [0]])
  {
    s := FirstStarts();
    var begun := s.attempts[0];
    assert begun.inbox + [0] == [0] && Promoted([0], 0) == [0];
    assert Target(s, s.log[0]) == Some(0);
    assert Rerouted(s, s.log[0], Some(0)) == map[7 := [0]];
    s := Take(s, Dispatch);
    assert s.attempts == [begun.(inbox := [0])] && s.routes == map[7 := [0]];
  }

  lemma FirstRuns() returns (s: System)
    ensures Reachable(Go(false), s)
    ensures s == System(Go(false),
      [Attempt(7, false, true, 0, Some(1), [], true, true, false, 3, Some(2), Running, true, [], false)],
      [Start(0, 7, 1), Message(0, 7, 2)], [Granted], map[7 := Registration(0, 2)], [Started(7, 0)], 1, map[7 := [0]])
  {
    s := FirstIsAnswered();
    var begun := s.attempts[0];
    assert [0][1..] == [];
    s := Take(s, Read(0));
    assert s.attempts == [begun.(inbox := [], messageMsg := Some(1), startAccepted := true, startReplyObserved := true,
                                 next := 3, unresolved := Some(2))];
    assert s.requests == [Start(0, 7, 1), Message(0, 7, 2)];
  }

  /** Its message is admitted, and its run fails: the error is on its way. */
  lemma FirstFails() returns (s: System)
    ensures Reachable(Go(false), s)
    ensures s == System(Go(false),
      [Attempt(7, false, true, 0, Some(1), [], true, true, false, 3, Some(2), Running, true, [], false)],
      [Start(0, 7, 1), Message(0, 7, 2)], [Granted, Granted], map[7 := Registration(0, 3)],
      [Started(7, 0), Acked(7, 1), RunError(7, OtherCode, 0)], 1, map[7 := [0]])
  {
    s := FirstRuns();
    s := Take(s, Serve(Granted));
    assert s.verdicts == [Granted, Granted] && s.registry == map[7 := Registration(0, 3)];
    assert s.log == [Started(7, 0), Acked(7, 1)];
    s := Take(s, EmitError(7, OtherCode));
    assert s.log == [Started(7, 0), Acked(7, 1), RunError(7, OtherCode, 0)];
  }

  /** It is aborted before it reads that, and leaves. */
  lemma FirstIsAborted() returns (s: System)
    ensures Reachable(Go(false), s)
    ensures s == System(Go(false),
      [Attempt(7, false, true, 0, Some(1), [2], true, true, true, 3, Some(2), Done(Unwaited), true, [], false)],
      [Start(0, 7, 1), Message(0, 7, 2), Stop(0, 7, 3)], [Granted, Granted], map[7 := Registration(0, 3)],
      [Started(7, 0), Acked(7, 1), RunError(7, OtherCode, 0)], 1, map[7 := [0]])
  {
    s := FirstFails();
    var a := s.attempts[0];
    s := Take(s, TearDown(0, false));
    assert [] + [2] == [2];
    assert s.attempts == [a.(settled := true, stops := [2], phase := Done(Unwaited))];
    assert s.requests == [Start(0, 7, 1), Message(0, 7, 2), Stop(0, 7, 3)];
  }

  lemma FirstLeaves() returns (s: System)
    ensures Reachable(Go(false), s)
    ensures s == System(Go(false), [Gone()],
      [Start(0, 7, 1), Message(0, 7, 2), Stop(0, 7, 3)], [Granted, Granted], map[7 := Registration(0, 3)],
      [Started(7, 0), Acked(7, 1), RunError(7, OtherCode, 0)], 1, map[])
  {
    s := FirstIsAborted();
    var stopped := s.attempts[0];
    s := Take(s, Leave(0));
    assert Without([0], 0) == [];
    assert s.attempts == [stopped.(open := false)] && s.routes == map[];
    assert s.requests == [Start(0, 7, 1), Message(0, 7, 2), Stop(0, 7, 3)];
  }

  lemma FirstIsGone() returns (s: System)
    ensures Reachable(Go(false), s)
    ensures s == System(Go(false), [Gone()],
      [Start(0, 7, 1), Message(0, 7, 2), Stop(0, 7, 3)], [Granted, Granted, Granted], map[],
      [Started(7, 0), Acked(7, 1), RunError(7, OtherCode, 0), Stopped(7, 2)], 1, map[])
  {
    s := FirstLeaves();
    s := Take(s, Serve(Granted));
    assert s.verdicts == [Granted, Granted, Granted] && s.registry == map[];
    assert s.log == [Started(7, 0), Acked(7, 1), RunError(7, OtherCode, 0), Stopped(7, 2)];
  }

  function Gone(): Attempt {
    Attempt(7, false, true, 0, Some(1), [2], true, true, true, 3, Some(2), Done(Unwaited), false, [], false)
  }

  function Waiting(start: nat): Attempt {
    Attempt(7, false, true, start, None, [], false, false, false, 2, None, Running, true, [], false)
  }

  /** The second and the third subscribe. */
  lemma OthersSubscribe() returns (s: System)
    ensures Reachable(Go(false), s)
    ensures var ready := Subscribed(Go(false), 7, false, true);
            s == System(Go(false), [Gone(), ready, ready],
              [Start(0, 7, 1), Message(0, 7, 2), Stop(0, 7, 3)], [Granted, Granted, Granted], map[],
              [Started(7, 0), Acked(7, 1), RunError(7, OtherCode, 0), Stopped(7, 2)], 1, map[7 := [1, 2]])
  {
    s := FirstIsGone();
    var ready := Subscribed(Go(false), 7, false, true);
    assert RouteOf(s, 7) + [1] == [1];
    s := Take(s, Subscribe(7, false));
    assert s.routes == map[7 := [1]] && s.attempts == [Gone(), ready];
    assert RouteOf(s, 7) + [2] == [1, 2];
    s := Take(s, Subscribe(7, false));
    assert s.routes == map[7 := [1, 2]];
    assert s.attempts == [Gone(), ready, ready];
  }

  /** The third's start goes out first. */
  lemma OthersBegin() returns (s: System)
    ensures Reachable(Go(false), s)
    ensures s == System(Go(false), [Gone(), Waiting(4), Waiting(3)],
      [Start(0, 7, 1), Message(0, 7, 2), Stop(0, 7, 3), Start(2, 7, 1), Start(1, 7, 1)],
      [Granted, Granted, Granted], map[],
      [Started(7, 0), Acked(7, 1), RunError(7, OtherCode, 0), Stopped(7, 2)], 1, map[7 := [1, 2]])
  {
    s := OthersSubscribe();
    var ready := s.attempts[1];
    s := Take(s, Begin(2));
    assert s.attempts == [Gone(), ready, Waiting(3)];
    assert s.requests == [Start(0, 7, 1), Message(0, 7, 2), Stop(0, 7, 3), Start(2, 7, 1)];
    s := Take(s, Begin(1));
    assert s.attempts == [Gone(), Waiting(4), Waiting(3)];
    assert s.requests == [Start(0, 7, 1), Message(0, 7, 2), Stop(0, 7, 3), Start(2, 7, 1), Start(1, 7, 1)];
  }

  /** The acknowledgement of the first's message and the error both go to the second. */
  lemma ErrorReachesSecond() returns (s: System)
    ensures Reachable(Go(false), s)
    ensures s == System(Go(false), [Gone(), Waiting(4).(inbox := [1, 2]), Waiting(3)],
      [Start(0, 7, 1), Message(0, 7, 2), Stop(0, 7, 3), Start(2, 7, 1), Start(1, 7, 1)],
      [Granted, Granted, Granted], map[],
      [Started(7, 0), Acked(7, 1), RunError(7, OtherCode, 0), Stopped(7, 2)], 3, map[7 := [1, 2]])
  {
    s := OthersBegin();
    assert Target(s, s.log[1]) == Some(1) && Target(s, s.log[2]) == Some(1);
    assert [] + [1] == [1] && [1] + [2] == [1, 2];
    s := Take(s, Dispatch);
    assert s.attempts == [Gone(), Waiting(4).(inbox := [1]), Waiting(3)];
    assert Target(s, s.log[2]) == Some(1);
    s := Take(s, Dispatch);
    assert s.attempts == [Gone(), Waiting(4).(inbox := [1, 2]), Waiting(3)];
  }

  // ---------- from here on, the frames of the whole run

  const REQUESTS: seq<Request> :=
    [Start(0, 7, 1), Message(0, 7, 2), Stop(0, 7, 3), Start(2, 7, 1), Start(1, 7, 1), Stop(1, 7, 2),
     Message(2, 7, 2), Stop(2, 7, 2)]

  const VERDICTS: seq<Verdict> :=
    [Granted, Granted, Granted, Granted, Denied(AgentBusy), Granted, Denied(AgentNotFound), Denied(AgentNotFound)]

  const LOG: seq<Reply> :=
    [Started(7, 0), Acked(7, 1), RunError(7, OtherCode, 0), Stopped(7, 2), Started(7, 3), Refused(7, 4, AgentBusy),
     Stopped(7, 5), Refused(7, 6, AgentNotFound), Refused(7, 7, AgentNotFound)]

  /** The second attempt has stopped; so many requests have been sent and served, and so many
      frames routed. */
  ghost predicate At(s: System, sent: nat, served: nat, routed: nat, third: Attempt, registry: Registry, route: seq<nat>) {
    Reachable(Go(false), s) && s.client == Go(false)
    && sent <= |REQUESTS| && 3 <= served <= |VERDICTS| && routed <= served + 1
    && |s.attempts| == 3 && s.attempts[0] == Gone() && s.attempts[2] == third
    && s.attempts[1].open && s.attempts[1].startMsg == 4 && s.attempts[1].messageMsg == None && s.attempts[1].id == 7
    && !s.attempts[1].phase.Ready?
    && s.requests == REQUESTS[..sent] && s.verdicts == VERDICTS[..served] && s.log == LOG[..served + 1]
    && s.dispatched == routed && s.registry == registry && s.routes == map[7 := route]
  }

  lemma SecondIsMisled() returns (s: System)
    ensures Reachable(Go(false), s)
    ensures s == System(Go(false),
      [Gone(), Waiting(4).(startReplyObserved := true, phase := Failed, misled := true), Waiting(3)],
      [Start(0, 7, 1), Message(0, 7, 2), Stop(0, 7, 3), Start(2, 7, 1), Start(1, 7, 1)],
      [Granted, Granted, Granted], map[],
      [Started(7, 0), Acked(7, 1), RunError(7, OtherCode, 0), Stopped(7, 2)], 3, map[7 := [1, 2]])
  {
    s := ErrorReachesSecond();
    var requests := s.requests;
    assert [1, 2][1..] == [2] && [2][1..] == [] && requests + [] == requests;
    s := Take(s, Read(1));
    assert s.attempts == [Gone(), Waiting(4).(inbox := [2]), Waiting(3)];
    s := Take(s, Read(1));
    assert s.attempts == [Gone(), Waiting(4).(startReplyObserved := true, phase := Failed, misled := true), Waiting(3)];
  }

  lemma SecondStops() returns (s: System)
    ensures At(s, 6, 3, 3, Waiting(3), map[], [1, 2])
  {
    s := SecondIsMisled();
    s := Take(s, TearDown(1, true));
    assert s.requests == REQUESTS[..6];
    assert VERDICTS[..3] == [Granted, Granted, Granted];
    assert LOG[..4] == [Started(7, 0), Acked(7, 1), RunError(7, OtherCode, 0), Stopped(7, 2)];
  }

  lemma ServeNext(s: System, sent: nat, n: nat, routed: nat, third: Attempt, registry: Registry, route: seq<nat>)
    returns (s': System)
    requires At(s, sent, n, routed, third, registry, route) && n < sent
    requires Decide(registry, REQUESTS[n], Granted) == VERDICTS[n] && Answer(n, REQUESTS[n], VERDICTS[n]) == LOG[n + 1]
    ensures At(s', sent, n + 1, routed, third, Settle(registry, n, REQUESTS[n], VERDICTS[n]), route)
  {
    assert s.requests[n] == REQUESTS[n];
    s' := Take(s, Serve(Granted));
    assert VERDICTS[..n + 1] == VERDICTS[..n] + [VERDICTS[n]];
    assert LOG[..n + 2] == LOG[..n + 1] + [LOG[n + 1]];
  }

  /** The second has asked to stop the session that the third has meanwhile been granted. */
  lemma ThirdIsGranted() returns (s: System)
    ensures At(s, 6, 5, 3, Waiting(3), map[7 := Registration(3, 2)], [1, 2])
  {
    s := SecondStops();
    s := ServeNext(s, 6, 3, 3, Waiting(3), map[], [1, 2]);
    assert Settle(map[], 3, REQUESTS[3], Granted) == map[7 := Registration(3, 2)];
    s := ServeNext(s, 6, 4, 3, Waiting(3), map[7 := Registration(3, 2)], [1, 2]);
  }

  // ---------- what becomes of the third

  /** A frame that is not for the second alone goes to the first on the route. */
  lemma RouteNext(s: System, sent: nat, served: nat, q: nat, third: Attempt, registry: Registry, route: seq<nat>, to: nat)
    returns (s': System)
    requires At(s, sent, served, q, third, registry, route) && q <= served
    requires Target(s, LOG[q]) == Some(to) && 1 <= to <= 2 && third.open
    ensures At(s', sent, served, q + 1, if to == 2 then third.(inbox := third.inbox + [q]) else third, registry,
               if LOG[q].Started? then Promoted(route, to) else route)
  {
    assert s.log[q] == LOG[q] && LOG[q].id == 7;
    s' := Take(s, Dispatch);
  }

  function Asking(): Attempt {
    Waiting(3).(startAccepted := true, startReplyObserved := true, messageMsg := Some(6), next := 3, unresolved := Some(2))
  }

  function Probed(): Attempt {
    Asking().(settled := true, next := 2, unresolved := None, stops := [7], phase := Probing(Some(3)))
  }

  lemma ThirdIsStopped() returns (s: System)
    ensures At(s, 6, 6, 5, Waiting(3).(inbox := [4]), map[], [2, 1])
  {
    s := ThirdIsGranted();
    s := ServeNext(s, 6, 5, 3, Waiting(3), map[7 := Registration(3, 2)], [1, 2]);
    assert Settle(map[7 := Registration(3, 2)], 5, REQUESTS[5], Granted) == map[];
    s := RouteNext(s, 6, 6, 3, Waiting(3), map[], [1, 2], 1);
    s := RouteNext(s, 6, 6, 4, Waiting(3), map[], [1, 2], 2);
    assert Promoted([1, 2], 2) == [2, 1] && [] + [4] == [4];
  }

  /** It sends its message, which nobody expects, and is torn down. */
  lemma ThirdProbes() returns (s: System)
    ensures At(s, 8, 6, 5, Probed(), map[], [2, 1])
  {
    s := ThirdIsStopped();
    assert [4][1..] == [] && s.log[4] == LOG[4];
    s := Take(s, Read(2));
    assert s.attempts[2] == Asking() && s.requests == REQUESTS[..7];
    s := Take(s, TearDown(2, true));
    assert s.attempts[2] == Probed() && s.requests == REQUESTS[..8];
  }

  lemma ThirdIsRefused() returns (s: System)
    ensures At(s, 8, 8, 5, Probed(), map[], [2, 1])
  {
    s := ThirdProbes();
    s := ServeNext(s, 8, 6, 5, Probed(), map[], [2, 1]);
    s := ServeNext(s, 8, 7, 5, Probed(), map[], [2, 1]);
  }

  lemma ThirdGets(s: System, q: nat, inbox: seq<nat>) returns (s': System)
    requires At(s, 8, 8, q, Probed().(inbox := inbox), map[], [2, 1]) && 6 <= q <= 8
    ensures At(s', 8, 8, q + 1, Probed().(inbox := inbox + [q]), map[], [2, 1])
  {
    assert s.requests[5] == REQUESTS[5] && s.requests[6] == REQUESTS[6] && s.requests[7] == REQUESTS[7];
    s' := RouteNext(s, 8, 8, q, Probed().(inbox := inbox), map[], [2, 1], 2);
  }

  lemma SecondGets(s: System) returns (s': System)
    requires At(s, 8, 8, 5, Probed(), map[], [2, 1])
    ensures At(s', 8, 8, 6, Probed(), map[], [2, 1])
  {
    assert s.requests[4] == REQUESTS[4];
    s' := RouteNext(s, 8, 8, 5, Probed(), map[], [2, 1], 1);
  }

  lemma ThirdIsAnswered() returns (s: System)
    ensures At(s, 8, 8, 9, Probed().(inbox := [6, 7, 8]), map[], [2, 1])
  {
    s := ThirdIsRefused();
    s := SecondGets(s);
    s := ThirdGets(s, 6, []);
    s := ThirdGets(s, 7, [6]);
    s := ThirdGets(s, 8, [6, 7]);
    assert [] + [6] == [6] && [6] + [7] == [6, 7] && [6, 7] + [8] == [6, 7, 8];
  }

  lemma PassOver(s: System, q: nat, rest: seq<nat>) returns (s': System)
    requires At(s, 8, 8, 9, Probed().(inbox := [q] + rest), map[], [2, 1]) && q < 8 && LOG[q].InReplyTo() != Some(7)
    ensures At(s', 8, 8, 9, Probed().(inbox := rest), map[], [2, 1])
  {
    assert ([q] + rest)[1..] == rest && s.requests + [] == s.requests;
    s' := Take(s, Read(2));
  }

  /** Its stop is refused as that of a session that is not there: it gives up. */
  lemma ThirdGivesUp() returns (s: System)
    ensures Reachable(Go(false), s) && |s.attempts| == 3 && s.attempts[2].phase == Done(GaveUp)
  {
    s := ThirdIsAnswered();
    assert [6] + [7, 8] == [6, 7, 8] && [7] + [8] == [7, 8];
    s := PassOver(s, 6, [7, 8]);
    s := PassOver(s, 7, [8]);
    s := Take(s, Read(2));
  }
}
