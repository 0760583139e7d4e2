/** The client's counters against the runtime's, and what the two teardowns achieve. */
module SessionTheorems {
  import opened Options
  import opened Protocol
  import opened Attempts
  import opened SessionSystem
  import opened SessionInvariant
  import opened SessionSteps
  import opened SessionRuns

  // ---------- the runtime catches up

  /** The runtime serves as many requests as there are admissions, each message in order
      being judged as its admission says. */
  function ServeAll(s: System, admissions: seq<Verdict>): (t: System)
    requires |s.verdicts| + |admissions| <= |s.requests|
    ensures t.attempts == s.attempts && t.requests == s.requests && t.client == s.client
    ensures |t.verdicts| == |s.verdicts| + |admissions| && s.verdicts <= t.verdicts
    decreases |admissions|
  {
    if admissions == [] then s else ServeAll(ApplyServe(s, admissions[0]), admissions[1..])
  }

  lemma {:induction false} ServeAllKeepsInv(s: System, admissions: seq<Verdict>)
    requires Inv(s) && Tame(s) && |s.verdicts| + |admissions| <= |s.requests|
    ensures Inv(ServeAll(s, admissions))
    decreases |admissions|
  {
    if admissions != [] {
      ServeKeepsInv(s, admissions[0]);
      ServeAllKeepsInv(ApplyServe(s, admissions[0]), admissions[1..]);
    }
  }

  lemma {:induction false} ServeAllSplits(s: System, xs: seq<Verdict>, ys: seq<Verdict>)
    requires |s.verdicts| + |xs| + |ys| <= |s.requests|
    ensures ServeAll(s, xs + ys) == ServeAll(ServeAll(s, xs), ys)
    decreases |xs|
  {
    if xs == [] {
      assert xs + ys == ys;
    } else {
      assert (xs + ys)[0] == xs[0] && (xs + ys)[1..] == xs[1..] + ys;
      ServeAllSplits(ApplyServe(s, xs[0]), xs[1..], ys);
    }
  }

  // ---------- the bracket

  /** The sequences the client would stop with bracket what the runtime expects. */
  predicate Brackets(a: Attempt, expected: nat) {
    match a.unresolved
    case None => expected == a.next
    case Some(preSend) => expected == preSend || expected == a.next
  }

  /** An attempt that is under way and whose session is its own. */
  predicate UnderWay(s: System, i: nat) {
    i < |s.attempts| && (s.attempts[i].phase.Running? || s.attempts[i].phase.Failed?)
    && (Accepted(s, s.attempts[i]) || s.attempts[i].generated)
  }

  lemma BracketWhenServed(s: System, i: nat)
    requires Inv(s) && UnderWay(s, i)
    requires
      var a := s.attempts[i];
      Served(s, a.startMsg) && (a.messageMsg.Some? ==> Served(s, a.messageMsg.value))
    ensures
      var a := s.attempts[i];
      a.id in s.registry && s.registry[a.id].start == a.startMsg && Brackets(a, s.registry[a.id].expected)
  {
    var a := s.attempts[i];
    assert AttemptOk(s, i, a);
    assert RegistrationOk(s, a.id);
    assert RequestOk(s, a.startMsg);
  }

  /** Whatever the runtime makes of the queue, once it has served it the session is still
      registered to the attempt, and its counter is one the client reckons with. */
  lemma BracketOnceDrained(client: Client, s: System, i: nat, admissions: seq<Verdict>)
    requires Reachable(client, s) && (client == Go(false) ==> Tame(s)) && UnderWay(s, i)
    requires |s.verdicts| + |admissions| == |s.requests|
    ensures
      var a := s.attempts[i];
      var registry := ServeAll(s, admissions).registry;
      a.id in registry && registry[a.id].start == a.startMsg && Brackets(a, registry[a.id].expected)
  {
    ReachableInv(client, s);
    ServeAllKeepsInv(s, admissions);
    var t := ServeAll(s, admissions);
    assert AttemptOk(s, i, s.attempts[i]);
    assert AttemptOk(t, i, t.attempts[i]);
    BracketWhenServed(t, i);
  }

  // ---------- dropping

  /** Of an attempt's stops the runtime accepted exactly one. */
  predicate StoppedOnce(s: System, a: Attempt) {
    (|a.stops| == 1 && GrantedAt(s, a.stops[0]))
    || (|a.stops| == 2 && (GrantedAt(s, a.stops[0]) <==> !GrantedAt(s, a.stops[1])))
  }

  /** All that is left to serve is what a drop sent: one stop with the number expected, or
      two with two numbers one of which is. */
  predicate TailPending(t: System, i: nat) {
    i < |t.attempts| && t.attempts[i].id in t.registry &&
    var a := t.attempts[i];
    var expected := t.registry[a.id].expected;
    var r := |t.verdicts|;
    (a.stops == [r] && |t.requests| == r + 1 && t.requests[r] == Stop(i, a.id, expected))
    || (a.stops == [r, r + 1] && |t.requests| == r + 2 && (expected == 2 || expected == 3)
        && t.requests[r] == Stop(i, a.id, 2) && t.requests[r + 1] == Stop(i, a.id, 3))
  }

  lemma TailStops(t: System, i: nat, admissions: seq<Verdict>)
    requires TailPending(t, i) && |t.verdicts| + |admissions| == |t.requests|
    ensures
      var u := ServeAll(t, admissions);
      t.attempts[i].id !in u.registry && StoppedOnce(u, u.attempts[i])
  {
    var t1 := ApplyServe(t, admissions[0]);
    if |admissions| == 2 {
      assert admissions[1..] == [admissions[1]];
      assert ServeAll(t, admissions) == ServeAll(t1, [admissions[1]]);
      assert ServeAll(t1, [admissions[1]]) == ApplyServe(t1, admissions[1]);
    } else {
      assert ServeAll(t, admissions) == t1;
    }
  }

  /** `d` is `s` with what dropping attempt `i` puts at the end of the queue. */
  predicate DroppedFrom(s: System, d: System, i: nat) {
    i < |s.attempts| && i < |d.attempts| && d.verdicts == s.verdicts && d.registry == s.registry &&
    var a, a' := s.attempts[i], d.attempts[i];
    var r := |s.requests|;
    a'.id == a.id
    && (if a.unresolved.Some?
        then a.unresolved == Some(2) && a.next == 3
             && a'.stops == [r, r + 1] && d.requests == s.requests + [Stop(i, a.id, 2), Stop(i, a.id, 3)]
        else a'.stops == [r] && d.requests == s.requests + [Stop(i, a.id, a.next)])
  }

  lemma DropSends(s: System, i: nat)
    requires Reachable(Rust, s) && Enabled(s, Leave(i)) && MayStop(s.attempts[i]) && !s.attempts[i].phase.Done?
    ensures UnderWay(s, i) && DroppedFrom(s, ApplyLeave(s, i), i) && |s.verdicts| <= |s.requests|
  {
    ReachableInv(Rust, s);
    var a, d := s.attempts[i], ApplyLeave(s, i);
    assert AttemptOk(s, i, a);
    assert a.stops == [] && BracketOk(s, a);
    if a.unresolved.Some? {
      assert d.requests == s.requests + [Stop(i, a.id, 2), Stop(i, a.id, 3)];
    } else {
      assert d.requests == s.requests + [Stop(i, a.id, a.next)];
    }
  }

  /** Serving what was in the queue before the drop ends as it would have without it. */
  lemma {:induction false} QueueTailIsInert(s: System, d: System, admissions: seq<Verdict>)
    requires |s.verdicts| + |admissions| <= |s.requests| && s.requests <= d.requests
    requires s.verdicts == d.verdicts && s.registry == d.registry
    ensures ServeAll(s, admissions).registry == ServeAll(d, admissions).registry
    decreases |admissions|
  {
    if admissions != [] {
      assert d.requests[|s.verdicts|] == s.requests[|s.verdicts|];
      QueueTailIsInert(ApplyServe(s, admissions[0]), ApplyServe(d, admissions[0]), admissions[1..]);
    }
  }

  lemma DropMeetsBracket(s: System, d: System, i: nat, admissions: seq<Verdict>)
    requires Reachable(Rust, s) && UnderWay(s, i) && DroppedFrom(s, d, i)
    requires |s.verdicts| + |admissions| == |s.requests|
    ensures TailPending(ServeAll(d, admissions), i)
  {
    BracketOnceDrained(Rust, s, i, admissions);
    QueueTailIsInert(s, d, admissions);
    DropPending(s, d, ServeAll(d, admissions), i);
  }

  lemma DropPending(s: System, d: System, t: System, i: nat)
    requires DroppedFrom(s, d, i) && t.attempts == d.attempts && t.requests == d.requests
    requires |t.verdicts| == |s.requests|
    requires
      var a := s.attempts[i];
      a.id in t.registry && Brackets(a, t.registry[a.id].expected)
    ensures TailPending(t, i)
  {
  }

  lemma DroppedIsStopped(s: System, d: System, i: nat, admissions: seq<Verdict>)
    requires Reachable(Rust, s) && UnderWay(s, i) && DroppedFrom(s, d, i)
    requires |s.verdicts| <= |s.requests| && |s.verdicts| + |admissions| == |d.requests|
    ensures
      var u := ServeAll(d, admissions);
      s.attempts[i].id !in u.registry && StoppedOnce(u, u.attempts[i])
  {
    var n := |s.requests| - |s.verdicts|;
    assert admissions == admissions[..n] + admissions[n..];
    DropMeetsBracket(s, d, i, admissions[..n]);
    ServeAllSplits(d, admissions[..n], admissions[n..]);
    TailStops(ServeAll(d, admissions[..n]), i, admissions[n..]);
  }

  /** Dropping a Rust session that may be stopped: the runtime, once it has served what was
      sent up to then, has accepted exactly one of its stops and forgotten its id. */
  lemma DropUnregisters(s: System, i: nat, admissions: seq<Verdict>)
    requires Reachable(Rust, s) && Enabled(s, Leave(i)) && MayStop(s.attempts[i]) && !s.attempts[i].phase.Done?
    requires |s.verdicts| + |admissions| == |ApplyLeave(s, i).requests|
    ensures
      var d := ApplyLeave(s, i);
      d.verdicts == s.verdicts &&
      var u := ServeAll(d, admissions);
      s.attempts[i].id !in u.registry && StoppedOnce(u, u.attempts[i])
  {
    DropSends(s, i);
    DroppedIsStopped(s, ApplyLeave(s, i), i, admissions);
  }

  // ---------- the waiting probe

  /** What the waiting teardown did, in every state of every run: at most two stops; a second
      one only with the post-send number, after the pre-send one was answered as out of order;
      and if the answers came in time, the registration is gone. */
  lemma ProbeOutcome(client: Client, s: System, i: nat)
    requires Reachable(client, s) && (client == Go(false) ==> Tame(s)) && i < |s.attempts|
    ensures
      var a := s.attempts[i];
      && |a.stops| <= 2
      && (|a.stops| == 2 && (a.phase.Probing? || a.phase == Done(Confirmed) || a.phase == Done(TimedOut)) ==>
          DeniedAt(s, a.stops[0]) && s.verdicts[a.stops[0]] == Denied(InvalidRequest)
          && a.stops[0] < |s.requests| && a.stops[1] < |s.requests|
          && s.requests[a.stops[0]] == Stop(i, a.id, 2) && s.requests[a.stops[1]] == Stop(i, a.id, 3))
      && (a.phase == Done(Confirmed) ==> a.id in s.registry ==> s.registry[a.id].start != a.startMsg)
      && a.phase != Done(GaveUp)
  {
    ReachableInv(client, s);
    assert AttemptOk(s, i, s.attempts[i]);
    if s.attempts[i].id in s.registry {
      assert RegistrationOk(s, s.attempts[i].id);
    }
  }
}
