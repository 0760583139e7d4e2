/** The invariant holds in every state a run can reach. */
module SessionRuns {
  import opened Options
  import opened Protocol
  import opened Attempts
  import opened AttemptFrames
  import opened Routes
  import opened SessionSystem
  import opened SessionInvariant
  import opened SessionSteps
  import opened SessionReactions

  // ---------- the invariant over runs

  lemma WithoutKeepsRoutes(s: System, i: nat)
    requires RoutesOk(s.attempts, s.routes) && i < |s.attempts|
    ensures
      var id := s.attempts[i].id;
      RoutesOk(s.attempts, SetRoute(s.routes, id, Without(RouteOf(s, id), i)))
  {
  }

  lemma LeaveKeepsInv(s: System, i: nat)
    requires Inv(s) && Enabled(s, Leave(i))
    ensures Inv(ApplyLeave(s, i))
  {
    var a := s.attempts[i];
    var reaction := if s.client.Rust? then Drop(a, |s.requests|) else Reaction(a.(open := false), []);
    WithoutKeepsRoutes(s, i);
    if s.client.Rust? {
      DropOk(s, i);
    } else {
      CloseOk(s, i);
    }
    ReactionKeepsInv(s, i, reaction, SetRoute(s.routes, a.id, Without(RouteOf(s, a.id), i)));
  }

  lemma ReactionKeepsInv(s: System, i: nat, reaction: Reaction, routes: map<SessionId, seq<nat>>)
    requires Inv(s) && i < |s.attempts| && ReactionOk(s, i, reaction) && RoutesOk(s.attempts, routes)
    ensures Inv(React(s, i, reaction).(routes := routes))
  {
    var s', s'' := React(s, i, reaction), React(s, i, reaction).(routes := routes);
    StandingKept(s', s'', i, reaction.attempt, reaction.attempt);
    assert ReadingOk(s'', reaction.attempt);
    forall r | |s.requests| <= r < |s''.requests| ensures RequestOk(s'', r) {
      assert RequestOk(s', r);
    }
    ReactKeepsInv(s, i, reaction, routes);
  }

  lemma StepKeepsInv(s: System, step: Step)
    requires Inv(s) && Enabled(s, step) && Tame(s)
    ensures Inv(Apply(s, step))
  {
    match step
    case Subscribe(id, generated) => SubscribeKeepsInv(s, id, generated);
    case Begin(i) => BeginKeepsInv(s, i);
    case Serve(admission) => ServeKeepsInv(s, admission);
    case EmitOutput(id, kind) => EmitKeepsInv(s, Output(id, kind, s.registry[id].start));
    case EmitError(id, code) => EmitKeepsInv(s, RunError(id, code, s.registry[id].start));
    case Dispatch => DispatchKeepsInv(s);
    case Read(i) => ReadKeepsInv(s, i);
    case TearDown(i, probe) => TearDownKeepsInv(s, i, probe);
    case FinishUp(i) => FinishUpKeepsInv(s, i);
    case Expire(i) => ExpireKeepsInv(s, i);
    case Leave(i) => LeaveKeepsInv(s, i);
  }

  lemma TearDownKeepsInv(s: System, i: nat, probe: bool)
    requires Inv(s) && Enabled(s, TearDown(i, probe))
    ensures Inv(Apply(s, TearDown(i, probe)))
  {
    TeardownOk(s, i, probe);
    ReactionKeepsInv(s, i, Teardown(s.client, s.attempts[i], probe, |s.requests|), s.routes);
  }

  lemma FinishUpKeepsInv(s: System, i: nat)
    requires Inv(s) && Enabled(s, FinishUp(i))
    ensures Inv(Apply(s, FinishUp(i)))
  {
    FinishOk(s, i);
    ReactionKeepsInv(s, i, Finish(s.attempts[i], |s.requests|), s.routes);
  }

  lemma ExpireKeepsInv(s: System, i: nat)
    requires Inv(s) && Enabled(s, Expire(i))
    ensures Inv(Apply(s, Expire(i)))
  {
    ExpireOk(s, i);
    ReactionKeepsInv(s, i, Reaction(s.attempts[i].(phase := Done(TimedOut)), []), s.routes);
  }

  lemma ReadKeepsInv(s: System, i: nat)
    requires Inv(s) && Enabled(s, Read(i))
    ensures Inv(ApplyRead(s, i))
  {
    var a := s.attempts[i].(inbox := s.attempts[i].inbox[1..]);
    var f := s.log[s.attempts[i].inbox[0]];
    if a.phase.Running? {
      var reaction := Observe(s.client, a, f, |s.requests|);
      assert ApplyRead(s, i) == React(s, i, reaction);
      ObserveOk(s, i);
      ReactionKeepsInv(s, i, reaction, s.routes);
    } else {
      ProbeOk(s, i);
      ReactionKeepsInv(s, i, Probe(s.client, a, f, |s.requests|), s.routes);
    }
  }

  /** An attempt keeps its id; only what Go reads before acceptance can mislead it, and it
      stays misled. */
  predicate MisledKept(client: Client, a: Attempt, a': Attempt) {
    a'.id == a.id && (a.misled ==> a'.misled) && (client != Go(false) && !a.misled ==> !a'.misled)
  }

  lemma ReadMisleads(s: System, i: nat)
    requires Enabled(s, Read(i))
    ensures MisledKept(s.client, s.attempts[i], ApplyRead(s, i).attempts[i])
  {
    var a := s.attempts[i].(inbox := s.attempts[i].inbox[1..]);
    var f := s.log[s.attempts[i].inbox[0]];
    if a.phase.Running? {
      ObserveStays(s.client, a, f, |s.requests|);
    } else {
      ProbeStays(s.client, a, f, |s.requests|);
    }
  }

  lemma StepMisleads(s: System, step: Step, i: nat)
    requires Enabled(s, step) && i < |s.attempts|
    ensures |s.attempts| <= |Apply(s, step).attempts|
    ensures MisledKept(s.client, s.attempts[i], Apply(s, step).attempts[i])
  {
    match step
    case Read(j) => if j == i { ReadMisleads(s, i); }
    case TearDown(_, probe) => TeardownStays(s.client, s.attempts[i], probe, |s.requests|);
    case FinishUp(_) => StopOnceStays(s.client, s.attempts[i], s.attempts[i].next, |s.requests|, Done(Unwaited));
    case Leave(_) => DropMisleads(s.attempts[i], |s.requests|);
    case _ =>
  }

  /** No attempt is lost or renamed, and none ceases to be misled. */
  predicate Accrues(s: System, s': System) {
    s'.client == s.client && |s.attempts| <= |s'.attempts|
    && (forall i :: 0 <= i < |s.attempts| ==> MisledKept(s.client, s.attempts[i], s'.attempts[i]))
    && (forall i :: |s.attempts| <= i < |s'.attempts| ==> !s'.attempts[i].misled)
  }

  lemma StepAccrues(s: System, step: Step)
    requires Enabled(s, step)
    ensures Accrues(s, Apply(s, step))
  {
    var s' := Apply(s, step);
    forall i | 0 <= i < |s.attempts|
      ensures i < |s'.attempts| && MisledKept(s.client, s.attempts[i], s'.attempts[i])
    {
      StepMisleads(s, step, i);
    }
    assert s'.client == s.client;
    assert forall i :: |s.attempts| <= i < |s'.attempts| ==> !s'.attempts[i].misled;
  }

  lemma AccruedIsTame(s: System, s': System)
    requires Accrues(s, s')
    ensures Tame(s') ==> Tame(s)
    ensures s.client != Go(false) && NoneMisled(s) ==> NoneMisled(s')
  {
    assert forall i :: 0 <= i < |s.attempts| ==> MisledKept(s.client, s.attempts[i], s'.attempts[i]);
  }

  lemma {:induction false} RunAccrues(s: System, steps: seq<Step>)
    requires Run(s, steps).Some?
    ensures Run(s, steps).value.client == s.client
    ensures Tame(Run(s, steps).value) ==> Tame(s)
    ensures s.client != Go(false) && NoneMisled(s) ==> NoneMisled(Run(s, steps).value)
    decreases |steps|
  {
    if steps != [] {
      StepAccrues(s, steps[0]);
      AccruedIsTame(s, Apply(s, steps[0]));
      RunAccrues(Apply(s, steps[0]), steps[1..]);
    }
  }

  lemma {:induction false} RunKeepsInv(s: System, steps: seq<Step>)
    requires Inv(s) && Run(s, steps).Some? && Tame(Run(s, steps).value)
    ensures Inv(Run(s, steps).value)
    decreases |steps|
  {
    if steps != [] {
      RunAccrues(s, steps);
      StepKeepsInv(s, steps[0]);
      RunKeepsInv(Apply(s, steps[0]), steps[1..]);
    }
  }

  /** `s` can be reached from the empty system of `client`. */
  ghost predicate Reachable(client: Client, s: System) {
    exists steps :: Run(Initial(client), steps) == Some(s)
  }

  lemma ReachableInv(client: Client, s: System)
    requires Reachable(client, s) && (client == Go(false) ==> Tame(s))
    ensures Inv(s) && Tame(s) && s.client == client
  {
    var steps :| Run(Initial(client), steps) == Some(s);
    RunAccrues(Initial(client), steps);
    RunKeepsInv(Initial(client), steps);
  }

  lemma {:induction false} RunExtends(s: System, steps: seq<Step>, step: Step)
    requires Run(s, steps).Some? && Enabled(Run(s, steps).value, step)
    ensures Run(s, steps + [step]) == Some(Apply(Run(s, steps).value, step))
    decreases |steps|
  {
    if steps == [] {
      assert [step][1..] == [];
      assert steps + [step] == [step];
    } else {
      assert (steps + [step])[1..] == steps[1..] + [step];
      RunExtends(Apply(s, steps[0]), steps[1..], step);
    }
  }

  lemma ReachableStep(client: Client, s: System, step: Step)
    requires Reachable(client, s) && Enabled(s, step)
    ensures Reachable(client, Apply(s, step))
  {
    var steps :| Run(Initial(client), steps) == Some(s);
    RunExtends(Initial(client), steps, step);
  }
}
