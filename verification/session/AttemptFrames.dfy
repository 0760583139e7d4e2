/** What a reaction of an attempt leaves alone. */
module AttemptFrames {
  import opened Options
  import opened Protocol
  import opened Attempts

  /** The attempt's id, start and subscription are what they were, and misled it is only by
      what Go reads before acceptance, and then for good. */
  predicate Stays(client: Client, a: Attempt, a': Attempt) {
    a'.id == a.id && a'.open == a.open && a'.startMsg == a.startMsg && !a'.phase.Ready?
    && (a.misled ==> a'.misled) && (client != Go(false) && !a.misled ==> !a'.misled)
  }

  lemma AcceptStays(client: Client, a: Attempt, msg: nat)
    requires !a.phase.Ready?
    ensures Stays(client, a, Accept(a, msg).attempt)
  {
  }

  lemma TakeOutputStays(client: Client, a: Attempt, kind: OutputKind)
    requires !a.phase.Ready?
    ensures Stays(client, a, TakeOutput(client, a, kind).attempt)
  {
  }

  lemma TakeRefusalStays(client: Client, a: Attempt, f: Reply, giveUp: bool)
    ensures Stays(client, a, TakeRefusal(a, f, giveUp))
  {
  }

  lemma RustObserveStays(a: Attempt, f: Reply, msg: nat)
    requires !a.phase.Ready?
    ensures Stays(Rust, a, RustObserve(a, f, msg).attempt)
  {
    var b := if a.startAccepted then a else a.(startReplyObserved := true);
    if f.Started? {
      AcceptStays(Rust, b, msg);
    } else if f.Output? {
      TakeOutputStays(Rust, b, f.kind);
    } else {
      TakeRefusalStays(Rust, b, f, true);
    }
  }

  lemma GoObserveStays(correlatedOnly: bool, a: Attempt, f: Reply, msg: nat)
    requires !a.phase.Ready?
    ensures Stays(Go(correlatedOnly), a, GoObserve(correlatedOnly, a, f, msg).attempt)
  {
    if f.Started? {
      AcceptStays(Go(correlatedOnly), a, msg);
    } else if f.Output? {
      TakeOutputStays(Go(correlatedOnly), a, f.kind);
    } else {
      var b := a.(startReplyObserved := true, misled := a.misled || (!a.startAccepted && f.InReplyTo().None?));
      TakeRefusalStays(Go(correlatedOnly), b, f, !a.startAccepted);
    }
  }

  lemma ObserveStays(client: Client, a: Attempt, f: Reply, msg: nat)
    requires !a.phase.Ready?
    ensures Stays(client, a, Observe(client, a, f, msg).attempt)
  {
    match client
    case Rust => RustObserveStays(a, f, msg);
    case Go(correlatedOnly) => GoObserveStays(correlatedOnly, a, f, msg);
  }

  /** A probe that sends nothing changes the phase at most. */
  lemma ProbeEnds(client: Client, a: Attempt, f: Reply, msg: nat)
    requires a.phase.Probing? && a.stops != []
    ensures
      var r := Probe(client, a, f, msg);
      if r.sends == [] then r.attempt == a.(phase := r.attempt.phase) && !r.attempt.phase.Ready?
      else a.phase.retry.Some? && r.attempt == a.(next := a.phase.retry.value, stops := a.stops + [msg], phase := Probing(None))
  {
    var a' := Probe(client, a, f, msg).attempt;
    if !Answers(client, f, a.stops[|a.stops| - 1]) {
      assert a' == a;
    } else if f.Stopped? {
      assert a' == a.(phase := Done(Confirmed));
    } else if CodeOf(f) != Some(InvalidRequest) || a.phase.retry.None? {
      assert a' == a.(phase := Done(GaveUp));
    }
  }

  lemma ProbeStays(client: Client, a: Attempt, f: Reply, msg: nat)
    requires a.phase.Probing? && a.stops != []
    ensures Stays(client, a, Probe(client, a, f, msg).attempt)
  {
    ProbeEnds(client, a, f, msg);
    if Probe(client, a, f, msg).sends != [] {
      RetryStays(client, a, a.phase.retry.value, msg);
    }
  }

  lemma RetryStays(client: Client, a: Attempt, post: nat, msg: nat)
    ensures Stays(client, a, a.(next := post, stops := a.stops + [msg], phase := Probing(None)))
  {
  }

  lemma StopOnceStays(client: Client, a: Attempt, number: nat, msg: nat, then_: Phase)
    requires !then_.Ready?
    ensures Stays(client, a, StopOnce(a, number, msg, then_).attempt)
  {
  }

  lemma TeardownStays(client: Client, a: Attempt, probe: bool, msg: nat)
    ensures Stays(client, a, Teardown(client, a, probe, msg).attempt)
  {
    if client.Go? && (!probe || a.unresolved.None?) {
      StopOnceStays(client, a, a.next, msg, Done(Unwaited));
    } else if a.unresolved.None? {
      StopOnceStays(client, a, a.next, msg, Probing(None));
    } else {
      var pre := a.unresolved.value;
      var retry := if client.Go? && pre == a.next then None else Some(a.next);
      StopOnceStays(client, a.(unresolved := None, next := pre), pre, msg, Probing(retry));
    }
  }

  predicate DropKeeps(a: Attempt, a': Attempt) {
    a'.id == a.id && a'.misled == a.misled
  }

  lemma DropMisleads(a: Attempt, msg: nat)
    ensures DropKeeps(a, Drop(a, msg).attempt)
  {
    if !a.phase.Done? && MayStop(a) && a.unresolved.Some? {
      DropPairMisleads(a, msg);
    }
  }

  lemma DropPairMisleads(a: Attempt, msg: nat)
    requires !a.phase.Done? && MayStop(a) && a.unresolved.Some?
    ensures DropKeeps(a, Drop(a, msg).attempt)
  {
  }
}
