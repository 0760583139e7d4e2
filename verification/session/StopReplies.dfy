/** The replies read while the answer to a stop is awaited. */
module StopReplies {
  import opened Options
  import opened Protocol
  import opened Attempts

  /** How waiting for the answer to one last stop ends. */
  ghost function EndOf(client: Client, frames: seq<Reply>, stop: nat): Phase {
    var k := FirstAnswer(client, frames, stop);
    if k == |frames| then Done(TimedOut)
    else if frames[k].Stopped? then Done(Confirmed)
    else Done(GaveUp)
  }

  datatype StopOutcome = WasStopped | WrongSequence | Unknown

  function OutcomeOf(f: Reply): StopOutcome {
    if f.Stopped? then WasStopped
    else if CodeOf(f) == Some(InvalidRequest) then WrongSequence
    else Unknown
  }

  /** Where the first frame answering `stop` is. */
  function FirstAnswer(client: Client, frames: seq<Reply>, stop: nat): (k: nat)
    ensures k <= |frames|
    ensures k < |frames| ==> Answers(client, frames[k], stop)
  {
    if frames == [] || Answers(client, frames[0], stop) then 0 else 1 + FirstAnswer(client, frames[1..], stop)
  }

  /** Frames that answer something else are skipped; the first that answers counts. */
  lemma {:induction false} AwaitsAnswer(client: Client, i: nat, a: Attempt, sent: seq<Request>, frames: seq<Reply>)
    requires a.phase.Probing? && a.stops != []
    ensures
      var k := FirstAnswer(client, frames, a.stops[|a.stops| - 1]);
      Await(client, i, a, sent, frames) ==
        if k == |frames| then (a.(phase := Done(TimedOut)), sent)
        else
          var reaction := Probe(client, a, frames[k], |sent|);
          Await(client, i, reaction.attempt, sent + ToRequests(i, a.id, reaction.sends), frames[k + 1..])
    decreases |frames|
  {
    if frames != [] && !Answers(client, frames[0], a.stops[|a.stops| - 1]) {
      AwaitsAnswer(client, i, a, sent, frames[1..]);
      assert sent + [] == sent;
      var k := FirstAnswer(client, frames[1..], a.stops[|a.stops| - 1]);
      if k < |frames[1..]| {
        assert frames[1..][k] == frames[k + 1] && frames[1..][k + 1..] == frames[k + 2..];
      }
    }
  }

  lemma AwaitOver(client: Client, i: nat, a: Attempt, sent: seq<Request>, frames: seq<Reply>)
    requires !a.phase.Probing?
    ensures Await(client, i, a, sent + ToRequests(i, a.id, []), frames) == (a, sent)
  {
    assert sent + [] == sent;
  }

  lemma LastAnswer(client: Client, a: Attempt, f: Reply, msg: nat)
    requires a.phase.Probing? && a.stops != [] && Answers(client, f, a.stops[|a.stops| - 1])
    requires OutcomeOf(f) != WrongSequence || a.phase == Probing(None)
    ensures Probe(client, a, f, msg) == Reaction(a.(phase := Done(if f.Stopped? then Confirmed else GaveUp)), [])
  {
  }

  lemma AwaitEnds(client: Client, i: nat, a: Attempt, sent: seq<Request>, frames: seq<Reply>)
    requires a.phase.Probing? && a.stops != []
    requires
      var k := FirstAnswer(client, frames, a.stops[|a.stops| - 1]);
      k == |frames| || OutcomeOf(frames[k]) != WrongSequence || a.phase == Probing(None)
    ensures Await(client, i, a, sent, frames) == (a.(phase := EndOf(client, frames, a.stops[|a.stops| - 1])), sent)
  {
    var k := FirstAnswer(client, frames, a.stops[|a.stops| - 1]);
    AwaitsAnswer(client, i, a, sent, frames);
    if k < |frames| {
      LastAnswer(client, a, frames[k], |sent|);
      AwaitOver(client, i, Probe(client, a, frames[k], |sent|).attempt, sent, frames[k + 1..]);
    }
  }

  lemma AwaitRetries(client: Client, i: nat, a: Attempt, sent: seq<Request>, frames: seq<Reply>)
    requires a.phase.Probing? && a.stops != [] && a.phase.retry.Some?
    requires
      var k := FirstAnswer(client, frames, a.stops[|a.stops| - 1]);
      k < |frames| && OutcomeOf(frames[k]) == WrongSequence
    ensures
      var k := FirstAnswer(client, frames, a.stops[|a.stops| - 1]);
      var post := a.phase.retry.value;
      Await(client, i, a, sent, frames) ==
        (a.(next := post, stops := a.stops + [|sent|], phase := EndOf(client, frames[k + 1..], |sent|)),
         sent + [Stop(i, a.id, post)])
  {
    var k := FirstAnswer(client, frames, a.stops[|a.stops| - 1]);
    var post := a.phase.retry.value;
    AwaitsAnswer(client, i, a, sent, frames);
    var b := a.(next := post, stops := a.stops + [|sent|], phase := Probing(None));
    assert Probe(client, a, frames[k], |sent|) == Reaction(b, [SendStop(post)]);
    assert ToRequests(i, a.id, [SendStop(post)]) == [Stop(i, a.id, post)];
    AwaitEnds(client, i, b, sent + [Stop(i, a.id, post)], frames[k + 1..]);
  }
}
