/** How many users of one session id the other results about runs bear. */
module SessionLimits {
  import opened Options
  import opened Protocol
  import opened Attempts
  import opened SessionSystem
  import opened SessionInvariant
  import opened SessionRuns
  import opened SessionTheorems
  import opened SessionOwnership
  import opened MisledRun

  // ---------- the bracket

  ghost predicate BracketsUpTo(client: Client, k: nat) {
    forall s: System, i: nat, admissions: seq<Verdict> ::
      ReachableWithin(client, k, s) && UnderWay(s, i) && |s.verdicts| + |admissions| == |s.requests|
      ==> Bracketed(ServeAll(s, admissions), i)
  }

  /** The session is registered to the attempt, and its counter is one the client reckons with. */
  predicate Bracketed(t: System, i: nat) {
    i < |t.attempts| && t.attempts[i].id in t.registry
    && t.registry[t.attempts[i].id].start == t.attempts[i].startMsg
    && Brackets(t.attempts[i], t.registry[t.attempts[i].id].expected)
  }

  lemma Unbracketed() returns (s: System, admissions: seq<Verdict>)
    ensures Reachable(Go(false), s) && |s.attempts| == 3 && UnderWay(s, 2)
    ensures |s.verdicts| + |admissions| == |s.requests| && !Bracketed(ServeAll(s, admissions), 2)
  {
    s := ThirdIsGranted();
    admissions := [Granted];
    assert s.verdicts[3] == VERDICTS[3] && s.requests[5] == REQUESTS[5];
    assert ServeAll(s, [Granted]) == ApplyServe(s, Granted);
  }

  /** The bracket of every attempt under way holds in all states in which no id is used by more
      than `k` attempts exactly if the client takes only refusals of its own start, or `k` is at
      most 2. */
  lemma BracketIff(client: Client, k: nat)
    ensures BracketsUpTo(client, k) <==> Harmless(client, k)
  {
    if Harmless(client, k) {
      forall s: System, i: nat, admissions: seq<Verdict> |
        ReachableWithin(client, k, s) && UnderWay(s, i) && |s.verdicts| + |admissions| == |s.requests|
        ensures Bracketed(ServeAll(s, admissions), i)
      {
        HarmlessIsTame(client, k, s);
        BracketOnceDrained(client, s, i, admissions);
      }
    } else {
      var s, admissions := Unbracketed();
      ThreeAreWithin(k, s);
    }
  }

  // ---------- the probe

  ghost predicate ProbesSucceedUpTo(client: Client, k: nat) {
    forall s: System, i: nat ::
      ReachableWithin(client, k, s) && i < |s.attempts| ==> s.attempts[i].phase != Done(GaveUp)
  }

  /** So for probes: none is left without a confirmation once it has read its answers. */
  lemma ProbeIff(client: Client, k: nat)
    ensures ProbesSucceedUpTo(client, k) <==> Harmless(client, k)
  {
    if Harmless(client, k) {
      forall s: System, i: nat | ReachableWithin(client, k, s) && i < |s.attempts|
        ensures s.attempts[i].phase != Done(GaveUp)
      {
        HarmlessIsTame(client, k, s);
        ProbeOutcome(client, s, i);
      }
    } else {
      var s := ThirdGivesUp();
      ThreeAreWithin(k, s);
    }
  }

  // ---------- the invariant

  ghost predicate InvariantUpTo(client: Client, k: nat) {
    forall s: System :: ReachableWithin(client, k, s) ==> Inv(s)
  }

  lemma NoneGivesUp(s: System, i: nat)
    requires Inv(s) && i < |s.attempts|
    ensures s.attempts[i].phase != Done(GaveUp)
  {
    assert AttemptOk(s, i, s.attempts[i]);
  }

  /** And so for the whole invariant. */
  lemma InvariantIff(client: Client, k: nat)
    ensures InvariantUpTo(client, k) <==> Harmless(client, k)
  {
    if Harmless(client, k) {
      forall s: System | ReachableWithin(client, k, s) ensures Inv(s) {
        HarmlessIsTame(client, k, s);
        ReachableInv(client, s);
      }
    } else {
      var s := ThirdGivesUp();
      ThreeAreWithin(k, s);
      if Inv(s) {
        NoneGivesUp(s, 2);
      }
    }
  }
}
