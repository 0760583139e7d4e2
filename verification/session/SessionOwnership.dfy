/** Whose session a stop removes. */
module SessionOwnership {
  import opened Options
  import opened Protocol
  import opened Attempts
  import opened Routes
  import opened SessionSystem
  import opened SessionInvariant
  import opened SessionSteps
  import opened SessionRuns
  import opened MisledRun

  /** If the runtime is about to accept a stop, the registration it removes was created
      by a start of the attempt that sent the stop. */
  predicate NextStopIsOwn(s: System) {
    var r := |s.verdicts|;
    r < |s.requests| && s.requests[r].Stop? && Decide(s.registry, s.requests[r], Granted).Granted? ==>
      var start := s.registry[s.requests[r].id].start;
      start < |s.requests| && s.requests[start].Start? && s.requests[start].sender == s.requests[r].sender
  }

  lemma StopsAreOwn(client: Client, s: System)
    requires Reachable(client, s) && (client == Go(false) ==> Tame(s))
    ensures NextStopIsOwn(s)
  {
    ReachableInv(client, s);
    var r := |s.verdicts|;
    if r < |s.requests| && s.requests[r].Stop? && Decide(s.registry, s.requests[r], Granted).Granted? {
      var i := s.requests[r].sender;
      MeetsOwnRegistration(s, r, i);
      assert AttemptOk(s, i, s.attempts[i]);
    }
  }

  /** The second of three asks to stop the session of the third. */
  lemma ForeignStop() returns (s: System)
    ensures Reachable(Go(false), s) && |s.attempts| == 3 && !NextStopIsOwn(s)
  {
    s := ThirdIsGranted();
    assert s.requests[5] == REQUESTS[5] && s.requests[3] == REQUESTS[3];
  }

  // ---------- exactly when

  /** The number of attempts on session `id`. */
  function Users(attempts: seq<Attempt>, id: SessionId): (n: nat)
    ensures n <= |attempts|
  {
    if attempts == [] then 0
    else Users(attempts[..|attempts| - 1], id) + if attempts[|attempts| - 1].id == id then 1 else 0
  }

  /** No id is used by more than `k` attempts, finished ones included. */
  predicate SharedByAtMost(attempts: seq<Attempt>, k: nat) {
    forall i :: 0 <= i < |attempts| ==> Users(attempts, attempts[i].id) <= k
  }

  /** Whichever they are, so many of them are counted. */
  lemma {:induction false} UsersCounts(attempts: seq<Attempt>, id: SessionId, users: seq<nat>)
    requires forall m :: 0 <= m < |users| ==> users[m] < |attempts| && attempts[users[m]].id == id
    requires forall l, m :: 0 <= l < m < |users| ==> users[l] < users[m]
    ensures Users(attempts, id) >= |users|
  {
    if users != [] {
      var last := users[|users| - 1];
      var rest := users[..|users| - 1];
      var front := attempts[..|attempts| - 1];
      if last == |attempts| - 1 {
        UsersCounts(front, id, rest);
      } else {
        assert forall m :: 0 <= m < |users| ==> users[m] < |front| && front[users[m]] == attempts[users[m]];
        UsersCounts(front, id, users);
      }
    }
  }

  lemma SharedByTwoIsPaired(attempts: seq<Attempt>)
    requires SharedByAtMost(attempts, 2)
    ensures Paired(attempts)
  {
    forall i, j, k | 0 <= i < j < k < |attempts|
      ensures !(attempts[i].id == attempts[j].id == attempts[k].id)
    {
      if attempts[i].id == attempts[j].id == attempts[k].id {
        UsersCounts(attempts, attempts[i].id, [i, j, k]);
      }
    }
  }

  /** The client takes only refusals that name its start, or no three attempts use one id. */
  predicate Harmless(client: Client, k: nat) {
    client != Go(false) || k <= 2
  }

  ghost predicate ReachableWithin(client: Client, k: nat, s: System) {
    Reachable(client, s) && SharedByAtMost(s.attempts, k)
  }

  lemma HarmlessIsTame(client: Client, k: nat, s: System)
    requires ReachableWithin(client, k, s) && Harmless(client, k)
    ensures client == Go(false) ==> Tame(s)
  {
    if client == Go(false) {
      SharedByTwoIsPaired(s.attempts);
    }
  }

  lemma ThreeAreWithin(k: nat, s: System)
    requires Reachable(Go(false), s) && |s.attempts| == 3 && k > 2
    ensures ReachableWithin(Go(false), k, s)
  {
  }

  /** No attempt of `client` ever stops another one's session, as long as no id is used by
      more than `k` attempts. */
  ghost predicate OwnershipUpTo(client: Client, k: nat) {
    forall s :: ReachableWithin(client, k, s) ==> NextStopIsOwn(s)
  }

  /** A client that takes only what names its start never stops another's session. One that
      takes any error of its session does not either, exactly as long as no three attempts use
      one id. */
  lemma OwnershipIff(client: Client, k: nat)
    ensures OwnershipUpTo(client, k) <==> Harmless(client, k)
  {
    if Harmless(client, k) {
      forall s | ReachableWithin(client, k, s) ensures NextStopIsOwn(s) {
        HarmlessIsTame(client, k, s);
        StopsAreOwn(client, s);
      }
    } else {
      var s := ForeignStop();
      ThreeAreWithin(k, s);
    }
  }
}
