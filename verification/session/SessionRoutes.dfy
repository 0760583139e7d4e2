/** Go's shared session routes: whose frames reach whom. */
module SessionRoutes {
  import opened Options
  import opened Protocol
  import opened Attempts
  import opened AttemptFrames
  import opened Routes
  import SessionInvariant
  import opened SessionSystem
  import opened SessionRuns

  /** The start acknowledged last for session `id`. */
  function LastStarted(log: seq<Reply>, id: SessionId): Option<nat> {
    if log == [] then None
    else
      var f := log[|log| - 1];
      if f.Started? && f.id == id then Some(f.to) else LastStarted(log[..|log| - 1], id)
  }

  /** The start whose registration emitted a frame of a run. */
  function Origin(f: Reply): Option<nat> {
    if f.OfRun() then Some(SessionInvariant.OriginOf(f)) else None
  }

  // ---------- the invariant

  predicate StartsOk(s: System) {
    && (forall r :: 0 <= r < |s.requests| && s.requests[r].Start? ==> StartOk(s, r))
    && (forall q :: 0 <= q < |s.log| && s.log[q].Started? ==> StartedOk(s, q))
  }

  predicate StartOk(s: System, r: nat)
    requires r < |s.requests|
  {
    var i := s.requests[r].sender;
    i < |s.attempts| && s.attempts[i].startMsg == r && !s.attempts[i].phase.Ready? && s.attempts[i].id == s.requests[r].id
  }

  predicate StartedOk(s: System, q: nat)
    requires q < |s.log| && s.log[q].Started?
  {
    s.log[q].to < |s.requests| && s.requests[s.log[q].to].Start? && s.requests[s.log[q].to].id == s.log[q].id
  }

  /** A frame of a run was emitted by the registration whose start was acknowledged last
      before it. */
  predicate OriginsOk(s: System) {
    && (forall id :: id in s.registry ==> LastStarted(s.log, id) == Some(s.registry[id].start))
    && (forall q :: 0 <= q < |s.log| && s.log[q].OfRun() ==>
          LastStarted(s.log[..q], s.log[q].id) == Origin(s.log[q]))
  }

  /** The open attempts of a session are exactly those on its route. */
  predicate MembersOk(attempts: seq<Attempt>, routes: map<SessionId, seq<nat>>) {
    && (forall id :: id in routes ==> routes[id] != [] && Distinct(routes[id]))
    && (forall id, k :: id in routes && 0 <= k < |routes[id]| ==> OpenOn(attempts, id, routes[id][k]))
    && (forall i :: 0 <= i < |attempts| && attempts[i].open ==>
          attempts[i].id in routes && i in routes[attempts[i].id])
  }

  predicate OpenOn(attempts: seq<Attempt>, id: SessionId, i: nat) {
    i < |attempts| && attempts[i].open && attempts[i].id == id
  }

  /** While it stays open, the attempt acknowledged last heads its session's route. */
  predicate HeadOk(s: System, id: SessionId) {
    s.dispatched <= |s.log| &&
    match LastStarted(s.log[..s.dispatched], id)
    case None => true
    case Some(to) =>
      to < |s.requests| &&
      var i := s.requests[to].sender;
      i < |s.attempts| && (s.attempts[i].open ==> id in s.routes && s.routes[id] != [] && s.routes[id][0] == i)
  }

  ghost predicate RouteInv(s: System) {
    s.client.Go? && s.dispatched <= |s.log| && StartsOk(s) && OriginsOk(s) && MembersOk(s.attempts, s.routes)
    && forall id :: HeadOk(s, id)
  }

  // ---------- lemmas about routes

  lemma {:induction false} LastStartedIsStart(s: System, n: nat, id: SessionId)
    requires StartsOk(s) && n <= |s.log| && LastStarted(s.log[..n], id).Some?
    ensures
      var to := LastStarted(s.log[..n], id).value;
      to < |s.requests| && s.requests[to].Start? && s.requests[to].id == id && StartOk(s, to)
    decreases n
  {
    var f := s.log[n - 1];
    assert s.log[..n][..n - 1] == s.log[..n - 1];
    if f.Started? && f.id == id {
      assert StartedOk(s, n - 1);
    } else {
      LastStartedIsStart(s, n - 1, id);
    }
  }

  // ---------- every step keeps it

  lemma LogGrows(s: System, f: Reply, registry: Registry)
    requires OriginsOk(s)
    requires f.OfRun() ==> LastStarted(s.log, f.id) == Origin(f)
    requires forall id :: id in registry ==>
      if f.Started? && f.id == id then registry[id].start == f.to
      else id in s.registry && registry[id].start == s.registry[id].start
    ensures OriginsOk(s.(log := s.log + [f], registry := registry))
  {
    var s' := s.(log := s.log + [f], registry := registry);
    assert s'.log[..|s.log|] == s.log;
    forall q | 0 <= q < |s'.log| && s'.log[q].OfRun()
      ensures LastStarted(s'.log[..q], s'.log[q].id) == Origin(s'.log[q])
    {
      if q < |s.log| {
        assert s'.log[..q] == s.log[..q];
      }
    }
  }

  lemma ServeKeepsRoutes(s: System, admission: Verdict)
    requires RouteInv(s) && |s.verdicts| < |s.requests|
    ensures RouteInv(ApplyServe(s, admission))
  {
    var s' := ApplyServe(s, admission);
    var r := |s.verdicts|;
    var f := s'.log[|s.log|];
    LogGrows(s, f, s'.registry);
    assert s'.log[..s.dispatched] == s.log[..s.dispatched];
    forall id ensures HeadOk(s', id) {
      assert HeadOk(s, id);
    }
  }

  lemma EmitKeepsRoutes(s: System, f: Reply)
    requires RouteInv(s) && f.OfRun() && f.id in s.registry && Origin(f) == Some(s.registry[f.id].start)
    ensures RouteInv(s.(log := s.log + [f]))
  {
    var s' := s.(log := s.log + [f]);
    LogGrows(s, f, s.registry);
    assert s'.log[..s.dispatched] == s.log[..s.dispatched];
    forall id ensures HeadOk(s', id) {
      assert HeadOk(s, id);
    }
  }

  /** An acknowledged start is routed to the attempt that sent it, if that is still open. */
  lemma StartedFindsSender(s: System, q: nat)
    requires RouteInv(s) && q < |s.log| && s.log[q].Started?
    ensures
      var i := s.requests[s.log[q].to].sender;
      s.log[q].to < |s.requests| && i < |s.attempts| && s.attempts[i].id == s.log[q].id
      && (s.attempts[i].open ==> Target(s, s.log[q]) == Some(i))
  {
    assert StartedOk(s, q);
    assert StartOk(s, s.log[q].to);
  }

  lemma PromoteKeepsMembers(attempts: seq<Attempt>, routes: map<SessionId, seq<nat>>, id: SessionId, i: nat)
    requires MembersOk(attempts, routes) && id in routes
    ensures MembersOk(attempts, routes[id := Promoted(routes[id], i)])
    ensures i in routes[id] ==> Promoted(routes[id], i)[0] == i
  {
    if i in routes[id] {
      PromotionKeepsOrder(routes[id], i);
    }
  }

  lemma InboxKeepsMembers(attempts: seq<Attempt>, attempts': seq<Attempt>, routes: map<SessionId, seq<nat>>)
    requires MembersOk(attempts, routes) && |attempts'| == |attempts|
    requires forall i :: 0 <= i < |attempts| ==> attempts'[i].open == attempts[i].open && attempts'[i].id == attempts[i].id
    ensures MembersOk(attempts', routes)
  {
    forall id, k | id in routes && 0 <= k < |routes[id]| ensures OpenOn(attempts', id, routes[id][k]) {
      assert OpenOn(attempts, id, routes[id][k]);
    }
  }

  lemma CloseKeepsMember(attempts: seq<Attempt>, routes: map<SessionId, seq<nat>>, i: nat, id: SessionId, k: nat)
    requires MembersOk(attempts, routes) && i < |attempts| && attempts[i].open
    requires
      var routes' := SetRoute(routes, attempts[i].id, Without(routes[attempts[i].id], i));
      id in routes' && k < |routes'[id]|
    ensures OpenOn(attempts[i := attempts[i].(open := false)], id, SetRoute(routes, attempts[i].id, Without(routes[attempts[i].id], i))[id][k])
  {
    var j := SetRoute(routes, attempts[i].id, Without(routes[attempts[i].id], i))[id][k];
    WithoutMembers(routes[attempts[i].id], i);
    assert j in routes[id];
    assert OpenOn(attempts, id, j);
  }

  lemma CloseKeepsMembers(attempts: seq<Attempt>, routes: map<SessionId, seq<nat>>, i: nat)
    requires MembersOk(attempts, routes) && i < |attempts| && attempts[i].open
    ensures
      var id := attempts[i].id;
      MembersOk(attempts[i := attempts[i].(open := false)], SetRoute(routes, id, Without(routes[id], i)))
  {
    var id := attempts[i].id;
    var attempts' := attempts[i := attempts[i].(open := false)];
    var routes' := SetRoute(routes, id, Without(routes[id], i));
    WithoutMembers(routes[id], i);
    forall id', k | id' in routes' && 0 <= k < |routes'[id']| ensures OpenOn(attempts', id', routes'[id'][k]) {
      CloseKeepsMember(attempts, routes, i, id', k);
    }
    forall j | 0 <= j < |attempts'| && attempts'[j].open
      ensures attempts'[j].id in routes' && j in routes'[attempts'[j].id]
    {
      assert attempts[j].open && j in routes[attempts[j].id];
    }
  }

  lemma SubscribeKeepsMembers(attempts: seq<Attempt>, routes: map<SessionId, seq<nat>>, a: Attempt, route: seq<nat>)
    requires MembersOk(attempts, routes) && a.open
    requires route == if a.id in routes then routes[a.id] else []
    ensures MembersOk(attempts + [a], routes[a.id := route + [|attempts|]])
  {
    var n := |attempts|;
    var attempts', routes' := attempts + [a], routes[a.id := route + [n]];
    forall k | 0 <= k < |route| ensures route[k] < n {
      assert OpenOn(attempts, a.id, routes[a.id][k]);
    }
    forall id, k | id in routes' && 0 <= k < |routes'[id]| ensures OpenOn(attempts', id, routes'[id][k]) {
      if id in routes && k < |routes[id]| {
        assert OpenOn(attempts, id, routes[id][k]);
      }
    }
    forall j | 0 <= j < |attempts'| && attempts'[j].open
      ensures attempts'[j].id in routes' && j in routes'[attempts'[j].id]
    {
      if j == n {
        assert (route + [n])[|route|] == n;
      } else {
        assert attempts[j].open && j in routes[attempts[j].id];
      }
    }
  }

  /** Routing a frame changes at most one inbox, and the routes only if it acknowledges a start. */
  lemma DispatchChanges(s: System)
    requires s.client.Go? && s.dispatched < |s.log|
    ensures
      var s', f := ApplyDispatch(s), s.log[s.dispatched];
      |s'.attempts| == |s.attempts| && s'.dispatched == s.dispatched + 1 && s'.log == s.log && s'.requests == s.requests
      && (forall i :: 0 <= i < |s.attempts| ==> s'.attempts[i] == s.attempts[i].(inbox := s'.attempts[i].inbox))
      && s'.routes == if f.Started? && Target(s, f).Some? && f.id in s.routes
                      then s.routes[f.id := Promoted(s.routes[f.id], Target(s, f).value)] else s.routes
  {
  }

  /** An acknowledged start of an open attempt puts that attempt first. */
  lemma DispatchPromotes(s: System)
    requires RouteInv(s) && s.dispatched < |s.log| && s.log[s.dispatched].Started?
    ensures
      var s', f := ApplyDispatch(s), s.log[s.dispatched];
      f.to < |s.requests| && s.requests[f.to].sender < |s.attempts|
      && (s.attempts[s.requests[f.to].sender].open ==>
            f.id in s'.routes && s'.routes[f.id] != [] && s'.routes[f.id][0] == s.requests[f.to].sender)
  {
    var f := s.log[s.dispatched];
    StartedFindsSender(s, s.dispatched);
    DispatchChanges(s);
    var i := s.requests[f.to].sender;
    if s.attempts[i].open {
      assert s.attempts[i].id in s.routes && i in s.routes[s.attempts[i].id];
      PromoteKeepsMembers(s.attempts, s.routes, f.id, i);
    }
  }

  /** The head of a route once the next frame of the log has been routed. */
  lemma NextHead(s: System, s': System, id: SessionId)
    requires s.dispatched < |s.log| && HeadOk(s, id) && s'.log == s.log && s'.requests == s.requests
    requires s'.dispatched == s.dispatched + 1 && |s'.attempts| == |s.attempts|
    requires forall i :: 0 <= i < |s.attempts| ==> s'.attempts[i].open == s.attempts[i].open
    requires
      var f := s.log[s.dispatched];
      if f.Started? && f.id == id then
        f.to < |s.requests| && s.requests[f.to].sender < |s.attempts|
        && (s.attempts[s.requests[f.to].sender].open ==>
              id in s'.routes && s'.routes[id] != [] && s'.routes[id][0] == s.requests[f.to].sender)
      else (id in s.routes <==> id in s'.routes) && (id in s.routes ==> s'.routes[id] == s.routes[id])
    ensures HeadOk(s', id)
  {
    assert s.log[..s.dispatched + 1][..s.dispatched] == s.log[..s.dispatched];
  }

  lemma DispatchHead(s: System, id: SessionId)
    requires RouteInv(s) && s.dispatched < |s.log|
    ensures HeadOk(ApplyDispatch(s), id)
  {
    assert HeadOk(s, id);
    DispatchChanges(s);
    if s.log[s.dispatched].Started? {
      DispatchPromotes(s);
    }
    NextHead(s, ApplyDispatch(s), id);
  }

  lemma DispatchKeepsRoutes(s: System)
    requires RouteInv(s) && s.dispatched < |s.log|
    ensures RouteInv(ApplyDispatch(s))
  {
    var s' := ApplyDispatch(s);
    var f := s.log[s.dispatched];
    var target := Target(s, f);
    if f.Started? && target.Some? && f.id in s.routes {
      PromoteKeepsMembers(s.attempts, s.routes, f.id, target.value);
    }
    InboxKeepsMembers(s.attempts, s'.attempts, s'.routes);
    forall id ensures HeadOk(s', id) {
      DispatchHead(s, id);
    }
  }

  lemma SubscribeKeepsRoutes(s: System, id: SessionId, generated: bool)
    requires RouteInv(s)
    ensures RouteInv(ApplySubscribe(s, id, generated))
  {
    var s' := ApplySubscribe(s, id, generated);
    SubscribeKeepsMembers(s.attempts, s.routes, s'.attempts[|s.attempts|], RouteOf(s, id));
    forall r | 0 <= r < |s.requests| && s.requests[r].Start? ensures StartOk(s', r) {
      assert StartOk(s, r);
    }
    forall id' ensures HeadOk(s', id') {
      assert HeadOk(s, id');
    }
  }

  /** A step of one attempt that leaves its subscription alone leaves the routes alone. */
  lemma ReactKeepsRoutes(s: System, i: nat, a': Attempt, requests: seq<Request>)
    requires RouteInv(s) && i < |s.attempts| && s.requests <= requests
    requires a'.id == s.attempts[i].id && a'.open == s.attempts[i].open
    requires !a'.phase.Ready? && (!s.attempts[i].phase.Ready? ==> a'.startMsg == s.attempts[i].startMsg)
    requires forall r :: |s.requests| <= r < |requests| && requests[r].Start? ==>
      requests[r].sender == i && a'.startMsg == r && requests[r].id == a'.id
    ensures RouteInv(s.(attempts := s.attempts[i := a'], requests := requests))
  {
    var s' := s.(attempts := s.attempts[i := a'], requests := requests);
    forall r | 0 <= r < |requests| && requests[r].Start? ensures StartOk(s', r) {
      if r < |s.requests| {
        assert requests[r] == s.requests[r];
        assert StartOk(s, r);
      }
    }
    forall q | 0 <= q < |s.log| && s.log[q].Started? ensures StartedOk(s', q) {
      assert StartedOk(s, q);
    }
    InboxKeepsMembers(s.attempts, s'.attempts, s.routes);
    forall id ensures HeadOk(s', id) {
      assert HeadOk(s, id);
    }
  }

  lemma CloseKeepsRoutes(s: System, i: nat)
    requires RouteInv(s) && i < |s.attempts| && s.attempts[i].open
    ensures
      var id := s.attempts[i].id;
      RouteInv(s.(attempts := s.attempts[i := s.attempts[i].(open := false)],
                  routes := SetRoute(s.routes, id, Without(RouteOf(s, id), i))))
  {
    var id := s.attempts[i].id;
    var s' := s.(attempts := s.attempts[i := s.attempts[i].(open := false)],
                 routes := SetRoute(s.routes, id, Without(RouteOf(s, id), i)));
    WithoutMembers(RouteOf(s, id), i);
    CloseKeepsMembers(s.attempts, s.routes, i);
    forall r | 0 <= r < |s.requests| && s.requests[r].Start? ensures StartOk(s', r) {
      assert StartOk(s, r);
    }
    forall q | 0 <= q < |s.log| && s.log[q].Started? ensures StartedOk(s', q) {
      assert StartedOk(s, q);
    }
    forall id' ensures HeadOk(s', id') {
      assert HeadOk(s, id');
    }
  }

  lemma SendsNoStart(i: nat, id: SessionId, sends: seq<Send>, k: nat)
    requires k < |sends|
    ensures !ToRequests(i, id, sends)[k].Start?
  {
  }

  lemma ReadKeepsRoutes(s: System, i: nat)
    requires RouteInv(s) && Enabled(s, Read(i))
    ensures RouteInv(ApplyRead(s, i))
  {
    var a, f := s.attempts[i].(inbox := s.attempts[i].inbox[1..]), s.log[s.attempts[i].inbox[0]];
    if a.phase.Running? {
      ObserveStays(s.client, a, f, |s.requests|);
      ReactionKeepsRoutes(s, i, Observe(s.client, a, f, |s.requests|));
    } else {
      ProbeStays(s.client, a, f, |s.requests|);
      ReactionKeepsRoutes(s, i, Probe(s.client, a, f, |s.requests|));
    }
  }

  lemma ReactionKeepsRoutes(s: System, i: nat, reaction: Reaction)
    requires RouteInv(s) && i < |s.attempts| && !s.attempts[i].phase.Ready?
    requires Stays(s.client, s.attempts[i], reaction.attempt)
    ensures RouteInv(React(s, i, reaction))
  {
    var requests := React(s, i, reaction).requests;
    forall r | |s.requests| <= r < |requests| ensures !requests[r].Start? {
      SendsNoStart(i, s.attempts[i].id, reaction.sends, r - |s.requests|);
    }
    ReactKeepsRoutes(s, i, reaction.attempt, requests);
  }

  lemma StepKeepsRoutes(s: System, step: Step)
    requires RouteInv(s) && Enabled(s, step)
    ensures RouteInv(Apply(s, step))
  {
    match step
    case Subscribe(id, generated) => SubscribeKeepsRoutes(s, id, generated);
    case Begin(i) => ReactKeepsRoutes(s, i, Begun(s.attempts[i], |s.requests|), s.requests + [Start(i, s.attempts[i].id, 1)]);
    case Serve(admission) => ServeKeepsRoutes(s, admission);
    case EmitOutput(id, kind) => EmitKeepsRoutes(s, Output(id, kind, s.registry[id].start));
    case EmitError(id, code) => EmitKeepsRoutes(s, RunError(id, code, s.registry[id].start));
    case Dispatch => DispatchKeepsRoutes(s);
    case Read(i) => ReadKeepsRoutes(s, i);
    case TearDown(i, probe) =>
      TeardownStays(s.client, s.attempts[i], probe, |s.requests|);
      ReactionKeepsRoutes(s, i, Teardown(s.client, s.attempts[i], probe, |s.requests|));
    case Expire(i) => ReactionKeepsRoutes(s, i, Reaction(s.attempts[i].(phase := Done(TimedOut)), []));
    case Leave(i) => LeaveKeepsRoutes(s, i);
  }

  lemma LeaveKeepsRoutes(s: System, i: nat)
    requires RouteInv(s) && Enabled(s, Leave(i))
    ensures RouteInv(ApplyLeave(s, i))
  {
    CloseKeepsRoutes(s, i);
    assert ApplyLeave(s, i).requests == s.requests;
  }

  lemma {:induction false} RunKeepsRoutes(s: System, steps: seq<Step>)
    requires RouteInv(s) && Run(s, steps).Some?
    ensures RouteInv(Run(s, steps).value)
    decreases |steps|
  {
    if steps != [] {
      StepKeepsRoutes(s, steps[0]);
      RunKeepsRoutes(Apply(s, steps[0]), steps[1..]);
    }
  }

  // ---------- the results

  lemma ReachableRoutes(correlatedOnly: bool, s: System)
    requires Reachable(Go(correlatedOnly), s)
    ensures RouteInv(s)
  {
    var steps :| Run(Initial(Go(correlatedOnly)), steps) == Some(s);
    assert RouteInv(Initial(Go(correlatedOnly)));
    RunKeepsRoutes(Initial(Go(correlatedOnly)), steps);
  }

  /** A frame that names only its session reaches the attempt whose registration emitted
      it, and no other, whoever else has subscribed to that session before or since. */
  lemma RunFramesReachTheirOwner(correlatedOnly: bool, s: System)
    requires Reachable(Go(correlatedOnly), s) && s.dispatched < |s.log| && s.log[s.dispatched].OfRun()
    ensures
      var origin := Origin(s.log[s.dispatched]).value;
      origin < |s.requests| &&
      var i := s.requests[origin].sender;
      i < |s.attempts| && (s.attempts[i].open ==>
        ApplyDispatch(s) == s.(dispatched := s.dispatched + 1,
          attempts := s.attempts[i := s.attempts[i].(inbox := s.attempts[i].inbox + [s.dispatched])]))
  {
    ReachableRoutes(correlatedOnly, s);
    var f := s.log[s.dispatched];
    assert HeadOk(s, f.id);
    assert LastStarted(s.log[..s.dispatched], f.id) == Origin(f);
    LastStartedIsStart(s, s.dispatched, f.id);
  }

  /** A closed attempt is on no route, and nothing is delivered to it any more. */
  lemma ClosedGetsNothing(correlatedOnly: bool, s: System, i: nat)
    requires Reachable(Go(correlatedOnly), s) && i < |s.attempts| && !s.attempts[i].open
    ensures forall id :: id in s.routes ==> i !in s.routes[id]
    ensures forall f :: Target(s, f) != Some(i)
  {
    ReachableRoutes(correlatedOnly, s);
    forall id, k | id in s.routes && 0 <= k < |s.routes[id]| ensures s.routes[id][k] != i {
      assert OpenOn(s.attempts, id, s.routes[id][k]);
    }
  }
}
