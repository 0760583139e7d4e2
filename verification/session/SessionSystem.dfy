/** Any number of attempts, one runtime, a FIFO of requests and a FIFO of replies.
    Both FIFOs are kept as histories with a position, so that a frame never moves. */
module SessionSystem {
  import opened Options
  import opened Protocol
  import opened Attempts
  import opened Routes

  datatype System = System(
    client: Client,
    attempts: seq<Attempt>,
    requests: seq<Request>,            // everything ever sent
    verdicts: seq<Verdict>,            // of the requests the runtime has served so far
    registry: Registry,
    log: seq<Reply>,                   // everything the runtime ever emitted
    dispatched: nat,                   // how much of it the client's reader has routed
    routes: map<SessionId, seq<nat>>   // the attempts subscribed to a session, in order
  )

  /** One atomic step of the system. Timeouts and the runtime's choices are nondeterministic. */
  datatype Step =
    | Subscribe(id: SessionId, generated: bool)
    | Begin(i: nat)
    | Serve(admission: Verdict)
    | EmitOutput(id: SessionId, kind: OutputKind)
    | EmitError(id: SessionId, code: Code)
    | Dispatch
    | Read(i: nat)
    | TearDown(i: nat, probe: bool)
    | FinishUp(i: nat)
    | Expire(i: nat)
    | Leave(i: nat)

  function Initial(client: Client): System {
    System(client, [], [], [], map[], [], 0, map[])
  }

  // ---------- sending

  /** Attempt `i` reacts. */
  function React(s: System, i: nat, reaction: Reaction): System
    requires i < |s.attempts|
  {
    s.(attempts := s.attempts[i := reaction.attempt],
       requests := s.requests + ToRequests(i, s.attempts[i].id, reaction.sends))
  }

  // ---------- routing

  function RouteOf(s: System, id: SessionId): seq<nat> {
    if id in s.routes then s.routes[id] else []
  }

  /** Correlated delivery first, then the first subscription of the session. */
  function Target(s: System, f: Reply): Option<nat> {
    var correlated :=
      if f.InReplyTo().None? || f.InReplyTo().value >= |s.requests| then None else
      var i := s.requests[f.InReplyTo().value].sender;
      if i < |s.attempts| && s.attempts[i].open && Correlates(s.client, s.attempts[i], f.InReplyTo().value)
      then Some(i) else None;
    if correlated.Some? then correlated
    else if RouteOf(s, f.id) != [] then Some(RouteOf(s, f.id)[0])
    else None
  }

  // ---------- steps

  predicate CanRead(s: System, i: nat) {
    i < |s.attempts| && s.attempts[i].open && s.attempts[i].inbox != []
    && (s.attempts[i].phase.Running? || (s.attempts[i].phase.Probing? && s.attempts[i].stops != []))
  }

  predicate Enabled(s: System, step: Step) {
    match step
    case Subscribe(id, generated) =>
      // A generated id is nobody else's; nobody else can supply a generated id.
      if generated then forall i :: 0 <= i < |s.attempts| ==> s.attempts[i].id != id
      else forall i :: 0 <= i < |s.attempts| ==> !(s.attempts[i].id == id && s.attempts[i].generated)
    case Begin(i) => i < |s.attempts| && s.attempts[i].phase.Ready?
    case Serve(_) => |s.verdicts| < |s.requests|
    case EmitOutput(id, _) => id in s.registry && s.registry[id].expected > 2
    case EmitError(id, _) => id in s.registry && s.registry[id].expected > 2
    case Dispatch => s.dispatched < |s.log|
    case Read(i) => CanRead(s, i) && s.attempts[i].inbox[0] < |s.log|
    case TearDown(i, _) =>
      i < |s.attempts| && s.attempts[i].open && (s.attempts[i].phase.Running? || s.attempts[i].phase.Failed?)
    case FinishUp(i) => i < |s.attempts| && s.client.Rust? && s.attempts[i].open && s.attempts[i].phase.Failed?
    case Expire(i) => i < |s.attempts| && s.attempts[i].open && s.attempts[i].phase.Probing?
    case Leave(i) => i < |s.attempts| && s.attempts[i].open && !s.attempts[i].phase.Ready?
                     && (s.client.Rust? || s.attempts[i].phase.Done?)
  }

  function ApplySubscribe(s: System, id: SessionId, generated: bool): System {
    var ownsRoute := s.client.Go? || RouteOf(s, id) == [];
    var i := |s.attempts|;
    s.(attempts := s.attempts + [Subscribed(s.client, id, generated, ownsRoute)],
       routes := if ownsRoute then s.routes[id := RouteOf(s, id) + [i]] else s.routes)
  }

  function ApplyBegin(s: System, i: nat): System
    requires i < |s.attempts|
  {
    s.(attempts := s.attempts[i := Begun(s.attempts[i], |s.requests|)],
       requests := s.requests + [Start(i, s.attempts[i].id, 1)])
  }

  function ApplyServe(s: System, admission: Verdict): System
    requires |s.verdicts| < |s.requests|
  {
    var r := |s.verdicts|;
    var q := s.requests[r];
    var v := Decide(s.registry, q, admission);
    s.(verdicts := s.verdicts + [v],
       registry := Settle(s.registry, r, q, v),
       log := s.log + [Answer(r, q, v)])
  }

  /** The frame at `q` goes into the target's inbox, if it is open. */
  function Delivered(attempts: seq<Attempt>, target: Option<nat>, q: nat): seq<Attempt> {
    if target.None? || target.value >= |attempts| || !attempts[target.value].open then attempts
    else attempts[target.value := attempts[target.value].(inbox := attempts[target.value].inbox + [q])]
  }

  /** Go: an acknowledged start puts its attempt first. */
  function Rerouted(s: System, f: Reply, target: Option<nat>): map<SessionId, seq<nat>> {
    if s.client.Go? && f.Started? && target.Some? && f.id in s.routes
    then s.routes[f.id := Promoted(s.routes[f.id], target.value)]
    else s.routes
  }

  function ApplyDispatch(s: System): System
    requires s.dispatched < |s.log|
  {
    var f := s.log[s.dispatched];
    var target := Target(s, f);
    s.(dispatched := s.dispatched + 1,
       attempts := Delivered(s.attempts, target, s.dispatched),
       routes := Rerouted(s, f, target))
  }

  function ApplyRead(s: System, i: nat): System
    requires CanRead(s, i) && s.attempts[i].inbox[0] < |s.log|
  {
    var a := s.attempts[i].(inbox := s.attempts[i].inbox[1..]);
    var f := s.log[s.attempts[i].inbox[0]];
    React(s, i, if a.phase.Running? then Observe(s.client, a, f, |s.requests|) else Probe(s.client, a, f, |s.requests|))
  }

  function ApplyLeave(s: System, i: nat): System
    requires i < |s.attempts|
  {
    var a := s.attempts[i];
    var reaction := if s.client.Rust? then Drop(a, |s.requests|) else Reaction(a.(open := false), []);
    React(s, i, reaction).(routes := SetRoute(s.routes, a.id, Without(RouteOf(s, a.id), i)))
  }

  function Apply(s: System, step: Step): System
    requires Enabled(s, step)
  {
    match step
    case Subscribe(id, generated) => ApplySubscribe(s, id, generated)
    case Begin(i) => ApplyBegin(s, i)
    case Serve(admission) => ApplyServe(s, admission)
    case EmitOutput(id, kind) => s.(log := s.log + [Output(id, kind, s.registry[id].start)])
    case EmitError(id, code) => s.(log := s.log + [RunError(id, code, s.registry[id].start)])
    case Dispatch => ApplyDispatch(s)
    case Read(i) => ApplyRead(s, i)
    case TearDown(i, probe) => React(s, i, Teardown(s.client, s.attempts[i], probe, |s.requests|))
    case FinishUp(i) => React(s, i, Finish(s.attempts[i], |s.requests|))
    case Expire(i) => React(s, i, Reaction(s.attempts[i].(phase := Done(TimedOut)), []))
    case Leave(i) => ApplyLeave(s, i)
  }

  /** The state after taking `steps` from `s`, if each of them is enabled in its turn. */
  function Run(s: System, steps: seq<Step>): Option<System>
    decreases |steps|
  {
    if steps == [] then Some(s)
    else if Enabled(s, steps[0]) then Run(Apply(s, steps[0]), steps[1..])
    else None
  }
}
