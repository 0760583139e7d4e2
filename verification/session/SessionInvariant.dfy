/** What every step of the session system keeps. */
module SessionInvariant {
  import opened Options
  import opened Protocol
  import opened Attempts
  import opened SessionSystem

  // ---------- what became of a request

  predicate Served(s: System, r: nat) {
    r < |s.verdicts|
  }

  predicate GrantedAt(s: System, r: nat) {
    r < |s.verdicts| && s.verdicts[r].Granted?
  }

  predicate DeniedAt(s: System, r: nat) {
    r < |s.verdicts| && s.verdicts[r].Denied?
  }

  /** The runtime admitted the attempt's start. */
  predicate Accepted(s: System, a: Attempt) {
    !a.phase.Ready? && GrantedAt(s, a.startMsg)
  }

  /** The runtime accepted one of the attempt's stops. */
  predicate HasStopped(s: System, a: Attempt) {
    (|a.stops| > 0 && GrantedAt(s, a.stops[0])) || (|a.stops| > 1 && GrantedAt(s, a.stops[1]))
  }

  predicate Live(s: System, a: Attempt) {
    Accepted(s, a) && !HasStopped(s, a)
  }

  predicate Admitted(s: System, a: Attempt) {
    a.messageMsg.Some? && GrantedAt(s, a.messageMsg.value)
  }

  /** The sequence number the runtime expects next of a live attempt. */
  function Expects(s: System, a: Attempt): nat {
    if Admitted(s, a) then 3 else 2
  }

  /** The sequence number of the stop that is request `r`. */
  function StopNumber(s: System, r: nat): nat {
    if r < |s.requests| && s.requests[r].Stop? then s.requests[r].number else 0
  }

  // ---------- the invariant, piece by piece

  predicate RequestOk(s: System, r: nat)
    requires r < |s.requests|
  {
    var q := s.requests[r];
    q.sender < |s.attempts| && s.attempts[q.sender].id == q.id &&
    var a := s.attempts[q.sender];
    match q
    case Start(_, _, number) => number == 1 && a.startMsg == r && !a.phase.Ready?
    case Message(_, _, number) => number == 2 && a.messageMsg == Some(r)
    case Stop(_, _, _) => r in a.stops
    case ToolResult(_, _) => true
  }

  predicate IsStopOf(s: System, i: nat, a: Attempt, r: nat) {
    a.startMsg < r < |s.requests| && s.requests[r].Stop? && s.requests[r].sender == i && s.requests[r].id == a.id
    && (a.messageMsg.Some? ==> a.messageMsg.value < r)
  }

  /** The message ids an attempt keeps are those of its own requests, in sending order. */
  predicate IdentityOk(s: System, i: nat, a: Attempt) {
    if a.phase.Ready? then a.messageMsg.None? && a.stops == [] else
    a.startMsg < |s.requests| && s.requests[a.startMsg] == Start(i, a.id, 1)
    && (a.messageMsg.Some? ==>
        a.startMsg < a.messageMsg.value < |s.requests| && s.requests[a.messageMsg.value] == Message(i, a.id, 2))
    && |a.stops| <= 2
    && (|a.stops| > 0 ==> IsStopOf(s, i, a, a.stops[0]))
    && (|a.stops| > 1 ==> IsStopOf(s, i, a, a.stops[1]) && a.stops[0] < a.stops[1])
  }

  predicate RegistrationOk(s: System, id: SessionId)
    requires id in s.registry
  {
    var reg := s.registry[id];
    reg.start < |s.verdicts| && reg.start < |s.requests| && s.requests[reg.start].Start?
    && s.requests[reg.start].sender < |s.attempts| &&
    var a := s.attempts[s.requests[reg.start].sender];
    a.id == id && a.startMsg == reg.start && Live(s, a) && reg.expected == Expects(s, a)
  }

  predicate ReplyOk(s: System, q: nat)
    requires q < |s.log|
  {
    var f := s.log[q];
    match f
    case Started(id, to) => GrantedAt(s, to) && to < |s.requests| && s.requests[to].Start? && s.requests[to].id == id
    case Stopped(id, to) => GrantedAt(s, to) && to < |s.requests| && s.requests[to].Stop? && s.requests[to].id == id
    case Acked(id, to) => GrantedAt(s, to) && to < |s.requests| && !s.requests[to].Stop? && s.requests[to].id == id
    case Refused(id, to, code) => to < |s.verdicts| && s.verdicts[to] == Denied(code)
                                  && to < |s.requests| && s.requests[to].id == id
                                  && (s.requests[to].Stop? ==> code == InvalidRequest || code == AgentNotFound)
    case RunError(id, _, origin) => OriginOk(s, id, origin)
    case Output(id, _, origin) => OriginOk(s, id, origin)
  }

  /** A frame of a run comes from a registration whose message was admitted. */
  predicate OriginOk(s: System, id: SessionId, origin: nat) {
    origin < |s.requests| && s.requests[origin].Start? && s.requests[origin].sender < |s.attempts| &&
    var a := s.attempts[s.requests[origin].sender];
    a.id == id && a.startMsg == origin && !a.phase.Ready? && Accepted(s, a) && Admitted(s, a)
  }

  function OriginOf(f: Reply): nat {
    match f
    case RunError(_, _, origin) => origin
    case Output(_, _, origin) => origin
    case _ => 0
  }

  /** Position `q` holds a frame of a run of session `id` that attempt start `start` did not emit. */
  predicate Foreign(log: seq<Reply>, q: nat, id: SessionId, start: nat) {
    q < |log| && log[q].OfRun() && log[q].id == id && OriginOf(log[q]) != start
  }

  /** Once a start was acknowledged, every later frame of a run of its session is its own,
      for as long as its registration lives. */
  predicate OrderOk(s: System, a: Attempt) {
    Live(s, a) ==>
      forall p, q :: 0 <= p < q < |s.log| && s.log[p] == Started(a.id, a.startMsg) ==> !Foreign(s.log, q, a.id, a.startMsg)
  }

  predicate Increasing(inbox: seq<nat>) {
    forall j, k :: 0 <= j < k < |inbox| ==> inbox[j] < inbox[k]
  }

  predicate InboxOk(s: System, a: Attempt) {
    Increasing(a.inbox) && (forall k :: 0 <= k < |a.inbox| ==> a.inbox[k] < s.dispatched)
    && (forall k :: 0 <= k < |a.inbox| && a.inbox[k] < |s.log| ==> s.log[a.inbox[k]].id == a.id)
  }

  /** What an accepted, live attempt has still to read of its session is its own. */
  predicate UnreadOk(s: System, a: Attempt) {
    a.startAccepted && Live(s, a) ==>
      && (forall k :: 0 <= k < |a.inbox| ==> !Foreign(s.log, a.inbox[k], a.id, a.startMsg))
      && (forall q :: s.dispatched <= q < |s.log| ==> !Foreign(s.log, q, a.id, a.startMsg))
  }

  /** The client's two counters against the runtime's one. */
  predicate BracketOk(s: System, a: Attempt) {
    match a.messageMsg
    case None => a.next == 2 && a.unresolved == None
    case Some(m) =>
      (a.unresolved == Some(2) && a.next == 3)
      || (a.unresolved == None && a.next == 3 && GrantedAt(s, m))
      || (a.unresolved == None && a.next == 2 && DeniedAt(s, m))
  }

  predicate StartOk(s: System, a: Attempt) {
    if a.phase.Ready? then !a.startAccepted && !a.startReplyObserved && !a.misled else
    && (DeniedAt(s, a.startMsg) ==> s.verdicts[a.startMsg] == Denied(AgentBusy))
    && (a.generated ==> !DeniedAt(s, a.startMsg))
    && (a.startAccepted <==> a.messageMsg.Some?)
    && (a.startAccepted ==> a.startReplyObserved && Accepted(s, a))
    && (!a.misled && a.startReplyObserved ==> Served(s, a.startMsg))
    && (!a.misled && a.startReplyObserved && DeniedAt(s, a.startMsg) ==> a.settled)
  }

  /** An attempt that took another run's error for a refusal of its start has failed without
      a message, and can only stop with the number after its start. */
  predicate MisledOk(s: System, a: Attempt) {
    a.misled ==>
      s.client == Go(false) && !a.generated && a.messageMsg.None? && a.unresolved.None?
      && (a.phase.Failed? || a.phase.Done?)
      && |a.stops| <= 1 && (|a.stops| > 0 ==> StopNumber(s, a.stops[0]) == 2)
  }

  predicate StopsOk(s: System, a: Attempt) {
    && (a.stops != [] ==> a.settled && (a.misled || a.generated || Accepted(s, a)))
    && (!a.misled && a.stops != [] && DeniedAt(s, a.stops[0]) ==>
        s.verdicts[a.stops[0]] == Denied(InvalidRequest) && StopNumber(s, a.stops[0]) != Expects(s, a))
    && (|a.stops| == 2 ==> a.stops[1] == a.stops[0] + 1 || DeniedAt(s, a.stops[0]))
  }

  /** A second stop was sent with the other number, and only when the first was out of order. */
  predicate RetryOk(s: System, a: Attempt) {
    |a.stops| == 2 ==> DeniedAt(s, a.stops[0]) && StopNumber(s, a.stops[0]) == 2 && StopNumber(s, a.stops[1]) == 3
  }

  predicate PhaseOk(s: System, a: Attempt) {
    match a.phase
    case Ready => a.unresolved == None
    case Running => a.stops == [] && BracketOk(s, a)
    case Failed => a.stops == [] && BracketOk(s, a)
    case Probing(retry) =>
      a.stops != [] &&
      var last := a.stops[|a.stops| - 1];
      if retry.Some? then
        |a.stops| == 1 && retry == Some(3) && a.messageMsg.Some? && StopNumber(s, last) == 2
      else
        && RetryOk(s, a)
        && (a.messageMsg.None? ==> StopNumber(s, last) == 2)
        && (a.messageMsg.Some? ==> Served(s, a.messageMsg.value) && StopNumber(s, last) == Expects(s, a))
        && (Served(s, last) ==> GrantedAt(s, last))
    case Done(Confirmed) => HasStopped(s, a) && RetryOk(s, a)
    case Done(TimedOut) => RetryOk(s, a)
    case Done(GaveUp) => false
    case Done(_) => true
  }

  /** What the attempt knows against what the runtime decided. */
  predicate StandingOk(s: System, i: nat, a: Attempt) {
    IdentityOk(s, i, a)
    && (Live(s, a) ==> a.id in s.registry && s.registry[a.id].start == a.startMsg)
    && StartOk(s, a) && StopsOk(s, a) && PhaseOk(s, a) && MisledOk(s, a)
  }

  /** What the attempt has still to read. */
  predicate ReadingOk(s: System, a: Attempt) {
    InboxOk(s, a) && UnreadOk(s, a) && OrderOk(s, a)
  }

  predicate AttemptOk(s: System, i: nat, a: Attempt) {
    StandingOk(s, i, a) && ReadingOk(s, a)
  }

  predicate RoutesOk(attempts: seq<Attempt>, routes: map<SessionId, seq<nat>>) {
    forall id, k :: id in routes && 0 <= k < |routes[id]| ==>
      routes[id][k] < |attempts| && attempts[routes[id][k]].id == id
  }

  /** A stop just accepted has left its session unregistered. */
  predicate LastStopOk(s: System) {
    |s.verdicts| > 0 && |s.verdicts| <= |s.requests| && s.requests[|s.verdicts| - 1].Stop? && GrantedAt(s, |s.verdicts| - 1)
    ==> s.requests[|s.verdicts| - 1].id !in s.registry
  }

  /** A generated id is shared with no other attempt. */
  predicate IdsOk(attempts: seq<Attempt>) {
    forall i, j :: 0 <= i < |attempts| && 0 <= j < |attempts| && i != j && attempts[i].generated
      ==> attempts[i].id != attempts[j].id
  }

  /** Another attempt on the same id whose message was admitted. */
  predicate Rival(s: System, i: nat, j: nat) {
    i < |s.attempts| && j < |s.attempts| && j != i && s.attempts[j].id == s.attempts[i].id
    && Accepted(s, s.attempts[j]) && Admitted(s, s.attempts[j])
  }

  /** Only an error of another attempt's run can mislead. */
  ghost predicate RivalsOk(s: System) {
    forall i :: 0 <= i < |s.attempts| && s.attempts[i].misled ==> exists j :: Rival(s, i, j)
  }

  ghost predicate Inv(s: System) {
    && |s.verdicts| <= |s.requests| && s.dispatched <= |s.log|
    && (forall r :: 0 <= r < |s.requests| ==> RequestOk(s, r))
    && (forall i :: 0 <= i < |s.attempts| ==> AttemptOk(s, i, s.attempts[i]))
    && (forall id :: id in s.registry ==> RegistrationOk(s, id))
    && (forall q :: 0 <= q < |s.log| ==> ReplyOk(s, q))
    && LastStopOk(s) && RivalsOk(s) && IdsOk(s.attempts) && RoutesOk(s.attempts, s.routes)
  }

  predicate NoneMisled(s: System) {
    forall i :: 0 <= i < |s.attempts| ==> !s.attempts[i].misled
  }

  /** No id is used by three attempts. */
  predicate Paired(attempts: seq<Attempt>) {
    forall i, j, k :: 0 <= i < j < k < |attempts| ==> !(attempts[i].id == attempts[j].id == attempts[k].id)
  }

  /** Nobody has been misled, or it can do no harm. */
  predicate Tame(s: System) {
    NoneMisled(s) || Paired(s.attempts)
  }
}
