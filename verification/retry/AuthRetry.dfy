/** The Rust client's `run`: one attempt, and under `auto_once` at most one more after a
    login, never once a tool has run. */
module AuthRetry {
  import opened Options

  type ProviderId = string

  datatype Error =
    | Stream(authCode: bool, provider: Option<ProviderId>, message: string)
    | AuthRequired(providerId: ProviderId, message: string)
    | OtherError(message: string)

  predicate Retryable(e: Error) {
    e.Stream? && e.authCode
  }

  function ProviderOf(e: Error): Option<ProviderId> {
    match e
    case Stream(_, provider, _) => provider
    case AuthRequired(provider, _) => Some(provider)
    case OtherError(_) => None
  }

  /** A response; `authFailure` is one that settled as an authentication error. */
  datatype Response = Response(authFailure: bool, provider: Option<ProviderId>, message: string)

  datatype AgentEvent = Failure(error: Error) | ToolExecution | AgentEnd(response: Response) | OtherEvent

  /** A frame as it is classified; `sent` is whether what it makes the client send goes out. */
  datatype Frame =
    | Ignored
    | Rejected(error: Error)
    | Failed(error: Error)
    | Started(sent: bool)
    | ToolExecute(sent: bool)
    | Result(response: Option<Response>)     // none if it does not parse
    | Normalized(events: Option<seq<AgentEvent>>)

  datatype Outcome = Settled(response: Response) | Err(error: Error)

  const TRANSPORT: Error := OtherError("transport")
  const MALFORMED: Error := OtherError("malformed")

  // ---------- the errors

  /** A retryable error with a provider to name becomes the terminal kind. */
  function Promote(e: Error, fallback: Option<ProviderId>): Error {
    if !Retryable(e) then e
    else
      match if ProviderOf(e).Some? then ProviderOf(e) else fallback
      case Some(provider) => AuthRequired(provider, e.message)
      case None => e
  }

  function RetryableOrAuth(e: Error, fallback: Option<ProviderId>, allowRetry: bool): Error {
    if allowRetry then e else Promote(e, fallback)
  }

  function ResponseOrAuth(r: Response, fallback: Option<ProviderId>, allowRetry: bool): Outcome {
    if !r.authFailure then Settled(r)
    else
      var provider := if r.provider.Some? then r.provider else fallback;
      if allowRetry || provider.None? then Err(Stream(true, provider, r.message))
      else Err(AuthRequired(provider.value, r.message))
  }

  // ---------- one attempt

  /** The events of one frame: how they end the attempt, if they do, and whether a tool has
      run by then. */
  function Events(events: seq<AgentEvent>, fallback: Option<ProviderId>, tools: bool): (Option<Outcome>, bool)
    decreases |events|
  {
    if events == [] then (None, tools)
    else
      match events[0]
      case Failure(e) => (Some(Err(RetryableOrAuth(e, fallback, !tools))), tools)
      case AgentEnd(r) => (Some(ResponseOrAuth(r, fallback, !tools)), tools)
      case ToolExecution => Events(events[1..], fallback, true)
      case OtherEvent => Events(events[1..], fallback, tools)
  }

  /** What one frame does: how it ends the attempt, if it does, and whether a tool has run. */
  function Observe(f: Frame, fallback: Option<ProviderId>, tools: bool): (Option<Outcome>, bool) {
    match f
    case Ignored => (None, tools)
    case Rejected(e) => (Some(Err(RetryableOrAuth(e, fallback, !tools))), tools)
    case Failed(e) => (Some(Err(RetryableOrAuth(e, fallback, !tools))), tools)
    case Started(sent) => (if sent then None else Some(Err(TRANSPORT)), tools)
    case ToolExecute(sent) => (if sent then None else Some(Err(TRANSPORT)), true)
    case Result(response) =>
      (Some(if response.None? then Err(MALFORMED) else ResponseOrAuth(response.value, fallback, !tools)), tools)
    case Normalized(events) =>
      if events.None? then (Some(Err(MALFORMED)), tools) else Events(events.value, fallback, tools)
  }

  /** The outcome of an attempt over these frames, and whether it ran a tool. A run that hears
      nothing more times out. */
  function Attempt(frames: seq<Frame>, fallback: Option<ProviderId>, tools: bool): (Outcome, bool)
    decreases |frames|
  {
    if frames == [] then (Err(TRANSPORT), tools)
    else
      var (end, ran) := Observe(frames[0], fallback, tools);
      if end.Some? then (end.value, ran) else Attempt(frames[1..], fallback, ran)
  }

  // ---------- the whole run

  datatype Policy = Manual | AutoOnce

  /** The session id of an attempt: the caller's, or one made up for it. */
  datatype SessionId = Caller(id: string) | Generated(n: nat)

  datatype Happening = Attempted(id: SessionId) | LoggedIn(provider: ProviderId)

  function Attributed(e: Error, fallback: Option<ProviderId>): Option<ProviderId> {
    if ProviderOf(e).Some? then ProviderOf(e) else fallback
  }

  /** The first attempt is to be followed by a login. */
  predicate LogsIn(first: Outcome, fallback: Option<ProviderId>, policy: Policy) {
    first.Err? && Retryable(first.error) && Attributed(first.error, fallback).Some? && policy.AutoOnce?
  }

  class AgentApi {
    var issued: nat
    ghost var history: seq<Happening>

    constructor ()
      ensures issued == 0 && history == []
    {
      issued, history := 0, [];
    }

    method RunOnce(frames: seq<Frame>, fallback: Option<ProviderId>, caller: Option<string>) returns (outcome: Outcome, ghost ran: bool)
      modifies this
      ensures (outcome, ran) == Attempt(frames, fallback, false)
      ensures issued == old(issued) + if caller.None? then 1 else 0
      ensures history == old(history) + [Attempted(if caller.Some? then Caller(caller.value) else Generated(old(issued)))]
    {
      var id := if caller.Some? then Caller(caller.value) else Generated(issued);
      if caller.None? {
        issued := issued + 1;
      }
      history := history + [Attempted(id)];
      var tools, i := false, 0;
      assert frames[0..] == frames;
      while i < |frames|
        modifies {}
        invariant 0 <= i <= |frames|
        invariant Attempt(frames, fallback, false) == Attempt(frames[i..], fallback, tools)
        decreases |frames| - i
      {
        assert frames[i..][1..] == frames[i + 1..];
        ghost var seen := Observe(frames[i], fallback, tools);
        match frames[i] {
          case Ignored =>
          case Rejected(e) =>
            return Err(RetryableOrAuth(e, fallback, !tools)), tools;
          case Failed(e) =>
            return Err(RetryableOrAuth(e, fallback, !tools)), tools;
          case Started(sent) =>
            if !sent {
              return Err(TRANSPORT), tools;
            }
          case ToolExecute(sent) =>
            if !sent {
              return Err(TRANSPORT), true;
            }
            tools := true;
          case Result(response) =>
            if response.None? {
              return Err(MALFORMED), tools;
            }
            return ResponseOrAuth(response.value, fallback, !tools), tools;
          case Normalized(events) =>
            if events.None? {
              return Err(MALFORMED), tools;
            }
            var end;
            end, tools := TakeEvents(events.value, fallback, tools);
            if end.Some? {
              return end.value, tools;
            }
        }
        i := i + 1;
      }
      return Err(TRANSPORT), tools;
    }

    method TakeEvents(events: seq<AgentEvent>, fallback: Option<ProviderId>, tools: bool) returns (end: Option<Outcome>, ran: bool)
      ensures (end, ran) == Events(events, fallback, tools)
    {
      ran := tools;
      assert events[0..] == events;
      for k := 0 to |events|
        invariant Events(events, fallback, tools) == Events(events[k..], fallback, ran)
      {
        assert events[k..][1..] == events[k + 1..];
        match events[k]
        case Failure(e) => return Some(Err(RetryableOrAuth(e, fallback, !ran))), ran;
        case ToolExecution => ran := true;
        case AgentEnd(r) => return Some(ResponseOrAuth(r, fallback, !ran)), ran;
        case OtherEvent =>
      }
      return None, ran;
    }

    /** `first` and `second` are what the attempts hear, `login` whether logging in works. */
    method Run(first: seq<Frame>, second: seq<Frame>, login: bool,
               fallback: Option<ProviderId>, policy: Policy, caller: Option<string>)
      returns (outcome: Outcome)
      modifies this
      ensures
        var one := Attempt(first, fallback, false).0;
        var id := if caller.Some? then Caller(caller.value) else Generated(old(issued));
        var newId := Generated(old(issued) + if caller.None? then 1 else 0);
        if !LogsIn(one, fallback, policy) then
          history == old(history) + [Attempted(id)]
          && outcome == if one.Err? && Retryable(one.error) then Err(Promote(one.error, fallback)) else one
        else
          var provider := Attributed(one.error, fallback).value;
          if !login then
            history == old(history) + [Attempted(id), LoggedIn(provider)]
            && outcome == Err(AuthRequired(provider, one.error.message))
          else
            var two := Attempt(second, fallback, false).0;
            history == old(history) + [Attempted(id), LoggedIn(provider), Attempted(newId)]
            && outcome == if two.Err? then Err(Promote(two.error, Some(provider))) else two
    {
      ghost var ran;
      outcome, ran := RunOnce(first, fallback, caller);
      if outcome.Settled? || !Retryable(outcome.error) {
        return;
      }
      var error := outcome.error;
      var provider := Attributed(error, fallback);
      if provider.None? {
        return;
      }
      if policy != AutoOnce {
        return Err(AuthRequired(provider.value, error.message));
      }
      history := history + [LoggedIn(provider.value)];
      if !login {
        return Err(AuthRequired(provider.value, error.message));
      }
      outcome, ran := RunOnce(second, fallback, None);
      if outcome.Err? {
        outcome := Err(Promote(outcome.error, provider));
      }
    }
  }

  // ---------- tools

  predicate RunsTool(f: Frame) {
    f.ToolExecute? || (f.Normalized? && f.events.Some? && ToolAmong(f.events.value))
  }

  /** A tool is reported before anything that ends the attempt. */
  predicate ToolAmong(events: seq<AgentEvent>) {
    events != [] && (events[0].ToolExecution? || (events[0].OtherEvent? && ToolAmong(events[1..])))
  }

  /** The frames an attempt takes: through the first that ends it. */
  function Taken(frames: seq<Frame>): (n: nat)
    ensures n <= |frames|
  {
    if frames == [] then 0
    else if Observe(frames[0], None, false).0.Some? then 1
    else 1 + Taken(frames[1..])
  }

  /** A tool has run in an attempt that hears these frames. */
  ghost predicate RanTool(frames: seq<Frame>) {
    exists i :: 0 <= i < Taken(frames) && RunsTool(frames[i])
  }

  lemma {:induction false} EventsRun(events: seq<AgentEvent>, fallback: Option<ProviderId>, tools: bool)
    ensures Events(events, fallback, tools).1 == (tools || ToolAmong(events))
    ensures Events(events, fallback, tools).0.Some? == Events(events, None, false).0.Some?
    decreases |events|
  {
    if events != [] {
      EventsRun(events[1..], fallback, true);
      EventsRun(events[1..], fallback, tools);
      EventsRun(events[1..], None, true);
    }
  }

  lemma ObserveRuns(f: Frame, fallback: Option<ProviderId>, tools: bool)
    ensures Observe(f, fallback, tools).1 == (tools || RunsTool(f))
    ensures Observe(f, fallback, tools).0.Some? == Observe(f, None, false).0.Some?
  {
    if f.Normalized? && f.events.Some? {
      EventsRun(f.events.value, fallback, tools);
    }
  }

  /** An error that could be retried comes out of an attempt that has run a tool only if there
      is no provider to name. */
  predicate Spent(o: Outcome, fallback: Option<ProviderId>) {
    o.Err? && Retryable(o.error) ==> Attributed(o.error, fallback).None?
  }

  lemma {:induction false} EventsSpent(events: seq<AgentEvent>, fallback: Option<ProviderId>, tools: bool)
    ensures var (end, ran) := Events(events, fallback, tools); end.Some? && ran ==> Spent(end.value, fallback)
    decreases |events|
  {
    if events != [] {
      EventsSpent(events[1..], fallback, true);
      EventsSpent(events[1..], fallback, tools);
    }
  }

  lemma {:induction false} AttemptSpent(frames: seq<Frame>, fallback: Option<ProviderId>, tools: bool)
    ensures var (outcome, ran) := Attempt(frames, fallback, tools); ran ==> Spent(outcome, fallback)
    decreases |frames|
  {
    if frames != [] {
      var f := frames[0];
      if f.Normalized? && f.events.Some? {
        EventsSpent(f.events.value, fallback, tools);
      }
      AttemptSpent(frames[1..], fallback, Observe(f, fallback, tools).1);
    }
  }

  lemma {:induction false} AttemptRan(frames: seq<Frame>, fallback: Option<ProviderId>, tools: bool)
    ensures Attempt(frames, fallback, tools).1 <==> tools || RanTool(frames)
    decreases |frames|
  {
    if frames != [] {
      var f, rest := frames[0], frames[1..];
      ObserveRuns(f, fallback, tools);
      AttemptRan(rest, fallback, tools || RunsTool(f));
      if RunsTool(f) {
        assert RanTool(frames);
      }
      if RanTool(rest) && Observe(f, None, false).0.None? {
        var i :| 0 <= i < Taken(rest) && RunsTool(rest[i]);
        assert RunsTool(frames[i + 1]);
      }
      if RanTool(frames) {
        var i :| 0 <= i < Taken(frames) && RunsTool(frames[i]);
        if i > 0 {
          assert RunsTool(rest[i - 1]);
        }
      }
    }
  }

  // ---------- what a caller can rely on

  function Attempts(h: seq<Happening>): nat {
    if h == [] then 0 else (if h[0].Attempted? then 1 else 0) + Attempts(h[1..])
  }

  function Logins(h: seq<Happening>): nat {
    if h == [] then 0 else (if h[0].LoggedIn? then 1 else 0) + Logins(h[1..])
  }

  /** No run is replayed once its first attempt has run a tool: there is no login then, and
      so no second attempt, whether or not a provider can be named. */
  lemma ToolsAreNotReplayed(first: seq<Frame>, fallback: Option<ProviderId>, policy: Policy)
    requires RanTool(first)
    ensures !LogsIn(Attempt(first, fallback, false).0, fallback, policy)
  {
    AttemptRan(first, fallback, false);
    AttemptSpent(first, fallback, false);
  }

  /** One run: at most two attempts and one login, the second attempt under an id made up for
      it; just one attempt and no login if a tool ran in the first. */
  method RunIsBounded(api: AgentApi, first: seq<Frame>, second: seq<Frame>, login: bool,
                      fallback: Option<ProviderId>, policy: Policy, caller: Option<string>)
    returns (outcome: Outcome, ghost happened: seq<Happening>)
    modifies api
    ensures api.history == old(api.history) + happened
    ensures 1 <= Attempts(happened) <= 2 && Logins(happened) <= 1
    ensures happened[0].Attempted? && (caller.Some? ==> happened[0].id == Caller(caller.value))
    ensures Attempts(happened) == 2 ==>
              policy.AutoOnce? && Logins(happened) == 1 && |happened| == 3 && happened[1].LoggedIn?
              && happened[2].Attempted? && happened[2].id.Generated? && happened[2].id.n >= old(api.issued)
              && happened[2].id != happened[0].id
    ensures RanTool(first) ==> Attempts(happened) == 1 && Logins(happened) == 0
    ensures outcome.Err? && Retryable(outcome.error) ==> Attributed(outcome.error, fallback).None?
  {
    outcome := api.Run(first, second, login, fallback, policy, caller);
    happened := api.history[|old(api.history)|..];
    if RanTool(first) {
      ToolsAreNotReplayed(first, fallback, policy);
    }
    Counts(happened);
  }

  lemma Counts(h: seq<Happening>)
    ensures |h| == 1 && h[0].Attempted? ==> Attempts(h) == 1 && Logins(h) == 0
    ensures |h| == 2 && h[0].Attempted? && h[1].LoggedIn? ==> Attempts(h) == 1 && Logins(h) == 1
    ensures |h| == 3 && h[0].Attempted? && h[1].LoggedIn? && h[2].Attempted? ==> Attempts(h) == 2 && Logins(h) == 1
  {
    if |h| == 3 {
      assert h[1..][1..][1..] == [] && Attempts(h[1..][1..]) == Attempts([h[2]]);
    } else if |h| == 2 {
      assert h[1..][1..] == [];
      assert Attempts(h[1..]) == Attempts([h[1]]) && Logins(h[1..]) == Logins([h[1]]);
    } else if |h| == 1 {
      assert h[1..] == [];
    }
  }
}
