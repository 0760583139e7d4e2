/** The frames of the agent session protocol and the rules by which the runtime
    admits them. A request's position in the history of requests is its message id. */
module Protocol {
  import opened Options

  type SessionId = nat

  datatype Code = AgentBusy | AgentNotFound | InvalidRequest | OtherCode

  /** A client request. `sender` is the attempt that sent it, which the runtime never sees:
      it decides on the session id and the sequence number alone. */
  datatype Request =
    | Start(sender: nat, id: SessionId, number: nat)
    | Message(sender: nat, id: SessionId, number: nat)
    | Stop(sender: nat, id: SessionId, number: nat)
    | ToolResult(sender: nat, id: SessionId)

  /** `Silent` is an event that shows the caller nothing, `Unexpected` no event at all. */
  datatype OutputKind = Silent | Event | ToolExecute | Settlement | Unexpected

  /** A runtime frame. `to` is the request it answers (`in_reply_to`). A frame of a run
      names only the session; `origin`, the start request of the registration that
      emitted it, is there for the specification and no client reads it. */
  datatype Reply =
    | Started(id: SessionId, to: nat)
    | Stopped(id: SessionId, to: nat)
    | Acked(id: SessionId, to: nat)
    | Refused(id: SessionId, to: nat, code: Code)
    | RunError(id: SessionId, code: Code, origin: nat)
    | Output(id: SessionId, kind: OutputKind, origin: nat)
  {
    predicate OfRun() {
      RunError? || Output?
    }

    function InReplyTo(): Option<nat> {
      if OfRun() then None else Some(to)
    }
  }

  /** One registered session: the start request that created it, and the next sequence
      number the runtime accepts. */
  datatype Registration = Registration(start: nat, expected: nat)

  type Registry = map<SessionId, Registration>

  datatype Verdict = Granted | Denied(code: Code)

  /** What the runtime decides about a request. `admission` is its own judgement of the
      payload of a message that is in order. */
  function Decide(registry: Registry, q: Request, admission: Verdict): Verdict {
    match q
    case Start(_, id, number) =>
      if number != 1 then Denied(InvalidRequest)
      else if id in registry then Denied(AgentBusy)
      else Granted
    case Message(_, id, number) =>
      if id !in registry then Denied(AgentNotFound)
      else if number != registry[id].expected then Denied(InvalidRequest)
      else admission
    case Stop(_, id, number) =>
      if id !in registry then Denied(AgentNotFound)
      else if number != registry[id].expected then Denied(InvalidRequest)
      else Granted
    case ToolResult(_, _) => Granted
  }

  /** The registry after request `r`, which is `q`, got verdict `v`. */
  function Settle(registry: Registry, r: nat, q: Request, v: Verdict): Registry {
    if v.Denied? then registry else
    match q
    case Start(_, id, _) => registry[id := Registration(r, 2)]
    case Message(_, id, _) =>
      if id in registry
      then registry[id := registry[id].(expected := registry[id].expected + 1)]
      else registry
    case Stop(_, id, _) => registry - {id}
    case ToolResult(_, _) => registry
  }

  /** The frame that answers request `r`. */
  function Answer(r: nat, q: Request, v: Verdict): Reply {
    if v.Denied? then Refused(q.id, r, v.code) else
    match q
    case Start(_, id, _) => Started(id, r)
    case Stop(_, id, _) => Stopped(id, r)
    case Message(_, id, _) => Acked(id, r)
    case ToolResult(_, id) => Acked(id, r)
  }
}
