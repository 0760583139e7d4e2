/** What a client sends. */
module Outbound {
  import opened Protocol

  /** The outbound channel. A request's position in it is its message id. */
  class Outbox {
    var sent: seq<Request>

    constructor ()
      ensures sent == []
    {
      sent := [];
    }

    method Send(q: Request) returns (msg: nat)
      modifies this
      ensures sent == old(sent) + [q] && msg == |old(sent)|
    {
      msg := |sent|;
      sent := sent + [q];
    }
  }
}
