/** The browser's side of an invocation: which calls it is running and what it answers. */
module Executor {
  import opened Common
  import opened RecentRequests

  datatype UpMessage =
    | ResultUp(invocationId: Uuid, output: Summary)
    | ErrorUp(invocationId: Uuid, code: string)

  datatype Reaction = Reaction(active: set<Uuid>, reply: Option<UpMessage>)

  /** An `invoke` arrives: refused with an error, or started. */
  function Begun(active: set<Uuid>, limit: nat, id: Uuid, registered: bool): Reaction {
    if id in active then Reaction(active, Some(ErrorUp(id, "INVALID_MESSAGE")))
    else if !registered then Reaction(active, Some(ErrorUp(id, "REGISTRATION_NOT_FOUND")))
    else if |active| >= limit then Reaction(active, Some(ErrorUp(id, "RATE_LIMITED")))
    else Reaction(active + {id}, None)
  }

  /** How a running call ends: its handler returns a valid result, or throws, or runs into the call's
      own timer. A result that is not valid counts as an error. An error that says that the call timed
      out, was cancelled, or that a connection was closed is treated as if the client itself had said
      so. `size` is the length of the message that would report the ending; messages with a fixed text
      are shorter than any limit that a Bridge can set. */
  datatype Ending =
    | Value(output: Summary, size: nat)
    | Failure(size: nat)
    | Deadline
    | TimeoutError(size: nat)
    | CancelledError(size: nat)
    | ClosedError

  /** An error reply that is over the negotiated limit is not sent, and nothing is sent in its place. */
  function ErrorReply(id: Uuid, code: string, size: nat, max: nat): Option<UpMessage> {
    if size <= max then Some(ErrorUp(id, code)) else None
  }

  /** A result that is over the limit is reported as an error with a fixed text. */
  function Reply(id: Uuid, ending: Ending, max: nat): Option<UpMessage> {
    match ending
    case Value(output, size) => Some(if size <= max then ResultUp(id, output) else ErrorUp(id, "HANDLER_ERROR"))
    case Failure(size) => ErrorReply(id, "HANDLER_ERROR", size, max)
    case Deadline => Some(ErrorUp(id, "INVOCATION_TIMEOUT"))
    case TimeoutError(size) => ErrorReply(id, "INVOCATION_TIMEOUT", size, max)
    case CancelledError(size) => ErrorReply(id, "INVOCATION_CANCELLED", size, max)
    case ClosedError => None
  }

  /** A running call ends: it leaves the active set, and is answered unless it ended silently. */
  function Concluded(active: set<Uuid>, id: Uuid, ending: Ending, max: nat): Reaction {
    if id in active then Reaction(active - {id}, Reply(id, ending, max)) else Reaction(active, None)
  }

  /** A `cancel` arrives. A handler that has already ended, but has not been answered yet, is
      answered with that ending. */
  function Aborted(active: set<Uuid>, id: Uuid, already: Option<Ending>, max: nat): Reaction {
    if id !in active then Reaction(active, Some(ErrorUp(id, "INVOCATION_NOT_FOUND")))
    else if already.Some? then Reaction(active - {id}, Reply(id, already.value, max))
    else Reaction(active - {id}, Some(ErrorUp(id, "INVOCATION_CANCELLED")))
  }

  /** The endings that the browser does not report: a closed-connection error, and an error whose
      reply is over the limit. */
  predicate Unreported(ending: Ending, max: nat) {
    || ending.ClosedError?
    || ((ending.Failure? || ending.TimeoutError? || ending.CancelledError?) && ending.size > max)
  }

  /** Every reply names the call that caused it, a call that has been answered is not running, and a
      call that ends is left without an answer exactly if its ending is not reported. */
  lemma AnsweredIsNotRunning(active: set<Uuid>, limit: nat, id: Uuid, registered: bool, already: Option<Ending>,
                             ending: Ending, max: nat)
    ensures forall r :: r in [Aborted(active, id, already, max), Concluded(active, id, ending, max)] && r.reply.Some? ==>
      r.reply.value.invocationId == id && id !in r.active
    ensures var r := Begun(active, limit, id, registered);
      r.reply.Some? ==> r.reply.value.invocationId == id && r.active == active && (id in r.active <==> id in active)
    ensures Begun(active, limit, id, registered).active <= active + {id}
    ensures id in active ==> (Concluded(active, id, ending, max).reply.None? <==> Unreported(ending, max))
    ensures Aborted(active, id, already, max).reply.None? <==> id in active && already.Some? && Unreported(already.value, max)
  {
  }

  /** What `#send` does: it throws on a closed socket, and on a message that is too large. */
  datatype Sending = Sent | NotOpen | TooLarge

  class InvocationExecutor {
    const limit: nat
    const maxMessageBytes: nat
    var activeInvocations: set<Uuid>
    var socketOpen: bool
    // The messages put on the wire.
    ghost var sent: seq<UpMessage>

    ghost predicate Valid()
      reads this
    {
      |activeInvocations| <= limit
    }

    constructor (maxConcurrentInvocations: Option<nat>, maxMessageBytes: nat)
      ensures Valid() && activeInvocations == {} && socketOpen && sent == []
      ensures limit == if maxConcurrentInvocations.Some? then maxConcurrentInvocations.value else 1
      ensures this.maxMessageBytes == maxMessageBytes
    {
      limit := if maxConcurrentInvocations.Some? then maxConcurrentInvocations.value else 1;
      this.maxMessageBytes := maxMessageBytes;
      activeInvocations, socketOpen, sent := {}, true, [];
    }

    method Send(message: UpMessage, size: nat) returns (r: Sending)
      modifies this`sent
      ensures r == if !socketOpen then NotOpen else if size > maxMessageBytes then TooLarge else Sent
      ensures sent == if r == Sent then old(sent) + [message] else old(sent)
    {
      if !socketOpen {
        return NotOpen;
      }
      if size > maxMessageBytes {
        return TooLarge;
      }
      sent := sent + [message];
      return Sent;
    }

    /** A reply with a fixed text. */
    method SendFixed(message: UpMessage)
      modifies this`sent
      ensures sent == if socketOpen then old(sent) + [message] else old(sent)
    {
      if socketOpen {
        sent := sent + [message];
      }
    }

    method Begin(id: Uuid, registered: bool)
      requires Valid()
      modifies this
      ensures var r := Begun(old(activeInvocations), limit, id, registered);
        && activeInvocations == r.active
        && sent == if r.reply.Some? && socketOpen then old(sent) + [r.reply.value] else old(sent)
      ensures id !in old(activeInvocations) && registered && |old(activeInvocations)| < limit ==>
        activeInvocations == old(activeInvocations) + {id} && sent == old(sent)
      ensures id in old(activeInvocations) || !registered || |old(activeInvocations)| >= limit ==>
        && activeInvocations == old(activeInvocations)
        && (socketOpen ==>
              sent == old(sent) + [ErrorUp(id, if id in old(activeInvocations) then "INVALID_MESSAGE"
                                               else if !registered then "REGISTRATION_NOT_FOUND" else "RATE_LIMITED")])
      ensures Valid() && socketOpen == old(socketOpen)
    {
      if id in activeInvocations {
        SendFixed(ErrorUp(id, "INVALID_MESSAGE"));
        return;
      }
      if !registered {
        SendFixed(ErrorUp(id, "REGISTRATION_NOT_FOUND"));
        return;
      }
      if |activeInvocations| >= limit {
        SendFixed(ErrorUp(id, "RATE_LIMITED"));
        return;
      }
      activeInvocations := activeInvocations + {id};
    }

    /** The continuation of a started invocation: an error while the result is sent is handled like
        an error of the handler, an error while that is reported is only logged, and the `finally`
        block always removes the call. */
    method Finish(id: Uuid, ending: Ending)
      requires Valid()
      modifies this
      ensures var r := Concluded(old(activeInvocations), id, ending, maxMessageBytes);
        && activeInvocations == r.active
        && sent == if r.reply.Some? && socketOpen then old(sent) + [r.reply.value] else old(sent)
      ensures activeInvocations == old(activeInvocations) - {id}
      ensures id !in old(activeInvocations) || !socketOpen ==> sent == old(sent)
      ensures id in old(activeInvocations) && socketOpen && ending.Value? && ending.size <= maxMessageBytes ==>
        sent == old(sent) + [ResultUp(id, ending.output)]
      ensures id in old(activeInvocations) && socketOpen && ending.Value? && ending.size > maxMessageBytes ==>
        sent == old(sent) + [ErrorUp(id, "HANDLER_ERROR")]
      ensures Valid() && socketOpen == old(socketOpen)
    {
      if id !in activeInvocations {
        return;
      }
      Report(id, ending);
      activeInvocations := activeInvocations - {id};
    }

    method Report(id: Uuid, ending: Ending)
      modifies this`sent
      ensures var reply := Reply(id, ending, maxMessageBytes);
        sent == if reply.Some? && socketOpen then old(sent) + [reply.value] else old(sent)
      // Ending by ending.
      ensures !socketOpen ==> sent == old(sent)
      ensures socketOpen && ending.Value? ==>
        sent == old(sent) + [if ending.size <= maxMessageBytes then ResultUp(id, ending.output) else ErrorUp(id, "HANDLER_ERROR")]
      ensures socketOpen && ending.Deadline? ==> sent == old(sent) + [ErrorUp(id, "INVOCATION_TIMEOUT")]
      ensures socketOpen && ending.Failure? && ending.size <= maxMessageBytes ==>
        sent == old(sent) + [ErrorUp(id, "HANDLER_ERROR")]
      ensures socketOpen && ending.TimeoutError? && ending.size <= maxMessageBytes ==>
        sent == old(sent) + [ErrorUp(id, "INVOCATION_TIMEOUT")]
      ensures socketOpen && ending.CancelledError? && ending.size <= maxMessageBytes ==>
        sent == old(sent) + [ErrorUp(id, "INVOCATION_CANCELLED")]
      ensures ending.ClosedError? ==> sent == old(sent)
      ensures (ending.Failure? || ending.TimeoutError? || ending.CancelledError?) && ending.size > maxMessageBytes ==>
        sent == old(sent)
    {
      match ending
      case Value(output, size) =>
        var outcome := Send(ResultUp(id, output), size);
        if outcome == TooLarge {
          SendFixed(ErrorUp(id, "HANDLER_ERROR"));
        }
      case Failure(size) => var logged := Send(ErrorUp(id, "HANDLER_ERROR"), size);
      case Deadline => SendFixed(ErrorUp(id, "INVOCATION_TIMEOUT"));
      case TimeoutError(size) => var logged := Send(ErrorUp(id, "INVOCATION_TIMEOUT"), size);
      case CancelledError(size) => var logged := Send(ErrorUp(id, "INVOCATION_CANCELLED"), size);
      case ClosedError =>
    }

    method CancelInvocation(id: Uuid, already: Option<Ending>)
      requires Valid()
      modifies this
      ensures var r := Aborted(old(activeInvocations), id, already, maxMessageBytes);
        && activeInvocations == r.active
        && sent == if r.reply.Some? && socketOpen then old(sent) + [r.reply.value] else old(sent)
      ensures activeInvocations == old(activeInvocations) - {id}
      ensures !socketOpen ==> sent == old(sent)
      ensures socketOpen && id !in old(activeInvocations) ==> sent == old(sent) + [ErrorUp(id, "INVOCATION_NOT_FOUND")]
      ensures socketOpen && id in old(activeInvocations) && already.None? ==>
        sent == old(sent) + [ErrorUp(id, "INVOCATION_CANCELLED")]
      ensures Valid() && socketOpen == old(socketOpen)
    {
      if id !in activeInvocations {
        SendFixed(ErrorUp(id, "INVOCATION_NOT_FOUND"));
        return;
      }
      if already.Some? {
        Report(id, already.value);
      } else {
        SendFixed(ErrorUp(id, "INVOCATION_CANCELLED"));
      }
      activeInvocations := activeInvocations - {id};
    }

    /** The transport is gone: every running call is aborted and none is answered. */
    method RejectTransportWork()
      requires Valid()
      modifies this
      ensures activeInvocations == {} && !socketOpen && sent == old(sent) && Valid()
    {
      socketOpen := false;
      while activeInvocations != {}
        invariant |activeInvocations| <= limit && !socketOpen && sent == old(sent)
        decreases activeInvocations
      {
        var id :| id in activeInvocations;
        activeInvocations := activeInvocations - {id};
      }
    }
  }
}
