/** The broker and one browser, connected by a first-in-first-out channel each way. Both ends run
    the code modelled elsewhere; every other connection of the broker is free to do anything. */
module TwoParty {
  import opened Common
  import opened Capabilities
  import opened RecentRequests
  import opened Sequences
  import opened Expiring
  import opened BrokerModel
  import opened BrokerLaws
  import Executor

  /** A message on its way to the browser; `others` remembers which calls the broker held for this
      connection when it was sent. */
  datatype Packet = Packet(message: DownMessage, others: set<Uuid>)

  /** `open` is the Bridge's view of the socket and never becomes true again; `reachable` is the
      browser's. `messageLimit` is the message size that the welcome set. `seen` remembers every call
      the browser was ever asked to run, and `silent` those that it dropped and has not answered. */
  datatype System = System(
    broker: State,
    connection: Uuid,
    down: seq<Packet>,
    up: seq<Executor.UpMessage>,
    active: set<Uuid>,
    seen: set<Uuid>,
    silent: set<Uuid>,
    messageLimit: nat,
    open: bool,
    reachable: bool)

  datatype Action =
    | BridgeStep(now: nat, event: Event, stillOpen: bool)
    | BridgeCloses
    | DeliverDown(registered: bool, already: Option<Executor.Ending>)
    | HandlerEnds(id: Uuid, ending: Executor.Ending)
    | DeliverUp(now: nat)
    | BrowserCloses

  // ----- Steps -----

  /** The call of this connection that an event makes the Bridge give up on, if any. */
  ghost predicate GivesUp(s: System, e: Event) {
    && (e.TimerFired? || e.SignalAborted?)
    && e.id in s.broker.pending && Connection(s.broker.pending[e.id]) == s.connection
  }

  /** `send` returns true only while the socket is open. A cancel message always fits and always
      serialises, so it is lost only to a socket that is no longer open; losing the connection and
      stopping the Bridge close the socket in the same step. */
  ghost predicate Enabled(s: System, a: Action) {
    match a
    case BridgeStep(now, e, stillOpen) =>
      && Possible(s.broker, now, e)
      && ((e.ResultMessage? || e.ErrorMessage? || e.CancelFromBrowser?) ==> e.connectionId != s.connection)
      && (e.Invoke? && e.provider.session.connectionId == s.connection && e.sent ==> s.open)
      && (GivesUp(s, e) ==> (e.sent ==> s.open) && (!e.sent ==> !stillOpen))
      && (stillOpen ==> s.open && e != ConnectionLost(s.connection) && e != Stop)
    case BridgeCloses => true
    case DeliverDown(_, _) => s.down != []
    case HandlerEnds(id, _) => id in s.active
    case DeliverUp(now) => s.up != [] && s.broker.clock <= now
    case BrowserCloses => true
  }

  /** The messages a broker step put on this connection's wire. */
  function Emitted(s: System, after: State): seq<Packet> {
    if |after.outbox| > |s.broker.outbox| && after.outbox[|after.outbox| - 1].delivered
       && after.outbox[|after.outbox| - 1].connectionId == s.connection
    then [Packet(after.outbox[|after.outbox| - 1].message, Owned(s.broker.pending, s.connection))]
    else []
  }

  function Answers(s: System, reply: Option<Executor.UpMessage>): seq<Executor.UpMessage> {
    if reply.Some? && s.reachable then s.up + [reply.value] else s.up
  }

  /** The calls that the browser has dropped, once it has ended or been asked about `id`. */
  function Silenced(s: System, id: Uuid, r: Executor.Reaction): set<Uuid> {
    if r.reply.None? && id in s.active then s.silent + {id} else s.silent - {id}
  }

  function Delivered(s: System, limits: Limits, registered: bool, already: Option<Executor.Ending>): System
    requires s.down != []
  {
    match s.down[0].message
    case InvokeMessage(id) =>
      var r := Executor.Begun(s.active, limits.maxConcurrentRequestsPerRuntime, id, registered);
      s.(down := s.down[1..], active := r.active, up := Answers(s, r.reply), seen := s.seen + {id})
    case CancelMessage(id) =>
      var r := Executor.Aborted(s.active, id, already, s.messageLimit);
      s.(down := s.down[1..], active := r.active, up := Answers(s, r.reply), silent := Silenced(s, id, r))
  }

  function EventOf(connection: Uuid, m: Executor.UpMessage): Event {
    match m
    case ResultUp(id, output) => ResultMessage(connection, id, output)
    case ErrorUp(id, code) => ErrorMessage(connection, id, code)
  }

  function Next(s: System, limits: Limits, a: Action): System {
    match a
    case BridgeStep(now, e, stillOpen) =>
      var after := Step(s.broker, limits, now, e);
      s.(broker := after, down := s.down + Emitted(s, after), open := stillOpen)
    case BridgeCloses => s.(open := false)
    case DeliverDown(registered, already) => if s.down == [] then s else Delivered(s, limits, registered, already)
    case HandlerEnds(id, ending) =>
      if id !in s.active then s else
        var r := Executor.Concluded(s.active, id, ending, s.messageLimit);
        s.(active := r.active, up := Answers(s, r.reply), silent := Silenced(s, id, r))
    case DeliverUp(now) =>
      if s.up == [] then s else
        s.(broker := Step(s.broker, limits, now, EventOf(s.connection, s.up[0])), up := s.up[1..])
    case BrowserCloses => s.(active := {}, reachable := false)
  }

  // ----- The invariant -----

  function Effect(active: set<Uuid>, m: DownMessage): set<Uuid> {
    match m
    case InvokeMessage(id) => active + {id}
    case CancelMessage(id) => active - {id}
  }

  /** The most the browser can be running once it has taken everything on the wire. */
  function Claimed(active: set<Uuid>, down: seq<Packet>): set<Uuid>
    decreases |down|
  {
    if down == [] then active else Claimed(Effect(active, down[0].message), down[1..])
  }

  /** When an `invoke` is delivered, what the browser is running was pending when it was sent. */
  ghost predicate Guarded(active: set<Uuid>, down: seq<Packet>, limit: nat)
    decreases |down|
  {
    down != [] ==>
      && (down[0].message.InvokeMessage? ==>
            && active <= down[0].others
            && |down[0].others| < limit
            && down[0].message.invocationId !in down[0].others)
      && Guarded(Effect(active, down[0].message), down[1..], limit)
  }

  function InvokeIds(down: seq<Packet>): set<Uuid> {
    if down == [] then {}
    else InvokeIds(down[1..]) + (if down[0].message.InvokeMessage? then {down[0].message.invocationId} else {})
  }

  /** Every call is sent once. */
  ghost predicate SentOnce(seen: set<Uuid>, down: seq<Packet>)
    decreases |down|
  {
    down != [] ==>
      && (down[0].message.InvokeMessage? ==>
            down[0].message.invocationId !in seen && SentOnce(seen + {down[0].message.invocationId}, down[1..]))
      && (down[0].message.CancelMessage? ==> down[0].message.invocationId in seen && SentOnce(seen, down[1..]))
  }

  function CancelIds(down: seq<Packet>): set<Uuid> {
    if down == [] then {}
    else CancelIds(down[1..]) + (if down[0].message.CancelMessage? then {down[0].message.invocationId} else {})
  }

  function UpIds(up: seq<Executor.UpMessage>): set<Uuid> {
    set m | m in up :: m.invocationId
  }

  /** A pending call is on its way down, or running, or answered, or was dropped without an answer. */
  ghost predicate Located(s: System) {
    Owned(s.broker.pending, s.connection) <= InvokeIds(s.down) + s.active + UpIds(s.up) + s.silent
  }

  ghost predicate WireInv(s: System, limits: Limits) {
    && Inv(s.broker, limits)
    && s.active <= s.seen && UpIds(s.up) <= s.seen && s.active !! UpIds(s.up)
    && SentOnce(s.seen, s.down)
    && s.seen + InvokeIds(s.down) <= s.broker.verdicts.Keys
    && Owned(s.broker.pending, s.connection) <= s.seen + InvokeIds(s.down)
    && Guarded(s.active, s.down, limits.maxConcurrentRequestsPerRuntime)
    && (s.open ==> Claimed(s.active, s.down) <= Owned(s.broker.pending, s.connection))
    && s.silent <= s.seen && s.silent !! s.active && s.silent !! UpIds(s.up)
    && CancelIds(s.down) !! Owned(s.broker.pending, s.connection)
    && (s.open && s.reachable ==> Located(s))
  }

  // ----- Lemmas about the wire -----

  lemma {:induction false} ClaimedMonotone(a: set<Uuid>, b: set<Uuid>, down: seq<Packet>)
    requires a <= b
    ensures Claimed(a, down) <= Claimed(b, down)
    decreases |down|
  {
    if down != [] {
      ClaimedMonotone(Effect(a, down[0].message), Effect(b, down[0].message), down[1..]);
    }
  }

  lemma {:induction false} GuardedMonotone(a: set<Uuid>, b: set<Uuid>, down: seq<Packet>, limit: nat)
    requires a <= b && Guarded(b, down, limit)
    ensures Guarded(a, down, limit)
    decreases |down|
  {
    if down != [] {
      GuardedMonotone(Effect(a, down[0].message), Effect(b, down[0].message), down[1..], limit);
    }
  }

  lemma {:induction false} ClaimedWithin(active: set<Uuid>, down: seq<Packet>)
    ensures Claimed(active, down) <= active + InvokeIds(down)
    decreases |down|
  {
    if down != [] {
      ClaimedWithin(Effect(active, down[0].message), down[1..]);
    }
  }

  lemma {:induction false} UnseenIds(seen: set<Uuid>, down: seq<Packet>)
    requires SentOnce(seen, down)
    ensures seen !! InvokeIds(down)
    decreases |down|
  {
    if down != [] {
      if down[0].message.InvokeMessage? {
        UnseenIds(seen + {down[0].message.invocationId}, down[1..]);
      } else {
        UnseenIds(seen, down[1..]);
      }
    }
  }

  // What appending one packet does to each of the folds over the wire.

  lemma {:induction false} ClaimedAppend(active: set<Uuid>, down: seq<Packet>, p: Packet)
    ensures Claimed(active, down + [p]) == Effect(Claimed(active, down), p.message)
    decreases |down|
  {
    if down == [] {
      assert down + [p] == [p] && [p][1..] == [];
    } else {
      assert (down + [p])[0] == down[0] && (down + [p])[1..] == down[1..] + [p];
      ClaimedAppend(Effect(active, down[0].message), down[1..], p);
    }
  }

  lemma {:induction false} GuardedAppend(active: set<Uuid>, down: seq<Packet>, p: Packet, limit: nat)
    requires Guarded(active, down, limit)
    requires p.message.InvokeMessage? ==>
      Claimed(active, down) <= p.others && |p.others| < limit && p.message.invocationId !in p.others
    ensures Guarded(active, down + [p], limit)
    decreases |down|
  {
    if down == [] {
      assert down + [p] == [p] && [p][1..] == [];
    } else {
      assert (down + [p])[0] == down[0] && (down + [p])[1..] == down[1..] + [p];
      GuardedAppend(Effect(active, down[0].message), down[1..], p, limit);
    }
  }

  lemma {:induction false} InvokeIdsAppend(down: seq<Packet>, p: Packet)
    ensures InvokeIds(down + [p]) == InvokeIds(down) + (if p.message.InvokeMessage? then {p.message.invocationId} else {})
    decreases |down|
  {
    if down == [] {
      assert down + [p] == [p] && [p][1..] == [];
    } else {
      assert (down + [p])[0] == down[0] && (down + [p])[1..] == down[1..] + [p];
      InvokeIdsAppend(down[1..], p);
    }
  }

  lemma {:induction false} CancelIdsAppend(down: seq<Packet>, p: Packet)
    ensures CancelIds(down + [p]) == CancelIds(down) + (if p.message.CancelMessage? then {p.message.invocationId} else {})
    decreases |down|
  {
    if down == [] {
      assert down + [p] == [p] && [p][1..] == [];
    } else {
      assert (down + [p])[0] == down[0] && (down + [p])[1..] == down[1..] + [p];
      CancelIdsAppend(down[1..], p);
    }
  }

  /** Only calls that were sent are cancelled. */
  lemma {:induction false} CancelledWereSent(seen: set<Uuid>, down: seq<Packet>)
    requires SentOnce(seen, down)
    ensures CancelIds(down) <= seen + InvokeIds(down)
    decreases |down|
  {
    if down != [] {
      if down[0].message.InvokeMessage? {
        CancelledWereSent(seen + {down[0].message.invocationId}, down[1..]);
      } else {
        CancelledWereSent(seen, down[1..]);
      }
    }
  }

  lemma {:induction false} SentOnceAppend(seen: set<Uuid>, down: seq<Packet>, p: Packet)
    requires SentOnce(seen, down)
    requires p.message.invocationId in seen + InvokeIds(down) <==> p.message.CancelMessage?
    ensures SentOnce(seen, down + [p])
    decreases |down|
  {
    if down == [] {
      assert down + [p] == [p] && [p][1..] == [];
    } else {
      assert (down + [p])[0] == down[0] && (down + [p])[1..] == down[1..] + [p];
      var head := down[0].message;
      if head.InvokeMessage? {
        assert seen + {head.invocationId} + InvokeIds(down[1..]) == seen + InvokeIds(down);
        SentOnceAppend(seen + {head.invocationId}, down[1..], p);
      } else {
        SentOnceAppend(seen, down[1..], p);
      }
    }
  }

  /** What taking the first packet off the wire does to the folds. */
  lemma Pop(active: set<Uuid>, seen: set<Uuid>, down: seq<Packet>, limit: nat)
    requires down != [] && Guarded(active, down, limit) && SentOnce(seen, down)
    ensures var m, rest := down[0].message, down[1..];
      var seen' := if m.InvokeMessage? then seen + {m.invocationId} else seen;
      && Claimed(active, down) == Claimed(Effect(active, m), rest)
      && Guarded(Effect(active, m), rest, limit)
      && SentOnce(seen', rest)
      && seen' + InvokeIds(rest) == seen + InvokeIds(down)
      && InvokeIds(down) == InvokeIds(rest) + (if m.InvokeMessage? then {m.invocationId} else {})
      && (m.InvokeMessage? ==> m.invocationId !in seen)
      && (m.CancelMessage? ==> m.invocationId in seen)
      && CancelIds(down) == CancelIds(rest) + (if m.CancelMessage? then {m.invocationId} else {})
  {
  }

  lemma UpIdsAppend(up: seq<Executor.UpMessage>, m: Executor.UpMessage)
    ensures UpIds(up + [m]) == UpIds(up) + {m.invocationId}
  {
    forall i | i in UpIds(up) + {m.invocationId} ensures i in UpIds(up + [m]) {
      if i == m.invocationId {
        assert m in up + [m];
      } else {
        var x :| x in up && x.invocationId == i;
        assert x in up + [m];
      }
    }
  }

  // ----- Preservation -----

  /** The effect of a broker step on the calls of this connection. */
  lemma OwnedAfter(s: System, limits: Limits, now: nat, e: Event)
    requires Inv(s.broker, limits) && Possible(s.broker, now, e)
    ensures var after := Step(s.broker, limits, now, e);
      forall id :: id in Owned(s.broker.pending, s.connection) ==>
        (id in Owned(after.pending, s.connection) <==> !Ends(s.broker, e, id))
  {
    var after := Step(s.broker, limits, now, e);
    forall id | id in Owned(s.broker.pending, s.connection)
      ensures id in Owned(after.pending, s.connection) <==> !Ends(s.broker, e, id)
    {
      CallEndsExactlyWhenAddressed(s.broker, limits, now, e, id);
    }
  }

  /** Does this event put an `invoke` on this connection's wire? */
  ghost predicate Asks(s: System, limits: Limits, e: Event) {
    && e.Invoke? && e.provider.session.connectionId == s.connection && e.sent
    && Refusal(s.broker, limits, e.provider, e.aborted).None?
  }

  /** The packets and the calls that a broker step adds. */
  ghost predicate Effects(s: System, limits: Limits, e: Event, after: State) {
    var mine := Owned(s.broker.pending, s.connection);
    && s.broker.verdicts.Keys <= after.verdicts.Keys
    && if Asks(s, limits, e) then
         && Emitted(s, after) == [Packet(InvokeMessage(e.id), mine)]
         && |mine| < limits.maxConcurrentRequestsPerRuntime && e.id !in mine
         && e.id in after.verdicts
         && Owned(after.pending, s.connection) == mine + {e.id}
       else
         && Owned(after.pending, s.connection) <= mine
         && Emitted(s, after) == if GivesUp(s, e) && e.sent then [Packet(CancelMessage(e.id), mine)] else []
  }

  lemma InvokeEffects(s: System, limits: Limits, now: nat, e: Event)
    requires s.broker.pending.Keys <= s.broker.verdicts.Keys && e.Invoke? && e.id !in s.broker.verdicts
    ensures Effects(s, limits, e, Invoked(s.broker, limits, e.id, e.kind, e.provider, e.aborted, e.sent))
  {
    hide Counts;
    hide RecentRequests.Started;
    hide FinishedAll;
    hide Refusal;
    OwnedWith(s.broker.pending, e.id, Pending(e.kind, e.provider), s.connection);
    AdmittedHasRoom(s.broker, limits, e.provider, e.aborted);
  }

  lemma AdmittedHasRoom(b: State, limits: Limits, provider: Capability, aborted: bool)
    ensures Refusal(b, limits, provider, aborted).None? ==>
      |Owned(b.pending, provider.session.connectionId)| < limits.maxConcurrentRequestsPerRuntime
  {
  }

  lemma InterruptEffects(s: System, limits: Limits, now: nat, e: Event, code: ErrorCode)
    requires e.TimerFired? || e.SignalAborted?
    ensures Effects(s, limits, e, Interrupted(s.broker, limits, now, e.id, code, e.sent))
  {
    hide Counts;
    hide FinishedAll;
    hide Inserted;
  }

  lemma AnswerEffects(s: System, limits: Limits, now: nat, e: Event, c: Uuid, id: Uuid, v: Verdict)
    requires !e.Invoke? && !e.TimerFired? && !e.SignalAborted?
    ensures Effects(s, limits, e, Answered(s.broker, now, c, id, v))
  {
    hide Counts;
    hide FinishedAll;
    hide Keep;
  }

  lemma EmittedBy(s: System, limits: Limits, now: nat, e: Event)
    requires s.broker.pending.Keys <= s.broker.verdicts.Keys && Possible(s.broker, now, e)
    ensures Effects(s, limits, e, Step(s.broker, limits, now, e))
  {
    hide Effects;
    hide Invoked;
    hide Interrupted;
    hide Answered;
    match e
    case Invoke(_, _, _, _, _) => InvokeEffects(s, limits, now, e);
    case ResultMessage(c, id, output) => AnswerEffects(s, limits, now, e, c, id, ResultVerdict(s.broker, id, output));
    case ErrorMessage(c, id, code) => AnswerEffects(s, limits, now, e, c, id, Rejected(CodeFromBrowser(code)));
    case CancelFromBrowser(c, id) => AnswerEffects(s, limits, now, e, c, id, Rejected(Cancelled));
    case TimerFired(id, sent) => InterruptEffects(s, limits, now, e, TimedOut);
    case SignalAborted(id, sent) => InterruptEffects(s, limits, now, e, Cancelled);
    case ConnectionLost(_) => LossEffects(s, limits, e);
    case Stop => LossEffects(s, limits, e);
  }

  lemma LossEffects(s: System, limits: Limits, e: Event)
    requires e.ConnectionLost? || e.Stop?
    ensures Effects(s, limits, e, if e.ConnectionLost? then Lost(s.broker, e.connectionId) else Stopped(s.broker))
  {
    hide Counts;
    hide FinishedAll;
    hide Keep;
  }

  /** The wire after a broker step that sends nothing to this connection. */
  lemma QuietWire(s: System, limits: Limits, after: State, stillOpen: bool)
    requires WireInv(s, limits) && Inv(after, limits) && s.broker.verdicts.Keys <= after.verdicts.Keys
    requires Owned(after.pending, s.connection) <= Owned(s.broker.pending, s.connection)
    requires stillOpen ==> s.open && Owned(after.pending, s.connection) == Owned(s.broker.pending, s.connection)
    ensures WireInv(s.(broker := after, open := stillOpen), limits)
  {
    hide Inv;
    hide Owned;
  }

  /** The wire after an `invoke` was sent. */
  lemma AskedWire(s: System, limits: Limits, after: State, id: Uuid, stillOpen: bool)
    requires WireInv(s, limits) && Inv(after, limits) && s.open
    requires s.broker.verdicts.Keys <= after.verdicts.Keys && id in after.verdicts && id !in s.broker.verdicts
    requires var mine := Owned(s.broker.pending, s.connection);
      |mine| < limits.maxConcurrentRequestsPerRuntime && id !in mine && Owned(after.pending, s.connection) == mine + {id}
    ensures var p := Packet(InvokeMessage(id), Owned(s.broker.pending, s.connection));
      WireInv(s.(broker := after, down := s.down + [p], open := stillOpen), limits)
  {
    hide Inv;
    hide Owned;
    hide Claimed;
    hide Guarded;
    hide SentOnce;
    hide InvokeIds;
    hide CancelIds;
    hide UpIds;
    var p := Packet(InvokeMessage(id), Owned(s.broker.pending, s.connection));
    ClaimedAppend(s.active, s.down, p);
    CancelledWereSent(s.seen, s.down);
    CancelIdsAppend(s.down, p);
    InvokeIdsAppend(s.down, p);
    GuardedAppend(s.active, s.down, p, limits.maxConcurrentRequestsPerRuntime);
    SentOnceAppend(s.seen, s.down, p);
  }

  /** The wire after a `cancel` was sent. */
  lemma CancelledWire(s: System, limits: Limits, after: State, id: Uuid, stillOpen: bool)
    requires WireInv(s, limits) && Inv(after, limits) && s.open && s.broker.verdicts.Keys <= after.verdicts.Keys
    requires id in Owned(s.broker.pending, s.connection)
    requires Owned(after.pending, s.connection) == Owned(s.broker.pending, s.connection) - {id}
    ensures var p := Packet(CancelMessage(id), Owned(s.broker.pending, s.connection));
      WireInv(s.(broker := after, down := s.down + [p], open := stillOpen), limits)
  {
    hide Inv;
    hide Owned;
    hide Claimed;
    hide Guarded;
    hide SentOnce;
    hide InvokeIds;
    hide CancelIds;
    hide UpIds;
    var p := Packet(CancelMessage(id), Owned(s.broker.pending, s.connection));
    ClaimedAppend(s.active, s.down, p);
    CancelledWereSent(s.seen, s.down);
    CancelIdsAppend(s.down, p);
    InvokeIdsAppend(s.down, p);
    GuardedAppend(s.active, s.down, p, limits.maxConcurrentRequestsPerRuntime);
    SentOnceAppend(s.seen, s.down, p);
  }

  lemma BridgeStepKeepsInv(s: System, limits: Limits, now: nat, e: Event, stillOpen: bool)
    requires WireInv(s, limits) && Enabled(s, BridgeStep(now, e, stillOpen))
    ensures WireInv(Next(s, limits, BridgeStep(now, e, stillOpen)), limits)
  {
    hide WireInv;
    hide Inv;
    hide Step;
    hide Emitted;
    hide Refusal;
    var after := Step(s.broker, limits, now, e);
    WireKnows(s, limits);
    StepKeepsInv(s.broker, limits, now, e);
    OwnedAfter(s, limits, now, e);
    EmittedBy(s, limits, now, e);
    if Asks(s, limits, e) {
      AskedWire(s, limits, after, e.id, stillOpen);
    } else if GivesUp(s, e) && e.sent {
      CancelledWire(s, limits, after, e.id, stillOpen);
    } else {
      assert s.down + [] == s.down;
      QuietWire(s, limits, after, stillOpen);
    }
  }

  lemma WireKnows(s: System, limits: Limits)
    requires WireInv(s, limits)
    ensures Inv(s.broker, limits) && s.broker.pending.Keys <= s.broker.verdicts.Keys
  {
  }

  /** A delivered `invoke` either starts or is answered for want of a registration. */
  lemma DeliveredInvoke(s: System, limits: Limits, registered: bool, already: Option<Executor.Ending>)
    requires WireInv(s, limits) && s.down != [] && s.down[0].message.InvokeMessage?
    ensures var id := s.down[0].message.invocationId;
      Delivered(s, limits, registered, already) ==
        if registered then s.(down := s.down[1..], active := s.active + {id}, seen := s.seen + {id})
        else s.(down := s.down[1..], seen := s.seen + {id},
                up := Answers(s, Some(Executor.ErrorUp(id, "REGISTRATION_NOT_FOUND"))))
  {
    BrowserNeverRefuses(s, limits);
  }

  lemma DeliverInvokeKeepsInv(s: System, limits: Limits, registered: bool, already: Option<Executor.Ending>)
    requires WireInv(s, limits) && s.down != [] && s.down[0].message.InvokeMessage?
    ensures WireInv(Delivered(s, limits, registered, already), limits)
  {
    hide Inv;
    hide Owned;
    hide UpIds;
    hide Claimed;
    hide Guarded;
    hide SentOnce;
    hide InvokeIds;
    hide CancelIds;
    hide Delivered;
    var per := limits.maxConcurrentRequestsPerRuntime;
    var id := s.down[0].message.invocationId;
    DeliveredInvoke(s, limits, registered, already);
    Pop(s.active, s.seen, s.down, per);
    UnseenIds(s.seen, s.down);
    if !registered {
      UpIdsAppend(s.up, Executor.ErrorUp(id, "REGISTRATION_NOT_FOUND"));
      ClaimedMonotone(s.active, s.active + {id}, s.down[1..]);
      GuardedMonotone(s.active, s.active + {id}, s.down[1..], per);
    }
  }

  lemma DeliverCancelKeepsInv(s: System, limits: Limits, registered: bool, already: Option<Executor.Ending>)
    requires WireInv(s, limits) && s.down != [] && s.down[0].message.CancelMessage?
    ensures WireInv(Delivered(s, limits, registered, already), limits)
  {
    hide Inv;
    hide Owned;
    hide UpIds;
    hide Claimed;
    hide Guarded;
    hide SentOnce;
    hide InvokeIds;
    hide CancelIds;
    var per := limits.maxConcurrentRequestsPerRuntime;
    Pop(s.active, s.seen, s.down, per);
    var id := s.down[0].message.invocationId;
    var after := Delivered(s, limits, registered, already);
    UnseenIds(s.seen, s.down);
    Executor.AnsweredIsNotRunning(s.active, per, id, registered, already, Executor.Deadline, s.messageLimit);
    if after.up != s.up {
      UpIdsAppend(s.up, after.up[|s.up|]);
    }
    ClaimedMonotone(after.active, Effect(s.active, s.down[0].message), s.down[1..]);
    GuardedMonotone(after.active, Effect(s.active, s.down[0].message), s.down[1..], per);
  }

  lemma HandlerEndsKeepsInv(s: System, limits: Limits, id: Uuid, ending: Executor.Ending)
    requires WireInv(s, limits) && id in s.active
    ensures WireInv(Next(s, limits, HandlerEnds(id, ending)), limits)
  {
    hide Inv;
    hide Owned;
    hide UpIds;
    var after := Next(s, limits, HandlerEnds(id, ending));
    if s.reachable && Executor.Reply(id, ending, s.messageLimit).Some? {
      UpIdsAppend(s.up, Executor.Reply(id, ending, s.messageLimit).value);
    }
    ClaimedMonotone(after.active, s.active, s.down);
    GuardedMonotone(after.active, s.active, s.down, limits.maxConcurrentRequestsPerRuntime);
  }

  lemma DeliverUpKeepsInv(s: System, limits: Limits, now: nat)
    requires WireInv(s, limits) && s.up != [] && s.broker.clock <= now
    ensures WireInv(Next(s, limits, DeliverUp(now)), limits)
  {
    hide Inv;
    hide Step;
    hide Claimed;
    hide Guarded;
    hide SentOnce;
    hide InvokeIds;
    hide CancelIds;
    hide Emitted;
    var e := EventOf(s.connection, s.up[0]);
    var id := s.up[0].invocationId;
    WireKnows(s, limits);
    StepKeepsInv(s.broker, limits, now, e);
    OwnedAfter(s, limits, now, e);
    EmittedBy(s, limits, now, e);
    UnseenIds(s.seen, s.down);
    ClaimedWithin(s.active, s.down);
    assert s.up == [s.up[0]] + s.up[1..];
    assert s.up[0] in s.up;
    assert UpIds(s.up) <= {id} + UpIds(s.up[1..]);
    assert UpIds(s.up[1..]) <= UpIds(s.up);
  }

  lemma BrowserClosesKeepsInv(s: System, limits: Limits)
    requires WireInv(s, limits)
    ensures WireInv(Next(s, limits, BrowserCloses), limits)
  {
    hide Inv;
    hide Owned;
    ClaimedMonotone({}, s.active, s.down);
    GuardedMonotone({}, s.active, s.down, limits.maxConcurrentRequestsPerRuntime);
  }

  lemma NextKeepsInv(s: System, limits: Limits, a: Action)
    requires WireInv(s, limits) && Enabled(s, a)
    ensures WireInv(Next(s, limits, a), limits)
  {
    hide Inv;
    hide Step;
    match a
    case BridgeStep(now, e, stillOpen) => BridgeStepKeepsInv(s, limits, now, e, stillOpen);
    case BridgeCloses =>
    case DeliverDown(registered, already) =>
      if s.down[0].message.InvokeMessage? {
        DeliverInvokeKeepsInv(s, limits, registered, already);
      } else {
        DeliverCancelKeepsInv(s, limits, registered, already);
      }
    case HandlerEnds(id, ending) => HandlerEndsKeepsInv(s, limits, id, ending);
    case DeliverUp(now) => DeliverUpKeepsInv(s, limits, now);
    case BrowserCloses => BrowserClosesKeepsInv(s, limits);
  }

  // ----- Main results -----

  /** When an `invoke` is delivered, everything the browser is running was pending for this
      connection when the message was sent, so the browser's own limit leaves room and the id is
      new: neither the concurrency check nor the duplicate check of the browser ever fires. */
  lemma BrowserNeverRefuses(s: System, limits: Limits)
    requires WireInv(s, limits) && s.down != [] && s.down[0].message.InvokeMessage?
    ensures s.active <= s.down[0].others && |s.active| < limits.maxConcurrentRequestsPerRuntime
    ensures s.down[0].message.invocationId !in s.active
    ensures Executor.Begun(s.active, limits.maxConcurrentRequestsPerRuntime, s.down[0].message.invocationId, true)
         == Executor.Reaction(s.active + {s.down[0].message.invocationId}, None)
  {
    SubsetSize(s.active, s.down[0].others);
  }

  /** In none of the places where a pending call is looked after. */
  ghost predicate Nowhere(s: System, id: Uuid) {
    id !in InvokeIds(s.down) && id !in s.active && id !in UpIds(s.up)
  }

  /** While both ends of the connection are up, each of its pending calls is in exactly one place: on
      its way to the browser, running there, answered on its way back, or dropped without an answer. */
  lemma PendingCallIsInOnePlace(s: System, limits: Limits, id: Uuid)
    requires WireInv(s, limits) && s.open && s.reachable && id in Owned(s.broker.pending, s.connection)
    ensures Nowhere(s, id) <==> id in s.silent
    ensures s.silent !! InvokeIds(s.down) && s.silent !! s.active && s.silent !! UpIds(s.up)
    ensures !(id in InvokeIds(s.down) && id in s.active)
    ensures !(id in InvokeIds(s.down) && id in UpIds(s.up))
    ensures !(id in s.active && id in UpIds(s.up))
  {
    UnseenIds(s.seen, s.down);
  }

  /** In this step the browser drops the call: it ends, or turns out to have ended, in a way that the
      browser does not report. */
  ghost predicate Drops(s: System, a: Action, id: Uuid) {
    && id in s.active
    && match a
       case HandlerEnds(i, ending) => i == id && Executor.Unreported(ending, s.messageLimit)
       case DeliverDown(_, already) =>
         && s.down != [] && s.down[0].message == CancelMessage(id)
         && already.Some? && Executor.Unreported(already.value, s.messageLimit)
       case _ => false
  }

  /** A call becomes silent exactly when the browser drops it. */
  lemma SilentExactlyWhenDropped(s: System, limits: Limits, a: Action, id: Uuid)
    requires WireInv(s, limits) && Enabled(s, a) && id !in s.silent
    ensures id in Next(s, limits, a).silent <==> Drops(s, a, id)
  {
    hide WireInv; hide Step; hide Emitted; hide Possible;
    if a.DeliverDown? && s.down[0].message.InvokeMessage? {
      DeliveredInvoke(s, limits, a.registered, a.already);
    }
  }

  /** And it stays silent until the browser is asked about it, which the Bridge does only once it has
      given the call up. */
  lemma SilentUntilGivenUp(s: System, limits: Limits, a: Action, id: Uuid)
    requires WireInv(s, limits) && Enabled(s, a) && id in s.silent && id in Owned(s.broker.pending, s.connection)
    ensures id in Next(s, limits, a).silent
  {
    hide Inv; hide Step; hide Emitted; hide Possible; hide Owned;
    if a.DeliverDown? && s.down[0].message.CancelMessage? {
      assert s.down[0].message.invocationId in CancelIds(s.down);
    }
  }

  /** While the Bridge's end is up, a call that the browser runs is one that the broker still waits
      for, unless the cancel for it is on the wire. */
  lemma RunningCallIsAwaited(s: System, limits: Limits, id: Uuid)
    requires WireInv(s, limits) && s.open && id in s.active
    ensures id in Owned(s.broker.pending, s.connection)
         || exists k :: 0 <= k < |s.down| && s.down[k].message == CancelMessage(id)
  {
    if id !in Claimed(s.active, s.down) {
      CancelOnWire(s.active, s.down, id);
    }
  }

  lemma {:induction false} CancelOnWire(active: set<Uuid>, down: seq<Packet>, id: Uuid)
    requires id in active && id !in Claimed(active, down)
    ensures exists k :: 0 <= k < |down| && down[k].message == CancelMessage(id)
    decreases |down|
  {
    if down[0].message != CancelMessage(id) {
      CancelOnWire(Effect(active, down[0].message), down[1..], id);
      var k :| 0 <= k < |down[1..]| && down[1..][k].message == CancelMessage(id);
      assert down[k + 1].message == CancelMessage(id);
    }
  }

  /** A connection that has just received its welcome: nothing on the wire and nothing running. The
      broker may be busy with other connections. */
  ghost predicate Fresh(s: System, limits: Limits) {
    && Inv(s.broker, limits) && Owned(s.broker.pending, s.connection) == {}
    && s.down == [] && s.up == [] && s.active == {} && s.seen == {} && s.silent == {}
  }

  ghost predicate EnabledRun(s: System, limits: Limits, run: seq<Action>)
    decreases |run|
  {
    run != [] ==> Enabled(s, run[0]) && EnabledRun(Next(s, limits, run[0]), limits, run[1..])
  }

  function AfterRun(s: System, limits: Limits, run: seq<Action>): System
    decreases |run|
  {
    if run == [] then s else AfterRun(Next(s, limits, run[0]), limits, run[1..])
  }

  lemma {:induction false} RunKeepsWireInv(s: System, limits: Limits, run: seq<Action>)
    requires WireInv(s, limits) && EnabledRun(s, limits, run)
    ensures WireInv(AfterRun(s, limits, run), limits)
    decreases |run|
  {
    if run != [] {
      NextKeepsInv(s, limits, run[0]);
      RunKeepsWireInv(Next(s, limits, run[0]), limits, run[1..]);
    }
  }

  /** Over every run of the two parties, an `invoke` that reaches the browser is never refused for
      lack of room and never taken for a duplicate. */
  lemma NoRunEndsInRefusal(s: System, limits: Limits, run: seq<Action>)
    requires Fresh(s, limits) && EnabledRun(s, limits, run)
    ensures var t := AfterRun(s, limits, run);
      t.down != [] && t.down[0].message.InvokeMessage? ==>
        t.active <= t.down[0].others && |t.active| < limits.maxConcurrentRequestsPerRuntime
        && t.down[0].message.invocationId !in t.active
  {
    hide WireInv; hide Fresh; hide EnabledRun;
    FreshWireInv(s, limits);
    RunKeepsWireInv(s, limits, run);
    var t := AfterRun(s, limits, run);
    if t.down != [] && t.down[0].message.InvokeMessage? {
      BrowserNeverRefuses(t, limits);
    }
  }

  // ----- Calls that are never answered -----

  /** Some step of the run drops the call. */
  ghost predicate DroppedDuring(s: System, limits: Limits, run: seq<Action>, id: Uuid)
    decreases |run|
  {
    run != [] && (Drops(s, run[0], id) || DroppedDuring(Next(s, limits, run[0]), limits, run[1..], id))
  }

  lemma NextOnBroker(s: System, limits: Limits, a: Action)
    requires Enabled(s, a)
    ensures Next(s, limits, a).connection == s.connection
    ensures Next(s, limits, a).broker ==
      match a
      case BridgeStep(now, e, _) => Step(s.broker, limits, now, e)
      case DeliverUp(now) => Step(s.broker, limits, now, EventOf(s.connection, s.up[0]))
      case _ => s.broker
  {
    hide Step; hide Emitted; hide Possible;
  }

  /** A call that the broker knew about, and holds for this connection after a step, was held before. */
  lemma OwnedBefore(s: System, limits: Limits, a: Action, id: Uuid)
    requires WireInv(s, limits) && Enabled(s, a) && id in s.broker.verdicts
    ensures id in Next(s, limits, a).broker.verdicts
    ensures id in Owned(Next(s, limits, a).broker.pending, s.connection) ==> id in Owned(s.broker.pending, s.connection)
  {
    hide WireInv; hide Inv; hide Step; hide Emitted; hide Owned; hide Next; hide GivesUp;
    WireKnows(s, limits);
    NextOnBroker(s, limits, a);
    match a
    case BridgeStep(now, e, _) => EmittedBy(s, limits, now, e);
    case DeliverUp(now) => EmittedBy(s, limits, now, EventOf(s.connection, s.up[0]));
    case _ =>
  }

  lemma {:induction false} OwnedBeforeRun(s: System, limits: Limits, run: seq<Action>, id: Uuid)
    requires WireInv(s, limits) && EnabledRun(s, limits, run) && id in s.broker.verdicts
    ensures AfterRun(s, limits, run).connection == s.connection
    ensures id in Owned(AfterRun(s, limits, run).broker.pending, s.connection) ==> id in Owned(s.broker.pending, s.connection)
    decreases |run|
  {
    hide WireInv; hide Next; hide Enabled; hide Owned;
    if run != [] {
      NextKeepsInv(s, limits, run[0]);
      NextOnBroker(s, limits, run[0]);
      OwnedBefore(s, limits, run[0], id);
      OwnedBeforeRun(Next(s, limits, run[0]), limits, run[1..], id);
    }
  }

  lemma SilentIsKnown(s: System, limits: Limits, id: Uuid)
    requires WireInv(s, limits) && id in s.silent
    ensures id in s.broker.verdicts
  {
    hide Inv; hide Claimed; hide Guarded; hide SentOnce; hide InvokeIds; hide CancelIds; hide UpIds; hide Owned;
  }

  lemma {:induction false} SilentOverRuns(s: System, limits: Limits, run: seq<Action>, id: Uuid)
    requires WireInv(s, limits) && EnabledRun(s, limits, run)
    requires id in Owned(AfterRun(s, limits, run).broker.pending, s.connection)
    ensures id in AfterRun(s, limits, run).silent <==> id in s.silent || DroppedDuring(s, limits, run, id)
    decreases |run|
  {
    hide WireInv; hide Next; hide Enabled; hide Drops; hide Owned;
    if run != [] {
      NextKeepsInv(s, limits, run[0]);
      NextOnBroker(s, limits, run[0]);
      SilentOverRuns(Next(s, limits, run[0]), limits, run[1..], id);
      if id in s.silent {
        SilentIsKnown(s, limits, id);
        OwnedBeforeRun(s, limits, run, id);
        SilentUntilGivenUp(s, limits, run[0], id);
      } else {
        SilentExactlyWhenDropped(s, limits, run[0], id);
      }
    }
  }

  lemma FreshWireInv(s: System, limits: Limits)
    requires Fresh(s, limits)
    ensures WireInv(s, limits)
  {
    assert UpIds([]) == {};
  }

  /** Over every run from a new session, a call that the broker still holds while both ends are up is
      nowhere to be found exactly if the browser dropped it during the run, and that is only for one of
      the two reasons: a closed-connection error, or an error reply that is over the limit. */
  lemma LostExactlyWhenDropped(s: System, limits: Limits, run: seq<Action>, id: Uuid)
    requires Fresh(s, limits) && EnabledRun(s, limits, run)
    requires var t := AfterRun(s, limits, run); t.open && t.reachable && id in Owned(t.broker.pending, s.connection)
    ensures Nowhere(AfterRun(s, limits, run), id) <==> DroppedDuring(s, limits, run, id)
  {
    hide WireInv; hide EnabledRun; hide Drops; hide Owned; hide Inv; hide Nowhere;
    FreshWireInv(s, limits);
    RunKeepsWireInv(s, limits, run);
    SilentOverRuns(s, limits, run, id);
    ConnectionStays(s, limits, run);
    PendingCallIsInOnePlace(AfterRun(s, limits, run), limits, id);
  }

  lemma {:induction false} ConnectionStays(s: System, limits: Limits, run: seq<Action>)
    requires EnabledRun(s, limits, run)
    ensures AfterRun(s, limits, run).connection == s.connection
    decreases |run|
  {
    hide Next; hide Enabled;
    if run != [] {
      NextOnBroker(s, limits, run[0]);
      ConnectionStays(Next(s, limits, run[0]), limits, run[1..]);
    }
  }

  // A run in which that happens.

  const SMALL_LIMIT := 1024

  function ExampleProvider(connection: Uuid): Capability {
    Capability("tool", None, Registration("tool", Tool, "tool", [], Some(0)),
               Session(connection, 1, "origin", "app", "runtime", "tab"))
  }

  function ExampleStart(connection: Uuid): System {
    System(INITIAL, connection, [], [], {}, {}, {}, SMALL_LIMIT, true, true)
  }

  /** A call is made, reaches the browser, starts, and its handler fails with a long message. */
  function ExampleRun(connection: Uuid, id: Uuid, ending: Executor.Ending): seq<Action> {
    [BridgeStep(0, Invoke(id, Tool, ExampleProvider(connection), false, true), true),
     DeliverDown(true, None),
     HandlerEnds(id, ending)]
  }

  lemma ExampleCall(limits: Limits, connection: Uuid, id: Uuid)
    requires limits.maxConcurrentRequests >= 1 && limits.maxConcurrentRequestsPerRuntime >= 1
    ensures var s, a := ExampleStart(connection), ExampleRun(connection, id, Executor.Deadline)[0];
      var b := Opened(INITIAL, limits, id, Tool, ExampleProvider(connection), true);
      && Fresh(s, limits) && Enabled(s, a)
      && Next(s, limits, a) == s.(broker := b, down := [Packet(InvokeMessage(id), {})])
      && Owned(b.pending, connection) == {id}
  {
    hide Counts; hide RecentRequests.Started; hide FinishedAll; hide Inv;
    InitialInv(limits);
    var s := ExampleStart(connection);
    assert Owned(INITIAL.pending, connection) == {};
    OwnedWith(map[], id, Pending(Tool, ExampleProvider(connection)), connection);
  }

  lemma ExampleStarts(limits: Limits, s: System, id: Uuid)
    requires limits.maxConcurrentRequestsPerRuntime >= 1
    requires s.down == [Packet(InvokeMessage(id), {})] && s.active == {}
    ensures Next(s, limits, DeliverDown(true, None)) == s.(down := [], active := {id}, seen := s.seen + {id})
  {
    assert {} + {id} == {id};
    assert [Packet(InvokeMessage(id), {})][1..] == [];
  }

  lemma ExampleEnds(limits: Limits, s: System, id: Uuid, ending: Executor.Ending)
    requires s.active == {id} && Executor.Unreported(ending, s.messageLimit)
    ensures Next(s, limits, HandlerEnds(id, ending)) == s.(active := {}, silent := s.silent + {id})
  {
    assert {id} - {id} == {};
  }

  /** From a new session, with both ends up throughout: a call is made, starts, and ends in a way that
      is not reported. The broker still holds it, and it is nowhere. */
  lemma UnreportedEndingLosesTheCall(limits: Limits, connection: Uuid, id: Uuid, ending: Executor.Ending)
    requires limits.maxConcurrentRequests >= 1 && limits.maxConcurrentRequestsPerRuntime >= 1
    requires Executor.Unreported(ending, SMALL_LIMIT)
    ensures var s, run := ExampleStart(connection), ExampleRun(connection, id, ending);
      var t := AfterRun(s, limits, run);
      && Fresh(s, limits) && EnabledRun(s, limits, run)
      && t.open && t.reachable && id in Owned(t.broker.pending, connection) && Nowhere(t, id)
  {
    hide Opened; hide Inv; hide Next; hide Fresh; hide Executor.Unreported; hide Step; hide Possible;
    var s, run := ExampleStart(connection), ExampleRun(connection, id, ending);
    ExampleCall(limits, connection, id);
    var s1 := Next(s, limits, run[0]);
    ExampleStarts(limits, s1, id);
    var s2 := Next(s1, limits, run[1]);
    ExampleEnds(limits, s2, id, ending);
    var s3 := Next(s2, limits, run[2]);
    assert run[1..] == [run[1], run[2]] && run[1..][1..] == [run[2]] && run[1..][1..][1..] == [];
    ThreeSteps(s, limits, run);
    assert UpIds([]) == {};
  }

  lemma ThreeSteps(s: System, limits: Limits, run: seq<Action>)
    requires |run| == 3
    ensures var s1 := Next(s, limits, run[0]);
      var s2 := Next(s1, limits, run[1]);
      && AfterRun(s, limits, run) == Next(s2, limits, run[2])
      && (Enabled(s, run[0]) && Enabled(s1, run[1]) && Enabled(s2, run[2]) ==> EnabledRun(s, limits, run))
  {
    hide Next; hide Enabled;
    var s1 := Next(s, limits, run[0]);
    var s2 := Next(s1, limits, run[1]);
    var s3 := Next(s2, limits, run[2]);
    assert run[1..] == [run[1], run[2]] && run[1..][1..] == [run[2]] && run[1..][1..][1..] == [];
    assert EnabledRun(s3, limits, []) && AfterRun(s3, limits, []) == s3;
    assert AfterRun(s2, limits, [run[2]]) == s3;
    assert Enabled(s2, run[2]) ==> EnabledRun(s2, limits, [run[2]]);
    assert AfterRun(s1, limits, run[1..]) == s3;
    assert Enabled(s1, run[1]) && Enabled(s2, run[2]) ==> EnabledRun(s1, limits, run[1..]);
  }

  /** A payload limit of 1024 bytes is one that a Bridge accepts, and a handler's error message may be
      long enough for an error reply of 1900 bytes. */
  lemma LongErrorLosesTheCall()
    ensures var limits := Limits(64, 8, 30000, 100);
      var t := AfterRun(ExampleStart(7), limits, ExampleRun(7, 42, Executor.Failure(1900)));
      && EnabledRun(ExampleStart(7), limits, ExampleRun(7, 42, Executor.Failure(1900)))
      && t.open && t.reachable && 42 in Owned(t.broker.pending, 7) && Nowhere(t, 42)
  {
    hide EnabledRun; hide AfterRun; hide ExampleStart; hide ExampleRun; hide Owned; hide Nowhere;
    UnreportedEndingLosesTheCall(Limits(64, 8, 30000, 100), 7, 42, Executor.Failure(1900));
  }
}
