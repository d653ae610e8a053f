/** From the whole Bridge to one of its connections: what a step of the Bridge does to the broker, how
    one connection and its browser see it, and what therefore holds for every session of every run. */
module GatewayWire {
  import opened Common
  import opened Capabilities
  import opened GatewayModel
  import opened GatewayRuns
  import opened GatewayTheorems
  import opened GatewayConnections
  import B = BrokerModel
  import BL = BrokerLaws
  import R = RegistryModel
  import T = Tokens
  import L = GatewayLaws
  import W = TwoParty
  import Executor
  import RecentRequests

  // ----- The broker's part in a step -----

  /** A welcome resume of a session that still has a connection takes that connection away. */
  ghost function Displaced(b: Bridge, c: Uuid, h: Hello): Option<B.Event>
    requires c in b.sockets
  {
    var origin := b.sockets[c].origin;
    if !Welcome(origin, h) || !h.auth.WithResume? then None
    else
      var g := ResumeOf(origin, h, h.auth.sessionId);
      if T.Grants(b.resume, b.clock, h.auth.token, Exactly(g)).Some? && HasPrevious(b.sockets, c, g)
      then Some(B.ConnectionLost(Previous(b.sockets, c, g))) else None
  }

  ghost function SessionEvent(c: Uuid, session: Session, m: Message): Option<B.Event> {
    if ClaimedSession(m).Some? && ClaimedSession(m).value != session.sessionId then None
    else match m
      case ResultOf(_, id, output) => Some(B.ResultMessage(c, id, output))
      case ErrorOf(_, invocation, code) =>
        if invocation.Some? then Some(B.ErrorMessage(c, invocation.value, code)) else None
      case CancelOf(_, id) => Some(B.CancelFromBrowser(c, id))
      case _ => None
  }

  ghost function ReceiveEvent(b: Bridge, c: Uuid, m: Message): Option<B.Event> {
    if c !in b.sockets then None
    else match b.sockets[c].session
      case None => if b.sockets[c].approval.None? && m.Connect? then Displaced(b, c, m.hello) else None
      case Some(session) => SessionEvent(c, session, m)
  }

  /** What a step of the Bridge is for the broker, if anything. */
  ghost function BrokerEvent(b: Bridge, a: Action): Option<B.Event> {
    match a
    case Receive(c, m, _) => ReceiveEvent(b, c, m)
    case SocketClosed(c) => Some(B.ConnectionLost(c))
    case Call(target, id, aborted, sent) =>
      if Resolves(b.registry, target)
      then Some(B.Invoke(id, KindOf(target), Resolved(b.registry, target), aborted, sent)) else None
    case CallTimer(id, sent) => Some(B.TimerFired(id, sent))
    case CallAborted(id, sent) => Some(B.SignalAborted(id, sent))
    case Stop => Some(B.Stop)
    case _ => None
  }

  ghost function OnBroker(b: Bridge, k: Config, e: Option<B.Event>): B.State {
    if e.Some? then B.Step(b.broker, k.broker, b.clock, e.value) else b.broker
  }

  lemma EstablishedOnBroker(b: Bridge, k: Config, session: Session, secret: Uuid)
    ensures Established(b, k, session, secret).broker == b.broker
  {
    hide R.Conflicts; hide R.Added; hide T.Issued; hide T.Revoked;
  }

  lemma RetiredOnBroker(b: Bridge, k: Config, c: Uuid, g: Grant)
    ensures Retired(b, c, g).broker ==
      if HasPrevious(b.sockets, c, g) then B.Step(b.broker, k.broker, b.clock, B.ConnectionLost(Previous(b.sockets, c, g)))
      else b.broker
  {
    hide B.Lost; hide R.Removed;
  }

  lemma GrantsOnly(b: Bridge, token: Uuid, g: Grant)
    ensures T.Grants(b.resume, b.clock, token, Exactly(g)).Some? ==>
      T.Grants(b.resume, b.clock, token, Exactly(g)) == Some(g)
  {
  }

  lemma ConnectedOnBroker(b: Bridge, k: Config, c: Uuid, h: Hello, draw: Draw)
    requires c in b.sockets
    ensures Connected(b, k, c, h, draw).broker == OnBroker(b, k, Displaced(b, c, h))
  {
    hide B.Step; hide Welcome; hide MayAsk; hide T.Grants; hide T.AfterConsume; hide Established; hide Retired;
    hide HasPrevious;
    var origin := b.sockets[c].origin;
    match h.auth
    case WithApproval =>
    case WithResume(token, sessionId) =>
      var g := ResumeOf(origin, h, sessionId);
      var left := b.(resume := T.AfterConsume(b.resume, b.clock, token, Exactly(g)));
      GrantsOnly(b, token, g);
      RetiredOnBroker(left, k, c, g);
      EstablishedOnBroker(Retired(left, c, g), k, SessionFor(c, origin, h, sessionId), draw.secret);
    case WithPairing(token) =>
      var left := b.(pairing := T.AfterConsume(b.pairing, b.clock, token, FromOrigin(origin)));
      EstablishedOnBroker(left, k, SessionFor(c, origin, h, draw.sessionId), draw.secret);
  }

  lemma ReceivedOnBroker(b: Bridge, k: Config, c: Uuid, m: Message, draw: Draw)
    ensures Received(b, k, c, m, draw).broker == OnBroker(b, k, ReceiveEvent(b, c, m))
  {
    hide B.Step; hide Connected; hide Displaced; hide R.Registered; hide R.Unregistered; hide T.Revoked;
    if c in b.sockets && m.Connect? {
      ConnectedOnBroker(b, k, c, m.hello, draw);
    }
  }

  lemma DecidedOnBroker(b: Bridge, k: Config, requestId: Uuid, approve: bool, draw: Draw)
    ensures Decided(b, k, requestId, approve, draw).broker == b.broker
  {
    hide Established;
    if HasApplicant(b.sockets, requestId) {
      var c := Applicant(b.sockets, requestId);
      var s := b.sockets[c];
      EstablishedOnBroker(Withdrawn(b, c), k, SessionAsked(c, s.origin, s.approval.value, draw.sessionId), draw.secret);
    }
  }

  lemma ActOnBroker(b: Bridge, k: Config, a: Action)
    ensures Act(b, k, a).broker == OnBroker(b, k, BrokerEvent(b, a))
  {
    hide Received; hide Decided; hide ReceiveEvent; hide R.Removed; hide T.Issued; hide Resolves; hide Resolved;
    hide B.Answered; hide B.Interrupted; hide B.Invoked; hide B.Lost; hide B.Stopped;
    match a
    case Receive(c, m, draw) => ReceivedOnBroker(b, k, c, m, draw);
    case Decide(requestId, approve, draw) => DecidedOnBroker(b, k, requestId, approve, draw);
    case _ =>
  }

  lemma OnlyCallsInvoke(b: Bridge, a: Action)
    ensures var e := BrokerEvent(b, a);
      e.Some? && e.value.Invoke? ==> a.Call? && e.value.id == a.invocationId
  {
    hide Resolves; hide Resolved; hide Welcome; hide HasPrevious; hide Previous; hide T.Grants;
  }

  /** Every step of the Bridge is one possible step of its broker, or none. */
  lemma StepOnBroker(b: Bridge, k: Config, now: nat, a: Action)
    requires Inv(b, k) && Possible(b, now, a)
    ensures var e := BrokerEvent(Ticked(b, now, Drawn(a)), a);
      && Step(b, k, now, a).broker == (if e.Some? then B.Step(b.broker, k.broker, now, e.value) else b.broker)
      && (e.Some? ==> B.Possible(b.broker, now, e.value))
  {
    hide Inv; hide Act; hide B.Step; hide BrokerEvent; hide B.Inv;
    ActOnBroker(Ticked(b, now, Drawn(a)), k, a);
    OnlyCallsInvoke(Ticked(b, now, Drawn(a)), a);
    ClockIsBehind(b, k);
    if a.Call? {
      IdsAreNew(b, k, a.invocationId);
    }
  }

  lemma ClockIsBehind(b: Bridge, k: Config)
    requires Inv(b, k)
    ensures b.broker.clock <= b.clock && B.Inv(b.broker, k.broker)
  {
    hide R.Inv; hide SocketsInv; hide TokensInv; hide B.Inv; hide WorkIsLive;
  }

  ghost function BrokerTrace(b: Bridge, k: Config, run: seq<Timed>): seq<BL.Timed>
    decreases |run|
  {
    if run == [] then [] else
      var now, a := run[0].now, run[0].action;
      var e := BrokerEvent(Ticked(b, now, Drawn(a)), a);
      (if e.Some? then [BL.Timed(now, e.value)] else []) + BrokerTrace(Step(b, k, now, a), k, run[1..])
  }

  /** So the broker inside a Bridge makes a possible run of its own, and all that is proved about
      broker runs holds in it. */
  lemma {:induction false} BridgeRunsAreBrokerRuns(b: Bridge, k: Config, run: seq<Timed>)
    requires Inv(b, k) && PossibleRun(b, k, run)
    ensures BL.PossibleRun(b.broker, k.broker, BrokerTrace(b, k, run))
    ensures After(b, k, run).broker == BL.After(b.broker, k.broker, BrokerTrace(b, k, run))
    decreases |run|
  {
    hide Inv; hide Step; hide Possible; hide BrokerEvent; hide B.Step; hide B.Possible;
    if run != [] {
      var now, a := run[0].now, run[0].action;
      StepKeepsInv(b, k, now, a);
      StepOnBroker(b, k, now, a);
      BridgeRunsAreBrokerRuns(Step(b, k, now, a), k, run[1..]);
      var e := BrokerEvent(Ticked(b, now, Drawn(a)), a);
      var rest := BrokerTrace(Step(b, k, now, a), k, run[1..]);
      if e.Some? {
        assert ([BL.Timed(now, e.value)] + rest)[1..] == rest;
      } else {
        assert [] + rest == rest;
      }
    }
  }

  // ----- One connection's view -----

  predicate OpenAt(b: Bridge, c: Uuid) {
    c in b.sockets && b.sockets[c].open
  }

  /** How connection `c` and its browser see a step of the Bridge, if they do. */
  ghost function Projected(b: Bridge, k: Config, now: nat, a: Action, c: Uuid): Option<W.Action> {
    var e := BrokerEvent(Ticked(b, now, Drawn(a)), a);
    var stays := OpenAt(Step(b, k, now, a), c);
    if e.Some? && a.Receive? && a.connectionId == c then Some(W.DeliverUp(now))
    else if e.Some? then Some(W.BridgeStep(now, e.value, stays))
    else if OpenAt(b, c) && !stays then Some(W.BridgeCloses)
    else None
  }

  /** `send` answers true only on an open socket, and a `cancel` is lost only on one that is not. */
  ghost predicate Honest(b: Bridge, a: Action) {
    match a
    case Call(target, _, _, sent) =>
      sent && Resolves(b.registry, target) ==> OpenAt(b, Resolved(b.registry, target).session.connectionId)
    case CallTimer(id, sent) => id in b.broker.pending ==> (sent <==> OpenAt(b, B.Connection(b.broker.pending[id])))
    case CallAborted(id, sent) => id in b.broker.pending ==> (sent <==> OpenAt(b, B.Connection(b.broker.pending[id])))
    case _ => true
  }

  /** The answers that the Bridge takes from this connection are those that its browser sent, in
      order; a browser that runs the modelled code never sends a `cancel`. */
  ghost predicate Heard(b: Bridge, w: W.System, a: Action) {
    a.Receive? && a.connectionId == w.connection && w.connection in b.sockets ==>
      match a.message
      case ResultOf(_, id, output) => w.up != [] && w.up[0] == Executor.ResultUp(id, output)
      case ErrorOf(_, invocation, code) => invocation.Some? ==> w.up != [] && w.up[0] == Executor.ErrorUp(invocation.value, code)
      case CancelOf(_, _) => false
      case _ => true
  }

  /** The connection has its session, or is gone for good; and both views of it agree. */
  ghost predicate Aligned(b: Bridge, w: W.System) {
    && w.connection in b.used
    && (w.connection in b.sockets ==> b.sockets[w.connection].session.Some?)
    && w.broker == b.broker && w.open == OpenAt(b, w.connection)
  }

  lemma SocketAfter(b: Bridge, k: Config, now: nat, a: Action, c: Uuid)
    requires Inv(b, k) && Possible(b, now, a) && c in b.used && (c in b.sockets ==> b.sockets[c].session.Some?)
    ensures var after := Step(b, k, now, a);
      && c in after.used && (OpenAt(after, c) ==> OpenAt(b, c))
      && (c in after.sockets ==> c in b.sockets && after.sockets[c].session.Some?)
  {
    hide Inv; hide Step;
    StepEvolves(b, k, now, a);
    StepUses(b, k, now, a);
  }

  /** When the broker loses a connection, its socket is gone. */
  lemma LostIsGone(b: Bridge, k: Config, now: nat, a: Action, c: Uuid)
    requires Inv(b, k) && Possible(b, now, a)
    requires BrokerEvent(Ticked(b, now, Drawn(a)), a) == Some(B.ConnectionLost(c))
    ensures c !in Step(b, k, now, a).sockets
  {
    hide Inv; hide Received; hide B.Lost; hide R.Removed; hide Resolves; hide Resolved; hide NewDraw;
    hide Resumed; hide Welcome;
    hide T.Grants; hide HasPrevious; hide Previous; hide Decided; hide T.Issued; hide Shut; hide Expired; hide B.Step;
    if a.Receive? {
      var at := Ticked(b, now, Drawn(a));
      TickKeepsInvAt(b, k, now, a);
      DrawIsNew(b, k, now, Drawn(a), a.draw);
      var h := a.message.hello;
      ConnectStep(at, k, a.connectionId, h, a.draw);
      ResumeReplaces(at, k, a.connectionId, h, h.auth.token, h.auth.sessionId, a.draw);
    }
  }

  lemma TickKeepsInvAt(b: Bridge, k: Config, now: nat, a: Action)
    requires Inv(b, k) && Possible(b, now, a)
    ensures Inv(Ticked(b, now, Drawn(a)), k)
  {
    hide Inv;
    L.TickKeepsInv(b, k, now, Drawn(a));
  }

  /** An answer from a session leaves all sockets as they are. */
  lemma AnswersKeepSockets(b: Bridge, k: Config, now: nat, a: Action)
    requires a.Receive? && a.connectionId in b.sockets && b.sockets[a.connectionId].session.Some?
    requires BrokerEvent(Ticked(b, now, Drawn(a)), a).Some?
    ensures Step(b, k, now, a).sockets == b.sockets
  {
    hide B.Step; hide Connected; hide R.Registered; hide R.Unregistered; hide T.Revoked;
  }

  lemma StopShuts(b: Bridge, k: Config, now: nat, c: Uuid)
    ensures !OpenAt(Step(b, k, now, Stop), c)
  {
    hide B.Step;
  }

  /** A step of the Bridge is, for each connection with a session, an enabled step of the two-party
      model or none, and both views of the connection agree again afterwards. */
  lemma StepProjects(b: Bridge, k: Config, now: nat, a: Action, w: W.System)
    requires Inv(b, k) && Possible(b, now, a) && Aligned(b, w) && Honest(b, a) && Heard(b, w, a)
    ensures var p := Projected(b, k, now, a, w.connection);
      && (p.Some? ==> W.Enabled(w, p.value))
      && Aligned(Step(b, k, now, a), if p.Some? then W.Next(w, k.broker, p.value) else w)
  {
    hide Inv; hide Step; hide Possible; hide B.Step; hide W.Emitted; hide BrokerEvent; hide Heard; hide Honest;
    hide W.GivesUp;
    var c, at := w.connection, Ticked(b, now, Drawn(a));
    StepOnBroker(b, k, now, a);
    SocketAfter(b, k, now, a, c);
    var e := BrokerEvent(at, a);
    if e.Some? {
      if a.Receive? && a.connectionId == c {
        AnswersAreHeard(b, now, a, w);
        AnswersKeepSockets(b, k, now, a);
      } else {
        EventOfOthers(b, now, a, w);
        if e.value == B.ConnectionLost(c) {
          LostIsGone(b, k, now, a, c);
        }
        if e.value == B.Stop {
          OnlyStopStops(b, now, a);
          StopShuts(b, k, now, c);
        }
      }
    }
  }

  /** An answer that the broker takes from this connection is the next one on the wire. */
  lemma AnswersAreHeard(b: Bridge, now: nat, a: Action, w: W.System)
    requires a.Receive? && a.connectionId == w.connection && Aligned(b, w) && Heard(b, w, a)
    requires BrokerEvent(Ticked(b, now, Drawn(a)), a).Some?
    ensures w.connection in b.sockets && w.up != []
    ensures BrokerEvent(Ticked(b, now, Drawn(a)), a) == Some(W.EventOf(w.connection, w.up[0]))
  {
  }

  lemma OnlyStopStops(b: Bridge, now: nat, a: Action)
    requires BrokerEvent(Ticked(b, now, Drawn(a)), a) == Some(B.Stop)
    ensures a == Stop
  {
    hide Resolves; hide Resolved;
  }

  /** Events that do not come from this connection's browser. */
  lemma EventOfOthers(b: Bridge, now: nat, a: Action, w: W.System)
    requires Aligned(b, w) && Honest(b, a) && !(a.Receive? && a.connectionId == w.connection)
    requires BrokerEvent(Ticked(b, now, Drawn(a)), a).Some?
    ensures var e := BrokerEvent(Ticked(b, now, Drawn(a)), a).value;
      && ((e.ResultMessage? || e.ErrorMessage? || e.CancelFromBrowser?) ==> e.connectionId != w.connection)
      && (e.Invoke? && e.provider.session.connectionId == w.connection && e.sent ==> w.open)
      && (W.GivesUp(w, e) ==> (e.sent <==> w.open))
  {
    hide Resolves; hide Resolved; hide Welcome; hide HasPrevious; hide Previous; hide T.Grants;
  }

  // ----- The Bridge and one browser -----

  datatype Move = AtBridge(now: nat, action: Action) | AtBrowser(step: W.Action)

  datatype Joint = Joint(bridge: Bridge, wire: W.System)

  predicate BrowserStep(a: W.Action) {
    a.DeliverDown? || a.HandlerEnds? || a.BrowserCloses?
  }

  ghost predicate Permitted(j: Joint, m: Move) {
    match m
    case AtBridge(now, a) => Possible(j.bridge, now, a) && Honest(j.bridge, a) && Heard(j.bridge, j.wire, a)
    case AtBrowser(x) => BrowserStep(x) && W.Enabled(j.wire, x)
  }

  ghost function Noticed(j: Joint, k: Config, m: Move): Option<W.Action> {
    match m
    case AtBridge(now, a) => Projected(j.bridge, k, now, a, j.wire.connection)
    case AtBrowser(x) => Some(x)
  }

  ghost function Moved(j: Joint, k: Config, m: Move): Joint {
    var p := Noticed(j, k, m);
    Joint(if m.AtBridge? then Step(j.bridge, k, m.now, m.action) else j.bridge,
          if p.Some? then W.Next(j.wire, k.broker, p.value) else j.wire)
  }

  ghost predicate JointInv(j: Joint, k: Config) {
    Inv(j.bridge, k) && Aligned(j.bridge, j.wire)
  }

  lemma BrowserStepsAlign(b: Bridge, w: W.System, limits: B.Limits, x: W.Action)
    requires Aligned(b, w) && BrowserStep(x)
    ensures Aligned(b, W.Next(w, limits, x))
  {
  }

  lemma MoveProjects(j: Joint, k: Config, m: Move)
    requires JointInv(j, k) && Permitted(j, m)
    ensures JointInv(Moved(j, k, m), k)
    ensures Noticed(j, k, m).Some? ==> W.Enabled(j.wire, Noticed(j, k, m).value)
  {
    hide Inv; hide Step; hide Possible; hide Projected; hide W.Next; hide W.Enabled; hide Aligned; hide Honest;
    hide Heard;
    match m
    case AtBridge(now, a) =>
      StepKeepsInv(j.bridge, k, now, a);
      StepProjects(j.bridge, k, now, a, j.wire);
    case AtBrowser(x) => BrowserStepsAlign(j.bridge, j.wire, k.broker, x);
  }

  ghost predicate PermittedRun(j: Joint, k: Config, run: seq<Move>)
    decreases |run|
  {
    run != [] ==> Permitted(j, run[0]) && PermittedRun(Moved(j, k, run[0]), k, run[1..])
  }

  ghost function AfterMoves(j: Joint, k: Config, run: seq<Move>): Joint
    decreases |run|
  {
    if run == [] then j else AfterMoves(Moved(j, k, run[0]), k, run[1..])
  }

  /** What a run looks like on the wire. */
  ghost function WireTrace(j: Joint, k: Config, run: seq<Move>): seq<W.Action>
    decreases |run|
  {
    if run == [] then [] else
      var p := Noticed(j, k, run[0]);
      (if p.Some? then [p.value] else []) + WireTrace(Moved(j, k, run[0]), k, run[1..])
  }

  /** Whatever the Bridge does for all its connections, its clients and its operator, one connection
      and its browser make a run of the two-party model, and both views of it stay in agreement. */
  lemma {:induction false} JointRunsAreWireRuns(j: Joint, k: Config, run: seq<Move>)
    requires JointInv(j, k) && PermittedRun(j, k, run)
    ensures JointInv(AfterMoves(j, k, run), k)
    ensures W.EnabledRun(j.wire, k.broker, WireTrace(j, k, run))
    ensures AfterMoves(j, k, run).wire == W.AfterRun(j.wire, k.broker, WireTrace(j, k, run))
    decreases |run|
  {
    hide JointInv; hide Permitted; hide Noticed; hide W.Next; hide W.Enabled; hide Step;
    if run != [] {
      var p, next := Noticed(j, k, run[0]), Moved(j, k, run[0]);
      MoveProjects(j, k, run[0]);
      JointRunsAreWireRuns(next, k, run[1..]);
      var rest := WireTrace(next, k, run[1..]);
      if p.Some? {
        assert ([p.value] + rest)[1..] == rest;
      } else {
        assert [] + rest == rest;
      }
    }
  }

  // ----- Sessions from their welcome on -----

  lemma PendingOnlyShrinks(b: B.State, limits: B.Limits, now: nat, e: B.Event)
    requires !e.Invoke?
    ensures forall id :: id in B.Step(b, limits, now, e).pending ==>
      id in b.pending && B.Step(b, limits, now, e).pending[id] == b.pending[id]
  {
    hide RecentRequests.FinishedAll; hide B.Counts;
  }

  lemma CallsKeepSockets(b: Bridge, k: Config, now: nat, a: Action)
    requires a.Call?
    ensures Step(b, k, now, a).sockets == b.sockets
  {
    hide B.Step; hide Resolves; hide Resolved;
  }

  /** The wire of a connection that has just received its welcome. */
  function NewWire(b: Bridge, c: Uuid, messageLimit: nat): W.System {
    W.System(b.broker, c, [], [], {}, {}, {}, messageLimit, OpenAt(b, c), true)
  }

  lemma NoWorkYet(b: Bridge, k: Config, c: Uuid)
    requires Inv(b, k) && c in b.sockets && b.sockets[c].session.None?
    ensures B.Owned(b.broker.pending, c) == {} && c in b.used
  {
    hide R.Inv; hide B.Inv; hide TokensInv; hide Approvals;
    assert c !in SessionsOf(b.sockets);
  }

  /** A connection without a session has nothing that a two-party run could not start from. */
  lemma NewConnectionIsFresh(b: Bridge, k: Config, c: Uuid, messageLimit: nat)
    requires Inv(b, k) && c in b.sockets && b.sockets[c].session.None?
    ensures W.Fresh(NewWire(b, c, messageLimit), k.broker)
  {
    hide Inv; hide B.Inv; hide B.Owned;
    NoWorkYet(b, k, c);
    ClockIsBehind(b, k);
  }

  /** The step that gives a connection its session leaves it without work: a two-party run can start. */
  lemma WelcomedIsFresh(b: Bridge, k: Config, now: nat, a: Action, c: Uuid, messageLimit: nat)
    requires Inv(b, k) && Possible(b, now, a) && c in b.sockets && b.sockets[c].session.None?
    requires var after := Step(b, k, now, a); c in after.sockets && after.sockets[c].session.Some?
    ensures var after := Step(b, k, now, a);
      W.Fresh(NewWire(after, c, messageLimit), k.broker) && JointInv(Joint(after, NewWire(after, c, messageLimit)), k)
  {
    hide Inv; hide Step; hide B.Step; hide B.Inv; hide BrokerEvent; hide Possible;
    var after := Step(b, k, now, a);
    NoWorkYet(b, k, c);
    StepKeepsInv(b, k, now, a);
    ClockIsBehind(after, k);
    StepUses(b, k, now, a);
    StepOnBroker(b, k, now, a);
    var e := BrokerEvent(Ticked(b, now, Drawn(a)), a);
    OnlyCallsInvoke(Ticked(b, now, Drawn(a)), a);
    if e.Some? && e.value.Invoke? {
      CallsKeepSockets(b, k, now, a);
    } else {
      if e.Some? {
        PendingOnlyShrinks(b.broker, k.broker, now, e.value);
      }
      assert B.Owned(after.broker.pending, c) <= B.Owned(b.broker.pending, c);
    }
  }

  /** The main result about calls, for the whole Bridge: take any run from its start to the welcome of
      any session, and then any run of the Bridge and that session's browser. If an `invoke` is next on
      the wire, the browser has room for it and does not know it yet. */
  lemma NoSessionIsOverloaded(k: Config, before: seq<Timed>, now: nat, a: Action, c: Uuid, messageLimit: nat,
                              run: seq<Move>)
    requires PossibleRun(STARTED, k, before)
    requires var b := After(STARTED, k, before);
      && Possible(b, now, a) && c in b.sockets && b.sockets[c].session.None?
      && c in Step(b, k, now, a).sockets && Step(b, k, now, a).sockets[c].session.Some?
      && PermittedRun(Joint(Step(b, k, now, a), NewWire(Step(b, k, now, a), c, messageLimit)), k, run)
    ensures var after := Step(After(STARTED, k, before), k, now, a);
      var w := AfterMoves(Joint(after, NewWire(after, c, messageLimit)), k, run).wire;
      w.down != [] && w.down[0].message.InvokeMessage? ==>
        && |w.active| < k.broker.maxConcurrentRequestsPerRuntime
        && w.down[0].message.invocationId !in w.active
  {
    hide Inv; hide Step; hide Possible; hide PossibleRun; hide PermittedRun; hide AfterMoves; hide W.Fresh; hide JointInv;
    hide WireTrace; hide W.EnabledRun; hide W.AfterRun; hide After;
    var b := After(STARTED, k, before);
    EveryReachableStateIsSound(k, before);
    WelcomedIsFresh(b, k, now, a, c, messageLimit);
    var start := Joint(Step(b, k, now, a), NewWire(Step(b, k, now, a), c, messageLimit));
    JointRunsAreWireRuns(start, k, run);
    W.NoRunEndsInRefusal(start.wire, k.broker, WireTrace(start, k, run));
  }

  /** And likewise for calls that are lost: while a session's socket is up at both ends, a call that
      the Bridge still holds for it is nowhere exactly if its browser dropped it. */
  lemma LostInTheBridgeExactlyWhenDropped(k: Config, j: Joint, run: seq<Move>, id: Uuid)
    requires JointInv(j, k) && W.Fresh(j.wire, k.broker) && PermittedRun(j, k, run)
    requires var t := AfterMoves(j, k, run);
      && OpenAt(t.bridge, j.wire.connection) && t.wire.reachable
      && id in B.Owned(t.bridge.broker.pending, j.wire.connection)
    ensures W.Nowhere(AfterMoves(j, k, run).wire, id) <==>
      W.DroppedDuring(j.wire, k.broker, WireTrace(j, k, run), id)
  {
    hide Inv; hide PermittedRun; hide AfterMoves; hide W.Fresh; hide WireTrace; hide W.EnabledRun; hide W.AfterRun;
    hide W.Nowhere; hide W.DroppedDuring; hide B.Owned;
    JointRunsAreWireRuns(j, k, run);
    W.ConnectionStays(j.wire, k.broker, WireTrace(j, k, run));
    W.LostExactlyWhenDropped(j.wire, k.broker, WireTrace(j, k, run), id);
  }
}
