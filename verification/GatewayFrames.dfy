/** Which connections a step of the Bridge can touch. */
module GatewayFrames {
  import opened Common
  import opened Capabilities
  import opened Expiring
  import opened RecentRequests
  import opened Resolution
  import opened GatewayModel
  import opened GatewayLaws
  import opened GatewayRuns
  import opened GatewayTheorems
  import opened GatewayConnections
  import opened GatewayOutcomes
  import B = BrokerModel
  import R = RegistryModel
  import T = Tokens

  /** The connections that an action is about: the one it names, the one whose session is resumed, the
      one whose request is decided, the provider of a call, the owner of a call that is given up. */
  ghost predicate Concerns(b: Bridge, a: Action, d: Uuid) {
    match a
    case Upgrade(c, _) => c == d
    case Receive(c, m, _) =>
      || c == d
      || (m.Connect? && m.hello.auth.WithResume? && d in b.sockets && b.sockets[d].session.Some?
          && b.sockets[d].session.value.sessionId == m.hello.auth.sessionId)
    case SocketClosed(c) => c == d
    case SocketFails(c) => c == d
    case ApprovalTimer(c) => c == d
    case Decide(requestId, _, _) =>
      d in b.sockets && b.sockets[d].approval.Some? && b.sockets[d].approval.value.requestId == requestId
    case IssuePairing(_, _) => false
    case Call(target, _, _, _) => exists p :: SoleProvider(b.registry, target, p) && p.connectionId == d
    case CallTimer(id, _) => id in b.broker.pending && b.broker.pending[id].provider.session.connectionId == d
    case CallAborted(id, _) => id in b.broker.pending && b.broker.pending[id].provider.session.connectionId == d
    case Stop => true
  }

  lemma BothUnaffected(x: Bridge, y: Bridge, z: Bridge, d: Uuid)
    requires Unaffected(x, y, d) && Unaffected(y, z, d)
    ensures Unaffected(x, z, d)
  {
  }

  /** A change of one socket that leaves registrations and calls alone. */
  lemma SocketChange(b: Bridge, after: Bridge, c: Uuid, x: Socket, d: Uuid)
    requires after.sockets == b.sockets[c := x] || after.sockets == b.sockets
    requires after.registry.registrations == b.registry.registrations && after.broker == b.broker && c != d
    ensures Unaffected(b, after, d)
  {
  }

  lemma ShutElsewhere(b: Bridge, c: Uuid, d: Uuid)
    requires c != d
    ensures Unaffected(b, Shut(b, c), d) && Unaffected(b, Withdrawn(b, c), d) && Unaffected(b, Expired(b, c), d)
  {
    hide B.Owned;
  }

  lemma EstablishedElsewhere(b: Bridge, k: Config, session: Session, secret: Uuid, d: Uuid)
    requires session.connectionId != d
    ensures Unaffected(b, Established(b, k, session, secret), d)
  {
    hide R.Conflicts; hide T.Issued; hide T.Revoked; hide R.CountAll; hide R.BytesAll; hide B.Owned;
  }

  lemma DetachedElsewhere(b: Bridge, k: Config, c: Uuid, d: Uuid)
    requires Inv(b, k) && c != d
    ensures Unaffected(b, Detach(b, c), d)
  {
    hide Inv; hide Detach; hide B.Owned;
    DetachTouchesNothingElse(b, k, c, d);
  }

  lemma RetiredElsewhere(b: Bridge, k: Config, c: Uuid, g: Grant, d: Uuid)
    requires Inv(b, k)
    requires d in b.sockets && b.sockets[d].session.Some? ==> b.sockets[d].session.value.sessionId != g.sessionId
    ensures Unaffected(b, Retired(b, c, g), d)
  {
    hide Inv; hide Detach; hide B.Owned;
    if HasPrevious(b.sockets, c, g) {
      DetachedElsewhere(b, k, Previous(b.sockets, c, g), d);
    }
  }

  lemma ConsumedElsewhere(b: Bridge, pairing: seq<Entry<string>>, resume: seq<Entry<Grant>>, d: Uuid)
    ensures Unaffected(b, b.(pairing := pairing, resume := resume), d)
  {
    hide B.Owned;
  }

  lemma ResumedElsewhere(b: Bridge, k: Config, c: Uuid, h: Hello, token: Uuid, sessionId: Uuid, secret: Uuid, d: Uuid)
    requires Inv(b, k) && c in b.sockets && c != d
    requires d in b.sockets && b.sockets[d].session.Some? ==> b.sockets[d].session.value.sessionId != sessionId
    ensures Unaffected(b, Resumed(b, k, c, h, token, sessionId, secret), d)
  {
    hide Inv; hide T.Grants; hide T.AfterConsume; hide Established; hide Retired; hide Unaffected; hide Shut;
    var g := ResumeOf(b.sockets[c].origin, h, sessionId);
    var left := b.(resume := T.AfterConsume(b.resume, b.clock, token, Exactly(g)));
    ConsumeKeepsInv(b, k, token, Exactly(g));
    ConsumedElsewhere(b, b.pairing, left.resume, d);
    ShutElsewhere(left, c, d);
    BothUnaffected(b, left, Shut(left, c), d);
    if T.Grants(b.resume, b.clock, token, Exactly(g)).Some? {
      GrantedFacts(b, k, token, g);
      RetiredElsewhere(left, k, c, g, d);
      BothUnaffected(b, left, Retired(left, c, g), d);
      var session := SessionFor(c, b.sockets[c].origin, h, sessionId);
      EstablishedElsewhere(Retired(left, c, g), k, session, secret, d);
      BothUnaffected(b, Retired(left, c, g), Established(Retired(left, c, g), k, session, secret), d);
    }
  }

  lemma PairedElsewhere(b: Bridge, k: Config, c: Uuid, h: Hello, token: Uuid, draw: Draw, d: Uuid)
    requires c in b.sockets && c != d
    ensures Unaffected(b, Paired(b, k, c, h, token, draw), d)
  {
    hide T.Grants; hide T.AfterConsume; hide Established; hide Unaffected; hide Shut;
    var origin := b.sockets[c].origin;
    var left := b.(pairing := T.AfterConsume(b.pairing, b.clock, token, FromOrigin(origin)));
    ConsumedElsewhere(b, left.pairing, b.resume, d);
    ShutElsewhere(left, c, d);
    BothUnaffected(b, left, Shut(left, c), d);
    var session := SessionFor(c, origin, h, draw.sessionId);
    EstablishedElsewhere(left, k, session, draw.secret, d);
    BothUnaffected(b, left, Established(left, k, session, draw.secret), d);
  }

  lemma AskedElsewhere(b: Bridge, k: Config, c: Uuid, a: Approval, d: Uuid)
    requires c in b.sockets && c != d
    ensures Unaffected(b, Asked(b, k, c, a), d)
  {
    hide MayAsk; hide B.Owned;
  }

  lemma ConnectedElsewhere(b: Bridge, k: Config, c: Uuid, h: Hello, draw: Draw, d: Uuid)
    requires Inv(b, k) && c in b.sockets && c != d
    requires h.auth.WithResume? && d in b.sockets && b.sockets[d].session.Some? ==>
      b.sockets[d].session.value.sessionId != h.auth.sessionId
    ensures Unaffected(b, Connected(b, k, c, h, draw), d)
  {
    hide Inv; hide Welcome; hide Resumed; hide Paired; hide Asked; hide Unaffected; hide Shut;
    ShutElsewhere(b, c, d);
    match h.auth
    case WithApproval =>
      AskedElsewhere(b, k, c, Approval(draw.requestId, h.appId, h.runtimeId, h.instanceId, b.clock + k.pairingTokenTtlMs), d);
    case WithResume(token, sessionId) => ResumedElsewhere(b, k, c, h, token, sessionId, draw.secret, d);
    case WithPairing(token) => PairedElsewhere(b, k, c, h, token, draw, d);
  }

  lemma Untouched(b: Bridge, d: Uuid)
    ensures Unaffected(b, b, d)
  {
  }

  lemma ReceivedElsewhere(b: Bridge, k: Config, c: Uuid, m: Message, draw: Draw, d: Uuid)
    requires Inv(b, k) && !Concerns(b, Receive(c, m, draw), d)
    ensures Unaffected(b, Received(b, k, c, m, draw), d)
  {
    hide Inv; hide Connected; hide InSession; hide Unaffected; hide Shut;
    Untouched(b, d);
    ShutElsewhere(b, c, d);
    if c in b.sockets {
      match b.sockets[c].session
      case None =>
        if m.Connect? {
          ConnectedElsewhere(b, k, c, m.hello, draw, d);
        }
      case Some(session) => MessagesStayInTheirSession(b, k, c, session, m, d);
    }
  }

  lemma DecidedElsewhere(b: Bridge, k: Config, requestId: Uuid, approve: bool, draw: Draw, d: Uuid)
    requires !Concerns(b, Decide(requestId, approve, draw), d)
    ensures Unaffected(b, Decided(b, k, requestId, approve, draw), d)
  {
    hide Established; hide Unaffected; hide Shut; hide Withdrawn; hide Expired;
    Untouched(b, d);
    if HasApplicant(b.sockets, requestId) {
      var c := Applicant(b.sockets, requestId);
      var s := b.sockets[c];
      ShutElsewhere(b, c, d);
      ShutElsewhere(Withdrawn(b, c), c, d);
      BothUnaffected(b, Withdrawn(b, c), Shut(Withdrawn(b, c), c), d);
      var session := SessionAsked(c, s.origin, s.approval.value, draw.sessionId);
      EstablishedElsewhere(Withdrawn(b, c), k, session, draw.secret, d);
      BothUnaffected(b, Withdrawn(b, c), Established(Withdrawn(b, c), k, session, draw.secret), d);
    }
  }

  // ----- Calls -----

  /** The calls that this connection owns are the same. */
  ghost predicate SameWork(b: B.State, after: B.State, d: Uuid) {
    && B.Owned(after.pending, d) == B.Owned(b.pending, d)
    && forall id :: id in B.Owned(b.pending, d) ==> after.pending[id] == b.pending[id]
  }

  lemma WorkElsewhere(b: Bridge, after: Bridge, d: Uuid)
    requires after.sockets == b.sockets && after.registry == b.registry && SameWork(b.broker, after.broker, d)
    ensures Unaffected(b, after, d)
  {
    hide B.Owned;
  }

  lemma InvokedElsewhere(b: B.State, limits: B.Limits, id: Uuid, kind: Kind, provider: Capability, aborted: bool,
                         sent: bool, d: Uuid)
    requires provider.session.connectionId != d && id !in b.pending
    ensures SameWork(b, B.Invoked(b, limits, id, kind, provider, aborted, sent), d)
  {
    hide B.Counts; hide FinishedAll; hide Started; hide B.Refusal;
  }

  lemma InterruptedElsewhere(b: B.State, limits: B.Limits, now: nat, id: Uuid, code: ErrorCode, sent: bool, d: Uuid)
    requires id in b.pending ==> b.pending[id].provider.session.connectionId != d
    ensures SameWork(b, B.Interrupted(b, limits, now, id, code, sent), d)
  {
    hide B.Counts; hide FinishedAll; hide Inserted;
  }

  lemma CalledElsewhere(b: Bridge, k: Config, target: Target, id: Uuid, aborted: bool, sent: bool, d: Uuid)
    requires Inv(b, k) && id !in b.broker.pending && !Concerns(b, Call(target, id, aborted, sent), d)
    ensures Unaffected(b, GatewayModel.Called(b, k, target, id, aborted, sent), d)
  {
    hide Inv; hide SoleProvider; hide Resolves; hide Resolved; hide Unaffected; hide SameWork; hide B.Invoked; hide R.Inv;
    Untouched(b, d);
    RegistryIsSound(b, k);
    ResolvesMeans(b.registry, target);
    if p :| SoleProvider(b.registry, target, p) {
      SoleResolves(b.registry, k.registry, target, p);
      InvokedElsewhere(b.broker, k.broker, id, KindOf(target), Resolved(b.registry, target), aborted, sent, d);
      WorkElsewhere(b, GatewayModel.Called(b, k, target, id, aborted, sent), d);
    }
  }

  lemma GivenUpElsewhere(b: Bridge, k: Config, id: Uuid, sent: bool, d: Uuid)
    requires id in b.broker.pending ==> b.broker.pending[id].provider.session.connectionId != d
    ensures Unaffected(b, Answered(b, k, B.TimerFired(id, sent)), d)
    ensures Unaffected(b, Answered(b, k, B.SignalAborted(id, sent)), d)
  {
    hide Unaffected; hide SameWork; hide B.Interrupted;
    InterruptedElsewhere(b.broker, k.broker, b.clock, id, TimedOut, sent, d);
    InterruptedElsewhere(b.broker, k.broker, b.clock, id, Cancelled, sent, d);
    WorkElsewhere(b, Answered(b, k, B.TimerFired(id, sent)), d);
    WorkElsewhere(b, Answered(b, k, B.SignalAborted(id, sent)), d);
  }

  // ----- Every step -----

  lemma TickedElsewhere(b: Bridge, now: nat, ids: set<Uuid>, after: Bridge, d: Uuid)
    requires Unaffected(Ticked(b, now, ids), after, d)
    ensures Unaffected(b, after, d)
  {
  }

  /** A step leaves the socket, the registrations and the calls of every connection that it is not about
      exactly as they were. */
  lemma StepTouchesNoOther(b: Bridge, k: Config, now: nat, a: Action, d: Uuid)
    requires Inv(b, k) && Possible(b, now, a) && !Concerns(b, a, d)
    ensures Unaffected(b, Step(b, k, now, a), d)
  {
    hide Inv; hide Received; hide Decided; hide GatewayModel.Called; hide Answered; hide Expired; hide Detach; hide Shut;
    hide T.Issued; hide Unaffected; hide Concerns; hide Possible;
    var at := Ticked(b, now, Drawn(a));
    TickKeepsInv(b, k, now, Drawn(a)) by {
      TimeGoesOn(b, now, a);
    }
    SameConcerns(b, now, a, d);
    ActElsewhere(b, k, now, a, d);
    TickedElsewhere(b, now, Drawn(a), Step(b, k, now, a), d);
  }

  lemma TimeGoesOn(b: Bridge, now: nat, a: Action)
    requires Possible(b, now, a)
    ensures b.clock <= now
  {
  }

  lemma SameConcerns(b: Bridge, now: nat, a: Action, d: Uuid)
    ensures Concerns(Ticked(b, now, Drawn(a)), a, d) <==> Concerns(b, a, d)
  {
    hide SoleProvider;
  }

  lemma ActElsewhere(b: Bridge, k: Config, now: nat, a: Action, d: Uuid)
    requires Inv(b, k) && Possible(b, now, a) && Inv(Ticked(b, now, Drawn(a)), k)
    requires !Concerns(Ticked(b, now, Drawn(a)), a, d)
    ensures Unaffected(Ticked(b, now, Drawn(a)), Step(b, k, now, a), d)
  {
    hide Inv; hide Received; hide Decided; hide GatewayModel.Called; hide Answered; hide Expired; hide Detach; hide Shut;
    hide T.Issued; hide Unaffected; hide SoleProvider;
    var at := Ticked(b, now, Drawn(a));
    Untouched(at, d);
    match a
    case Upgrade(c, origin) => SocketChange(at, Step(b, k, now, a), c, Socket(origin, true, None, None), d);
    case Receive(c, m, draw) => ReceivedElsewhere(at, k, c, m, draw, d);
    case SocketClosed(c) => DetachedElsewhere(at, k, c, d);
    case SocketFails(c) => ShutElsewhere(at, c, d);
    case ApprovalTimer(c) => ShutElsewhere(at, c, d);
    case Decide(requestId, approve, draw) => DecidedElsewhere(at, k, requestId, approve, draw, d);
    case IssuePairing(origin, secret) => ConsumedElsewhere(at, Step(b, k, now, a).pairing, at.resume, d);
    case Call(target, id, aborted, sent) =>
      NewIsNotPending(b, k, id);
      CalledElsewhere(at, k, target, id, aborted, sent, d);
    case CallTimer(id, sent) => GivenUpElsewhere(at, k, id, sent, d);
    case CallAborted(id, sent) => GivenUpElsewhere(at, k, id, sent, d);
    case Stop =>
  }

  lemma NewIsNotPending(b: Bridge, k: Config, id: Uuid)
    requires Inv(b, k) && id !in b.used
    ensures id !in b.broker.pending
  {
    hide Inv;
    IdsAreNew(b, k, id);
    BrokerFacts(b, k);
  }
}
