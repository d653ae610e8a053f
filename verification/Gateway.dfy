/** The gateway itself, with the sockets that it updates in place and the components that it calls. */
module Gateway {
  import opened Common
  import opened Capabilities
  import opened Sequences
  import opened Expiring
  import opened RecentRequests
  import opened Resolution
  import opened GatewayModel
  import opened GatewayLaws
  import opened GatewayRuns
  import opened RegistryOutcomes
  import BO = BrokerOutcomes
  import GO = GatewayOutcomes
  import Broker
  import Registry
  import T = Tokens
  import B = BrokerModel
  import R = RegistryModel

  // ----- What the parts of the invariant say to the components -----

  lemma TablesOf(b: Bridge, k: Config)
    requires Inv(b, k)
    ensures B.Inv(b.broker, k.broker) && b.broker.clock <= b.clock
    ensures forall c :: c in b.registry.sessions ==> c in b.sockets && b.sockets[c].session.Some?
  {
    hide R.Inv; hide B.Inv; hide TokensInv; hide Approvals; hide KnownSockets;
  }

  lemma NotResolved(r: R.Registry, target: Target)
    requires Resolves(r, target)
    ensures exists c :: Offers(r, target, c)
    ensures forall c, d :: Offers(r, target, c) && Offers(r, target, d) ==> c == d
  {
    var p :| IsOnly(r, target, p);
    assert Offers(r, target, p.connectionId);
  }

  /** There is such a request, it has not expired, and its socket is open. */
  ghost predicate Decidable(sockets: map<Uuid, Socket>, requestId: Uuid, now: nat, c: Uuid)
    requires c in sockets
  {
    IsApplicant(sockets, requestId, c) && sockets[c].open && sockets[c].approval.value.expiresAt > now
  }

  lemma DetachSockets(b: Bridge, c: Uuid)
    ensures Detach(b, c) == b.(sockets := b.sockets - {c}, broker := B.Lost(b.broker, c), registry := R.Removed(b.registry, c))
  {
  }

  class BrowserGateway {
    const config: Config
    const broker: Broker.InvocationBroker
    const registry: Registry.CapabilityRegistry
    const pairingTokens: T.OneTimeTokenStore<string>
    const resumeTokens: T.OneTimeTokenStore<Grant>
    var sockets: map<Uuid, Socket>
    // Every id and secret drawn so far, and the last time the clock was read.
    ghost var used: set<Uuid>
    ghost var clock: nat

    ghost function View(): Bridge
      reads this, broker, broker.recent, registry, pairingTokens, resumeTokens
    {
      Bridge(sockets, broker.View(), registry.View(), pairingTokens.entries, resumeTokens.entries, used, clock)
    }

    /** The components are set up for this gateway and each is in order by itself. */
    ghost predicate Wired()
      reads this, broker, broker.recent, registry, pairingTokens, resumeTokens
    {
      && (pairingTokens as object) != (resumeTokens as object)
      && broker.limits == config.broker && registry.config == config.registry
      && pairingTokens.ttlMs == config.pairingTokenTtlMs && pairingTokens.maxEntries == TOKEN_CAP
      && resumeTokens.ttlMs == config.resumeTokenTtlMs && resumeTokens.maxEntries == TOKEN_CAP
      && broker.Valid() && registry.Valid() && pairingTokens.Valid() && resumeTokens.Valid()
      && broker.clock <= clock && pairingTokens.clock <= clock && resumeTokens.clock <= clock
    }

    ghost predicate Valid()
      reads this, broker, broker.recent, registry, pairingTokens, resumeTokens
    {
      Wired() && Inv(View(), config)
    }

    constructor (config: Config, broker: Broker.InvocationBroker, registry: Registry.CapabilityRegistry)
      requires broker.limits == config.broker && broker.Valid() && broker.View() == B.INITIAL
      requires registry.config == config.registry && registry.Valid() && registry.View() == R.EMPTY
      ensures this.config == config && this.broker == broker && this.registry == registry
      ensures fresh(pairingTokens) && fresh(resumeTokens)
      ensures Valid() && View() == STARTED
    {
      hide Inv; hide R.Inv; hide B.Inv;
      StartedInv(config);
      this.config, this.broker, this.registry := config, broker, registry;
      pairingTokens := new T.OneTimeTokenStore(config.pairingTokenTtlMs, TOKEN_CAP);
      resumeTokens := new T.OneTimeTokenStore(config.resumeTokenTtlMs, TOKEN_CAP);
      sockets := map[];
      used, clock := {}, 0;
    }

    /** The clock is read and ids are drawn. */
    ghost method Tick(now: nat, ids: set<Uuid>)
      requires Valid() && clock <= now
      modifies this`clock, this`used
      ensures Valid() && View() == Ticked(old(View()), now, ids)
    {
      hide Inv;
      TickKeepsInv(View(), config, now, ids);
      clock, used := now, used + ids;
    }

    /** `socket.close` */
    method CloseSocket(c: Uuid)
      requires Valid()
      modifies this`sockets
      ensures Valid() && View() == Shut(old(View()), c)
    {
      hide Inv;
      ShutKeepsInv(View(), config, c);
      if c in sockets {
        sockets := sockets[c := sockets[c].(open := false)];
      }
    }

    // ----- Sockets come and go -----

    /** `handleUpgrade` and `accept` */
    method Accept(c: Uuid, origin: string, now: nat) returns (accepted: bool)
      requires Valid() && Possible(View(), now, Upgrade(c, origin))
      modifies this
      ensures Valid() && View() == Step(old(View()), config, now, Upgrade(c, origin))
      ensures accepted <==> |old(sockets)| < config.maxBrowserConnections
      ensures sockets == if accepted then old(sockets)[c := Socket(origin, true, None, None)] else old(sockets)
    {
      hide Received; hide Decided; hide Called; hide Answered; hide Expired; hide Detach; hide T.Issued;
      hide Inv;
      IdsAreNew(View(), config, c);
      Tick(now, {c});
      if |sockets| >= config.maxBrowserConnections {
        return false;
      }
      UpgradeKeepsInv(View(), config, c, origin);
      sockets := sockets[c := Socket(origin, true, None, None)];
      return true;
    }

    /** The `close` event, and the part of a replacement that takes the old connection away. */
    method Drop(c: Uuid)
      requires Valid()
      modifies this`sockets, broker, broker.recent, registry
      ensures Valid() && View() == Detach(old(View()), c)
    {
      hide Inv; hide B.Lost; hide R.Removed; hide B.Inv; hide R.Inv;
      DetachKeepsInv(View(), config, c);
      DetachSockets(View(), c);
      LostClock(broker.View(), c);
      sockets := sockets - {c};
      broker.Disconnect(c);
      var removed := registry.RemoveSession(c);
    }

    method OnClose(c: Uuid, now: nat)
      requires Valid() && clock <= now
      modifies this, broker, broker.recent, registry
      ensures Valid() && View() == Step(old(View()), config, now, SocketClosed(c))
    {
      hide Received; hide Decided; hide Called; hide Answered; hide Expired; hide Detach; hide T.Issued;
      hide Inv;
      Tick(now, {});
      Drop(c);
    }

    /** The handshake timer, the heartbeat, or the peer closes the socket. */
    method OnFailure(c: Uuid, now: nat)
      requires Valid() && clock <= now
      modifies this
      ensures Valid() && View() == Step(old(View()), config, now, SocketFails(c))
    {
      hide Received; hide Decided; hide Called; hide Answered; hide Expired; hide Detach; hide T.Issued;
      hide Inv;
      Tick(now, {});
      CloseSocket(c);
    }

    // ----- Sessions -----

    method EstablishSession(session: Session, secret: Uuid, now: nat) returns (established: bool)
      requires Valid() && MayBegin(View(), session, secret) && now == clock
      modifies this`sockets, registry, resumeTokens
      ensures Valid() && View() == Established(old(View()), config, session, secret)
      ensures established <==> !R.Conflicts(old(registry.sessions), session)
    {
      hide Inv; hide R.Added; hide R.Conflicts; hide NoSession; hide HasKey; hide R.Inv; hide B.Inv; hide T.Inv;
      hide T.Issued; hide T.Revoked;
      EstablishKeepsInv(View(), config, session, secret);
      TablesOf(View(), config);
      RevokedKeys(resumeTokens.entries, session.sessionId, secret);
      var c := session.connectionId;
      var error := registry.AddSession(session);
      if error.Some? {
        NotAdded(old(registry.View()), session);
        CloseSocketAgain(c);
        return false;
      }
      sockets := sockets[c := sockets[c].(session := Some(session))];
      resumeTokens.RevokeAll(ForSession(session.sessionId));
      var expiresAt := resumeTokens.Issue(GrantOf(session), secret, now);
      return true;
    }

    /** Closing a socket while a refused session is being cleared up. */
    method CloseSocketAgain(c: Uuid)
      modifies this`sockets
      ensures sockets == if c in old(sockets) then old(sockets)[c := old(sockets)[c].(open := false)] else old(sockets)
    {
      if c in sockets {
        sockets := sockets[c := sockets[c].(open := false)];
      }
    }

    method RetirePreviousConnectionForResume(c: Uuid, grant: Grant)
      requires Valid()
      modifies this`sockets, broker, broker.recent, registry
      ensures Valid() && View() == Retired(old(View()), c, grant)
    {
      hide Inv; hide Detach;
      if !HasPrevious(sockets, c, grant) {
        return;
      }
      var p :| p in sockets && IsPrevious(sockets, c, grant, p);
      PreviousIsUnique(View(), config, c, grant, p, Previous(sockets, c, grant));
      Drop(p);
    }

    // ----- Approvals -----

    method RequestPairingApproval(c: Uuid, a: Approval)
      requires Valid() && c in sockets && sockets[c].approval.None? && sockets[c].session.None?
      requires UnusedRequest(sockets, a.requestId) && a.requestId in used
      modifies this`sockets
      ensures Valid() && View() == Asked(old(View()), config, c, a)
    {
      hide Inv; hide UnusedRequest;
      AskKeepsInv(View(), config, c, a);
      var pendingStates := Awaiting(sockets);
      var maxPending := MaxAwaiting(config.maxBrowserConnections);
      var sameOrigin := AwaitingAt(sockets, sockets[c].origin);
      var duplicate := AlreadyAsked(sockets, sockets[c].origin, a);
      if |pendingStates| >= maxPending || |sameOrigin| >= 3 || duplicate {
        CloseSocket(c);
        return;
      }
      sockets := sockets[c := sockets[c].(approval := Some(a))];
    }

    method ExpirePairingApproval(c: Uuid)
      requires Valid()
      modifies this`sockets
      ensures Valid() && View() == Expired(old(View()), c)
    {
      hide Inv;
      if c !in sockets || sockets[c].approval.None? {
        return;
      }
      WithdrawKeepsInv(View(), config, c);
      sockets := sockets[c := sockets[c].(approval := None)];
      CloseSocket(c);
    }

    method OnApprovalTimer(c: Uuid, now: nat)
      requires Valid() && clock <= now
      modifies this
      ensures Valid() && View() == Step(old(View()), config, now, ApprovalTimer(c))
    {
      hide Received; hide Decided; hide Called; hide Answered; hide Expired; hide Detach; hide T.Issued;
      hide Inv;
      Tick(now, {});
      ExpirePairingApproval(c);
    }

    /** The operator's decision on one request; true if there was such a request to decide on. */
    method DecidePairingApproval(requestId: Uuid, approve: bool, draw: Draw, now: nat) returns (decided: bool)
      requires Valid() && Possible(View(), now, GatewayModel.Decide(requestId, approve, draw))
      modifies this, registry, resumeTokens
      ensures Valid() && View() == Step(old(View()), config, now, GatewayModel.Decide(requestId, approve, draw))
      ensures decided <==> exists c :: c in old(sockets) && Decidable(old(sockets), requestId, now, c)
    {
      hide Received; hide Decided; hide Called; hide Answered; hide Expired; hide Detach; hide T.Issued;
      hide Inv; hide NewDraw; hide Decidable;
      DrawIsNew(View(), config, now, {draw.sessionId, draw.secret, draw.requestId}, draw);
      Tick(now, {draw.sessionId, draw.secret, draw.requestId});
      decided := Decide(requestId, approve, draw, now);
    }

    method Decide(requestId: Uuid, approve: bool, draw: Draw, now: nat) returns (decided: bool)
      requires Valid() && now == clock && NewDraw(View(), draw)
      modifies this`sockets, registry, resumeTokens
      ensures Valid() && View() == Decided(old(View()), config, requestId, approve, draw)
      ensures decided <==> exists c :: c in old(sockets) && Decidable(old(sockets), requestId, now, c)
    {
      hide Inv; hide Established; hide Expired; hide HasKey; hide NoSession; hide UnusedRequest;
      if !HasApplicant(sockets, requestId) {
        return false;
      }
      var c :| c in sockets && IsApplicant(sockets, requestId, c);
      forall d | IsApplicant(sockets, requestId, d) ensures d == c {
        ApplicantIsUnique(View(), config, requestId, d, c);
      }
      var s := sockets[c];
      if s.approval.value.expiresAt <= now || !s.open {
        ExpirePairingApproval(c);
        return false;
      }
      WithdrawnFacts(View(), config, c);
      sockets := sockets[c := s.(approval := None)];
      if !approve {
        CloseSocket(c);
        return true;
      }
      var established := EstablishSession(SessionAsked(c, s.origin, s.approval.value, draw.sessionId), draw.secret, now);
      return true;
    }

    // ----- Messages -----

    method Connect(c: Uuid, h: Hello, draw: Draw, now: nat)
      requires Valid() && now == clock && NewDraw(View(), draw)
      requires c in sockets && sockets[c].session.None? && sockets[c].approval.None?
      modifies this`sockets, broker, broker.recent, registry, pairingTokens, resumeTokens
      ensures Valid() && View() == Connected(old(View()), config, c, h, draw)
    {
      hide Inv; hide Resumed; hide Paired; hide Asked; hide HasKey; hide NoSession; hide UnusedRequest; hide Welcome;
      if !Welcome(sockets[c].origin, h) {
        CloseSocket(c);
        return;
      }
      match h.auth
      case WithApproval =>
        RequestPairingApproval(c, Approval(draw.requestId, h.appId, h.runtimeId, h.instanceId, now + config.pairingTokenTtlMs));
      case WithResume(token, sessionId) => Resume(c, h, token, sessionId, draw, now);
      case WithPairing(token) => Pair(c, h, token, draw, now);
    }

    method Resume(c: Uuid, h: Hello, token: Uuid, sessionId: Uuid, draw: Draw, now: nat)
      requires Valid() && now == clock && NewDraw(View(), draw)
      requires c in sockets && sockets[c].session.None? && sockets[c].approval.None?
      modifies this`sockets, broker, broker.recent, registry, resumeTokens
      ensures Valid() && View() == Resumed(old(View()), config, c, h, token, sessionId, draw.secret)
    {
      hide Inv; hide T.Grants; hide T.AfterConsume; hide Established; hide Retired; hide HasKey; hide Matches;
      hide NoSession;
      hide UnusedRequest; hide R.Inv; hide B.Inv; hide T.Inv;
      var origin := sockets[c].origin;
      var g := ResumeOf(origin, h, sessionId);
      ghost var before := View();
      ConsumeKeepsInv(before, config, token, Exactly(g));
      if T.Grants(before.resume, now, token, Exactly(g)).Some? {
        GrantedFacts(before, config, token, g);
      }
      var grant := resumeTokens.ConsumeIf(token, Exactly(g), now);
      SubsetHasNoKey(before.resume, resumeTokens.entries, draw.secret);
      if grant.None? {
        CloseSocket(c);
        return;
      }
      RetireFacts(View(), config, c, grant.value);
      RetirePreviousConnectionForResume(c, grant.value);
      var established := EstablishSession(SessionFor(c, origin, h, sessionId), draw.secret, now);
    }

    method Pair(c: Uuid, h: Hello, token: Uuid, draw: Draw, now: nat)
      requires Valid() && now == clock && NewDraw(View(), draw)
      requires c in sockets && sockets[c].session.None? && sockets[c].approval.None?
      modifies this`sockets, registry, pairingTokens, resumeTokens
      ensures Valid() && View() == Paired(old(View()), config, c, h, token, draw)
    {
      hide Inv; hide T.Grants; hide T.AfterConsume; hide Established; hide HasKey; hide NoSession; hide UnusedRequest;
      hide R.Inv; hide B.Inv; hide T.Inv;
      var origin := sockets[c].origin;
      ConsumePairingKeepsInv(View(), config, token, FromOrigin(origin));
      var grant := pairingTokens.ConsumeIf(token, FromOrigin(origin), now);
      if grant.None? {
        CloseSocket(c);
        return;
      }
      var established := EstablishSession(SessionFor(c, origin, h, draw.sessionId), draw.secret, now);
    }

    /** The messages of an established session; the result says whether an error is sent back. */
    method OnSessionMessage(c: Uuid, session: Session, m: Message, now: nat) returns (error: bool)
      requires Valid() && now == clock
      modifies this`sockets, broker, broker.recent, registry, resumeTokens
      ensures Valid() && View() == InSession(old(View()), config, c, session, m)
      // An error goes back exactly for what was refused, and for what does not belong here.
      ensures m.Register? ==> (error <==> !Registrable(old(registry.View()), config.registry.limits, c, m.registration))
      ensures m.Unregister? ==>
        (error <==> !(c in old(registry.registrations) && m.registrationId in old(registry.registrations)[c]))
      ensures m.ResultOf? || m.CancelOf? ==> (error <==> !BO.Awaited(old(broker.View()), now, c, m.invocationId))
      ensures m.FromBridge? ==> error
      ensures m.ErrorOf? || m.Heartbeat? || m.Disconnect? ==> !error
    {
      hide Inv; hide R.Registered; hide R.Unregistered; hide Answered; hide R.Inv; hide B.Inv; hide T.Inv;
      hide Keep; hide Shut; hide BO.Awaited; hide Registrable; hide RefusedFor; hide IsExposedAs;
      SessionKeepsInv(View(), config, c, session, m);
      error := false;
      match m
      case Register(_, _) => error := OnRegistration(c, session, m);
      case Unregister(_, _) => error := OnRegistration(c, session, m);
      case ResultOf(_, _, _) => error := OnAnswer(c, session, m, now);
      case ErrorOf(_, _, _) => error := OnAnswer(c, session, m, now);
      case CancelOf(_, _) => error := OnAnswer(c, session, m, now);
      case Disconnect(_, canResume) =>
        if !canResume {
          FilterKeepsTokens(View(), config, T.NotAccepted(ForSession(session.sessionId)));
          resumeTokens.RevokeAll(ForSession(session.sessionId));
        }
        CloseSocket(c);
      case FromBridge(_, _) => error := true;
      case _ =>
    }

    /** `register` and `unregister` */
    method OnRegistration(c: Uuid, session: Session, m: Message) returns (error: bool)
      requires Valid() && (m.Register? || m.Unregister?)
      modifies registry
      ensures Valid() && View() == InSession(old(View()), config, c, session, m)
      ensures m.Register? ==> (error <==> !Registrable(old(registry.View()), config.registry.limits, c, m.registration))
      ensures m.Unregister? ==>
        (error <==> !(c in old(registry.registrations) && m.registrationId in old(registry.registrations)[c]))
    {
      hide Inv; hide R.Registered; hide R.Unregistered; hide R.Inv; hide B.Inv; hide T.Inv;
      hide Registrable; hide RefusedFor; hide IsExposedAs;
      SessionKeepsInv(View(), config, c, session, m);
      match m
      case Register(_, registration) =>
        var r := registry.Register(c, registration);
        error := r.Err?;
      case Unregister(_, id) =>
        var r := registry.Unregister(c, id);
        error := r.Err?;
    }

    /** The browser's answers to invocations. */
    method OnAnswer(c: Uuid, session: Session, m: Message, now: nat) returns (error: bool)
      requires Valid() && now == clock && (m.ResultOf? || m.ErrorOf? || m.CancelOf?)
      modifies broker, broker.recent
      ensures Valid() && View() == InSession(old(View()), config, c, session, m)
      ensures m.ResultOf? || m.CancelOf? ==> (error <==> !BO.Awaited(old(broker.View()), now, c, m.invocationId))
      ensures m.ErrorOf? ==> !error
    {
      hide BO.Awaited;
      hide Inv; hide B.Answered; hide R.Inv; hide B.Inv; hide T.Inv; hide B.Matched; hide B.ResultVerdict;
      SessionKeepsInv(View(), config, c, session, m);
      error := false;
      match m
      case ResultOf(_, id, output) =>
        AnswerClock(View(), config, B.ResultMessage(c, id, output));
        var matched := broker.Resolve(c, id, output, now);
        error := !matched;
      case ErrorOf(_, invocation, code) =>
        if invocation.Some? {
          AnswerClock(View(), config, B.ErrorMessage(c, invocation.value, code));
          var matched := broker.RejectFromBrowser(c, invocation.value, code, now);
        }
      case CancelOf(_, id) =>
        AnswerClock(View(), config, B.CancelFromBrowser(c, id));
        var matched := broker.CancelledByBrowser(c, id, now);
        error := !matched;
    }

    method OnMessage(c: Uuid, m: Message, draw: Draw, now: nat)
      requires Valid() && Possible(View(), now, Receive(c, m, draw))
      modifies this, broker, broker.recent, registry, pairingTokens, resumeTokens
      ensures Valid() && View() == Step(old(View()), config, now, Receive(c, m, draw))
    {
      hide Decided; hide Called; hide Answered; hide Expired; hide Detach; hide T.Issued;
      hide Inv; hide Connected; hide InSession; hide NewDraw;
      DrawIsNew(View(), config, now, {draw.sessionId, draw.secret, draw.requestId}, draw);
      Tick(now, {draw.sessionId, draw.secret, draw.requestId});
      if c !in sockets {
        return;
      }
      if m.Malformed? {
        CloseSocket(c);
        return;
      }
      if sockets[c].session.None? {
        if sockets[c].approval.Some? || !m.Connect? {
          CloseSocket(c);
        } else {
          Connect(c, m.hello, draw, now);
        }
        return;
      }
      var session := sockets[c].session.value;
      if m.Connect? || (m.FromBridge? && m.handshake) {
        CloseSocket(c);
        return;
      }
      if ClaimedSession(m).Some? && ClaimedSession(m).value != session.sessionId {
        CloseSocket(c);
        return;
      }
      var error := OnSessionMessage(c, session, m, now);
    }

    // ----- The operator and the clients -----

    method IssuePairingToken(origin: string, secret: Uuid, now: nat) returns (expiresAt: nat)
      requires Valid() && Possible(View(), now, IssuePairing(origin, secret))
      modifies this, pairingTokens
      ensures Valid() && View() == Step(old(View()), config, now, IssuePairing(origin, secret))
    {
      hide Received; hide Decided; hide Called; hide Answered; hide Expired; hide Detach; hide T.Issued;
      hide Inv; hide HasKey; hide T.Inv; hide R.Inv; hide B.Inv;
      SecretIsNew(View(), config, secret);
      Tick(now, {secret});
      IssuePairingKeepsInv(View(), config, origin, secret);
      expiresAt := pairingTokens.Issue(origin, secret, now);
    }

    /** A tool call, a resource read or a prompt: resolving and invoking without a pause between. */
    method CallCapability(target: Target, id: Uuid, aborted: bool, sent: bool, now: nat) returns (r: Result<Uuid>)
      requires Valid() && Possible(View(), now, Call(target, id, aborted, sent))
      modifies this, broker, broker.recent
      ensures Valid() && View() == Step(old(View()), config, now, Call(target, id, aborted, sent))
      ensures r.Ok? <==>
        && Resolves(old(registry.View()), target)
        && B.Refusal(old(broker.View()), config.broker, Resolved(old(registry.View()), target), aborted).None?
      // In terms of the tables: one provider, room, and a caller that is still there; and then the call is
      // held for that provider, with the kind of what it registered.
      ensures r.Ok? <==> GO.MayCall(old(registry.View()), old(broker.View()), config.broker, target, aborted)
      ensures r.Ok? ==> GO.GoesToProvider(old(registry.View()), old(broker.View()), broker.View(), target, id, sent)
      ensures r.Err? ==> broker.View() == old(broker.View())
    {
      hide Received; hide Decided; hide Expired; hide Detach; hide T.Issued;
      hide Inv; hide R.Inv; hide B.Inv; hide Offers; hide IsOnly; hide B.Invoked; hide B.Refusal; hide T.Inv;
      hide Resolves; hide GO.MayCall; hide GO.GoesToProvider;
      GO.CallAnswers(View(), config, now, target, id, aborted, sent);
      IdsAreNew(View(), config, id);
      Tick(now, {id});
      CallKeepsInv(View(), config, target, id, aborted, sent);
      var found := registry.Resolve(target);
      if found.Err? {
        NotFoundMeans(registry.View(), target);
        return Err(found.error);
      }
      FoundMeans(registry.View(), config.registry, target, found.value);
      InvokeClock(broker.View(), config.broker, id, KindOf(target), found.value, aborted, sent);
      r := broker.Invoke(found.value, KindOf(target), aborted, id, sent);
    }

    /** A call's own timer. */
    method OnCallTimer(id: Uuid, sent: bool, now: nat)
      requires Valid() && clock <= now
      modifies this, broker, broker.recent
      ensures Valid() && View() == Step(old(View()), config, now, CallTimer(id, sent))
    {
      hide Received; hide Decided; hide Called; hide Expired; hide Detach; hide T.Issued;
      hide Inv; hide B.Inv; hide R.Inv; hide B.Interrupted; hide T.Inv;
      Tick(now, {});
      EndKeepsInv(View(), config, B.TimerFired(id, sent));
      AnswerClock(View(), config, B.TimerFired(id, sent));
      broker.FailAndNotify(id, TimedOut, now, sent);
    }

    /** The client that made the call goes away. */
    method OnAbort(id: Uuid, sent: bool, now: nat)
      requires Valid() && clock <= now
      modifies this, broker, broker.recent
      ensures Valid() && View() == Step(old(View()), config, now, CallAborted(id, sent))
    {
      hide Received; hide Decided; hide Called; hide Expired; hide Detach; hide T.Issued;
      hide Inv; hide B.Inv; hide R.Inv; hide B.Interrupted; hide T.Inv;
      Tick(now, {});
      EndKeepsInv(View(), config, B.SignalAborted(id, sent));
      AnswerClock(View(), config, B.SignalAborted(id, sent));
      broker.FailAndNotify(id, Cancelled, now, sent);
    }

    /** The broker fails every call, then every socket is closed; their close events come later. */
    method Close(now: nat)
      requires Valid() && clock <= now
      modifies this, broker, broker.recent
      ensures Valid() && View() == Step(old(View()), config, now, Stop)
    {
      hide Received; hide Decided; hide Called; hide Expired; hide Detach; hide T.Issued;
      hide Inv; hide B.Inv; hide R.Inv; hide B.Stopped; hide T.Inv; hide ShutAll;
      Tick(now, {});
      StopKeepsInv(View(), config);
      AnswerClock(View(), config, B.Stop);
      broker.Close();
      CloseAllSockets();
    }

    method CloseAllSockets()
      modifies this`sockets
      ensures sockets == ShutAll(old(sockets))
    {
      var todo := sockets.Keys;
      while todo != {}
        invariant todo <= old(sockets).Keys == sockets.Keys
        invariant forall c :: c in sockets ==>
          sockets[c] == if c in todo then old(sockets)[c] else old(sockets)[c].(open := false)
        decreases todo
      {
        var c :| c in todo;
        sockets := sockets[c := sockets[c].(open := false)];
        todo := todo - {c};
      }
    }
  }

  // ----- Small facts that the methods use -----

  lemma LostClock(b: B.State, c: Uuid)
    ensures B.Lost(b, c).clock == b.clock
  {
    hide FinishedAll; hide B.Counts;
  }

  lemma NotAdded(r: R.Registry, session: Session)
    requires R.Conflicts(r.sessions, session)
    ensures R.Added(r, session) == r
  {
  }

  lemma RevokedKeys(resume: seq<Entry<Grant>>, sessionId: Uuid, secret: Uuid)
    requires !HasKey(resume, secret)
    ensures !HasKey(T.Revoked(resume, ForSession(sessionId)), secret)
  {
    KeepMembers(resume, T.NotAccepted(ForSession(sessionId)));
    SubsetHasNoKey(resume, T.Revoked(resume, ForSession(sessionId)), secret);
  }

  lemma AnswerClock(b: Bridge, k: Config, e: B.Event)
    requires Inv(b, k) && EndsACall(e)
    ensures B.Step(b.broker, k.broker, b.clock, e).clock <= b.clock
  {
    hide R.Inv; hide B.Inv; hide SocketsInv; hide TokensInv; hide WorkIsLive; hide B.Step; hide NoNewWork;
    EndBringsNoWork(b.broker, k.broker, b.clock, e);
    ClockOf(b.broker, B.Step(b.broker, k.broker, b.clock, e), b.clock);
  }

  lemma ClockOf(before: B.State, after: B.State, now: nat)
    requires NoNewWork(before, after, now)
    ensures after.clock == before.clock || after.clock == now
  {
  }

  lemma InvokeClock(b: B.State, limits: B.Limits, id: Uuid, kind: Kind, provider: Capability, aborted: bool, sent: bool)
    ensures B.Invoked(b, limits, id, kind, provider, aborted, sent).clock == b.clock
  {
    InvokeWork(b, limits, id, kind, provider, aborted, sent);
  }

  lemma NotFoundMeans(r: R.Registry, target: Target)
    requires (forall c :: !Offers(r, target, c)) ||
      exists c, d :: c != d && Offers(r, target, c) && Offers(r, target, d)
    ensures !Resolves(r, target)
  {
    hide Offers; hide Resolves;
    if Resolves(r, target) {
      NotResolved(r, target);
    }
  }

  lemma FoundMeans(r: R.Registry, config: R.Config, target: Target, cap: Capability)
    requires R.Inv(r, config)
    requires exists p :: At(r, p) && CapabilityAt(r, p) == cap && Hits(target, cap)
                         && forall c :: Offers(r, target, c) <==> c == p.connectionId
    ensures Resolves(r, target) && Resolved(r, target) == cap
  {
    hide R.Inv; hide Offers; hide Resolves; hide Resolved;
    var p :| At(r, p) && CapabilityAt(r, p) == cap && Hits(target, cap)
             && forall c :: Offers(r, target, c) <==> c == p.connectionId;
    GO.OnlyOne(r, config, target, p);
  }
}
