/** The Bridge over whole runs: what is always true, and what can never happen again. */
module GatewayRuns {
  import opened Common
  import opened Capabilities
  import opened Sequences
  import opened Expiring
  import opened Resolution
  import opened GatewayModel
  import opened GatewayLaws
  import B = BrokerModel
  import BL = BrokerLaws
  import R = RegistryModel
  import RL = RegistryLaws
  import T = Tokens

  // ----- What is drawn is new -----

  ghost predicate NewDraw(b: Bridge, d: Draw) {
    && NoSession(b.registry.sessions, d.sessionId) && !HasKey(b.resume, d.secret)
      && UnusedRequest(b.sockets, d.requestId)
    && d.sessionId in b.used && d.secret in b.used && d.requestId in b.used
  }

  lemma DrawIsNew(b: Bridge, k: Config, now: nat, ids: set<Uuid>, d: Draw)
    requires Inv(b, k) && FreshDraw(b, d) && {d.sessionId, d.secret, d.requestId} <= ids
    ensures NewDraw(Ticked(b, now, ids), d)
  {
    hide R.Inv; hide B.Inv; hide T.Inv; hide GrantsFit; hide WorkIsLive; hide Approvals; hide DistinctSessions;
    hide BrokerInv;
    AbsentKey(b.resume, d.secret);
  }

  lemma SecretIsNew(b: Bridge, k: Config, secret: Uuid)
    requires Inv(b, k) && secret !in b.used
    ensures !HasKey(b.pairing, secret)
  {
    hide R.Inv; hide B.Inv; hide T.Inv; hide GrantsFit; hide DistinctSessions; hide BrokerInv; hide SocketsInv;
    AbsentKey(b.pairing, secret);
  }

  lemma IdsAreNew(b: Bridge, k: Config, id: Uuid)
    requires Inv(b, k) && id !in b.used
    ensures id !in b.sockets && id !in b.broker.verdicts
  {
    hide R.Inv; hide B.Inv; hide TokensInv; hide WorkIsLive; hide Approvals;
  }

  // ----- Resuming -----

  /** Any live session with the grant's id is the one that the grant was made for. */
  ghost predicate Matches(sessions: map<Uuid, Session>, g: Grant) {
    forall c :: c in sessions && sessions[c].sessionId == g.sessionId ==> GrantOf(sessions[c]) == g
  }

  lemma GrantedFacts(b: Bridge, k: Config, token: Uuid, g: Grant)
    requires Inv(b, k) && T.Grants(b.resume, b.clock, token, Exactly(g)).Some?
    ensures T.Grants(b.resume, b.clock, token, Exactly(g)) == Some(g)
    ensures Matches(b.registry.sessions, g) && g.sessionId in b.used
    ensures exists e :: e in b.resume && e.value == g && e.key == token && e.expiresAt > b.clock
  {
    hide R.Inv; hide BrokerInv; hide SocketsInv; hide T.Inv; hide DistinctSessions; hide Pairwise;
    var found := Lookup(b.resume, token);
    assert found.value in b.resume;
  }

  lemma NothingToRetire(b: Bridge, k: Config, c: Uuid, g: Grant)
    requires Inv(b, k) && c in b.sockets && b.sockets[c].session.None? && Matches(b.registry.sessions, g)
    ensures HasPrevious(b.sockets, c, g) || NoSession(b.registry.sessions, g.sessionId)
  {
    hide R.Inv; hide BrokerInv; hide TokensInv; hide Approvals; hide KnownSockets;
    if !NoSession(b.registry.sessions, g.sessionId) {
      var p :| p in b.registry.sessions && b.registry.sessions[p].sessionId == g.sessionId;
      assert p in SessionsOf(b.sockets);
      assert IsPrevious(b.sockets, c, g, p);
    }
  }

  lemma PreviousIsLive(b: Bridge, k: Config, c: Uuid, g: Grant, p: Uuid)
    requires Inv(b, k) && IsPrevious(b.sockets, c, g, p)
    ensures p in b.registry.sessions && GrantOf(b.registry.sessions[p]) == g
    ensures DistinctSessions(b.registry.sessions) && R.DistinctRuntimes(b.registry.sessions)
  {
    hide BrokerInv; hide R.Sound; hide Approvals; hide KnownSockets; hide T.Inv; hide GrantsFit;
    assert p in SessionsOf(b.sockets);
  }

  /** At most one connection can hold the session that a grant resumes. */
  lemma PreviousIsUnique(b: Bridge, k: Config, c: Uuid, g: Grant, p: Uuid, q: Uuid)
    requires Inv(b, k) && IsPrevious(b.sockets, c, g, p) && IsPrevious(b.sockets, c, g, q)
    ensures p == q
  {
    PreviousIsLive(b, k, c, g, p);
    PreviousIsLive(b, k, c, g, q);
  }

  lemma RetireFacts(b: Bridge, k: Config, c: Uuid, g: Grant)
    requires Inv(b, k) && c in b.sockets && b.sockets[c].session.None? && Matches(b.registry.sessions, g)
    ensures var after := Retired(b, c, g);
      && Inv(after, k) && NoSession(after.registry.sessions, g.sessionId)
      && c in after.sockets && after.sockets[c] == b.sockets[c] && after.resume == b.resume && after.used == b.used
      && after.clock == b.clock
  {
    hide Inv; hide B.Lost; hide R.Removed; hide Matches;
    NothingToRetire(b, k, c, g);
    if HasPrevious(b.sockets, c, g) {
      var p := Previous(b.sockets, c, g);
      PreviousIsLive(b, k, c, g, p);
      DetachKeepsInv(b, k, p);
      RemovedSessions(b.registry, p);
    }
  }

  lemma ConsumeKeepsInv(b: Bridge, k: Config, token: Uuid, accept: Grant -> bool)
    requires Inv(b, k)
    ensures Inv(b.(resume := T.AfterConsume(b.resume, b.clock, token, accept)), k)
    ensures forall e :: e in T.AfterConsume(b.resume, b.clock, token, accept) ==> e in b.resume
  {
    hide Inv;
    KeepMembers(b.resume, OtherKey<Grant>(token));
    FilterKeepsTokens(b, k, OtherKey<Grant>(token));
  }

  lemma ConsumePairingKeepsInv(b: Bridge, k: Config, token: Uuid, accept: string -> bool)
    requires Inv(b, k)
    ensures Inv(b.(pairing := T.AfterConsume(b.pairing, b.clock, token, accept)), k)
  {
    hide Inv;
    FilterKeepsPairing(b, k, OtherKey<string>(token));
  }

  lemma ResumeKeepsInv(b: Bridge, k: Config, c: Uuid, h: Hello, token: Uuid, sessionId: Uuid, draw: Draw)
    requires Inv(b, k) && c in b.sockets && b.sockets[c].session.None? && b.sockets[c].approval.None?
      && NewDraw(b, draw)
    ensures Inv(Resumed(b, k, c, h, token, sessionId, draw.secret), k)
  {
    hide Inv; hide T.Grants; hide T.AfterConsume; hide Retired; hide Established; hide HasKey; hide Matches;
    hide NoSession;
    var g := ResumeOf(b.sockets[c].origin, h, sessionId);
    var left := b.(resume := T.AfterConsume(b.resume, b.clock, token, Exactly(g)));
    ConsumeKeepsInv(b, k, token, Exactly(g));
    SubsetHasNoKey(b.resume, left.resume, draw.secret);
    if T.Grants(b.resume, b.clock, token, Exactly(g)).None? {
      ShutKeepsInv(left, k, c);
    } else {
      GrantedFacts(b, k, token, g);
      RetireFacts(left, k, c, g);
      EstablishKeepsInv(Retired(left, c, g), k, SessionFor(c, b.sockets[c].origin, h, sessionId), draw.secret);
    }
  }

  lemma PairKeepsInv(b: Bridge, k: Config, c: Uuid, h: Hello, token: Uuid, draw: Draw)
    requires Inv(b, k) && c in b.sockets && b.sockets[c].session.None? && b.sockets[c].approval.None?
      && NewDraw(b, draw)
    ensures Inv(Paired(b, k, c, h, token, draw), k)
  {
    hide Inv; hide T.Grants; hide T.AfterConsume; hide Established; hide HasKey; hide NoSession;
    var origin := b.sockets[c].origin;
    var left := b.(pairing := T.AfterConsume(b.pairing, b.clock, token, FromOrigin(origin)));
    ConsumePairingKeepsInv(b, k, token, FromOrigin(origin));
    if T.Grants(b.pairing, b.clock, token, FromOrigin(origin)).None? {
      ShutKeepsInv(left, k, c);
    } else {
      EstablishKeepsInv(left, k, SessionFor(c, origin, h, draw.sessionId), draw.secret);
    }
  }

  lemma ConnectKeepsInv(b: Bridge, k: Config, c: Uuid, h: Hello, draw: Draw)
    requires Inv(b, k) && c in b.sockets && b.sockets[c].session.None? && b.sockets[c].approval.None?
      && NewDraw(b, draw)
    ensures Inv(Connected(b, k, c, h, draw), k)
  {
    hide Inv; hide Welcome; hide Resumed; hide Paired; hide Asked;
    if !Welcome(b.sockets[c].origin, h) {
      ShutKeepsInv(b, k, c);
    } else {
      match h.auth
      case WithApproval =>
        AskKeepsInv(b, k, c, Approval(draw.requestId, h.appId, h.runtimeId, h.instanceId, b.clock + k.pairingTokenTtlMs));
      case WithResume(token, sessionId) => ResumeKeepsInv(b, k, c, h, token, sessionId, draw);
      case WithPairing(token) => PairKeepsInv(b, k, c, h, token, draw);
    }
  }

  lemma SessionKeepsInv(b: Bridge, k: Config, c: Uuid, session: Session, m: Message)
    requires Inv(b, k)
    ensures Inv(InSession(b, k, c, session, m), k)
  {
    hide Inv; hide Answered; hide R.Registered; hide R.Unregistered; hide Shut; hide R.Inv;
    RegistryIsSound(b, k);
    match m
    case Register(_, registration) =>
      RegistrationsKeepSessions(b.registry, k.registry, c, registration, "");
      RL.RegisterKeepsInv(b.registry, k.registry, c, registration);
      RegistryStepKeepsInv(b, k, R.Registered(b.registry, k.registry, c, registration));
    case Unregister(_, id) =>
      RegistrationsKeepSessions(b.registry, k.registry, c, Registration("", Tool, "", [], None), id);
      RL.UnregisterKeepsInv(b.registry, k.registry, c, id);
      RegistryStepKeepsInv(b, k, R.Unregistered(b.registry, c, id));
    case ResultOf(_, id, output) => EndKeepsInv(b, k, B.ResultMessage(c, id, output));
    case ErrorOf(_, invocation, code) =>
      if invocation.Some? {
        EndKeepsInv(b, k, B.ErrorMessage(c, invocation.value, code));
      }
    case CancelOf(_, id) => EndKeepsInv(b, k, B.CancelFromBrowser(c, id));
    case Disconnect(_, _) =>
      FilterKeepsTokens(b, k, T.NotAccepted(ForSession(session.sessionId)));
      ShutKeepsInv(b, k, c);
      ShutKeepsInv(b.(resume := T.Revoked(b.resume, ForSession(session.sessionId))), k, c);
    case _ =>
  }

  lemma RegistryIsSound(b: Bridge, k: Config)
    requires Inv(b, k)
    ensures R.Inv(b.registry, k.registry) && BrokerInv(b.broker, b.registry.sessions, b.used, b.clock, k)
  {
    hide R.Inv;
  }

  lemma ReceiveKeepsInv(b: Bridge, k: Config, c: Uuid, m: Message, draw: Draw)
    requires Inv(b, k) && NewDraw(b, draw)
    ensures Inv(Received(b, k, c, m, draw), k)
  {
    hide Inv; hide NewDraw; hide Connected; hide InSession; hide Shut;
    ShutKeepsInv(b, k, c);
    if c in b.sockets {
      match b.sockets[c].session
      case None =>
        if b.sockets[c].approval.None? && m.Connect? {
          ConnectKeepsInv(b, k, c, m.hello, draw);
        }
      case Some(session) => SessionKeepsInv(b, k, c, session, m);
    }
  }

  // ----- The operator and the clients -----

  /** A request id names one connection at most. */
  lemma ApplicantIsUnique(b: Bridge, k: Config, requestId: Uuid, c: Uuid, d: Uuid)
    requires Inv(b, k) && IsApplicant(b.sockets, requestId, c) && IsApplicant(b.sockets, requestId, d)
    ensures c == d
  {
    hide R.Inv; hide BrokerInv; hide TokensInv; hide KnownSockets;
  }

  lemma WithdrawnFacts(b: Bridge, k: Config, c: Uuid)
    requires Inv(b, k) && c in b.sockets && b.sockets[c].approval.Some?
    ensures b.sockets[c].session.None?
    ensures Inv(Withdrawn(b, c), k) && Withdrawn(b, c).sockets[c] == b.sockets[c].(approval := None)
  {
    hide R.Inv; hide BrokerInv; hide TokensInv; hide KnownSockets;
    assert c in Awaiting(b.sockets);
    WithdrawKeepsInv(b, k, c);
  }

  lemma DecideKeepsInv(b: Bridge, k: Config, requestId: Uuid, approve: bool, draw: Draw)
    requires Inv(b, k) && NewDraw(b, draw)
    ensures Inv(Decided(b, k, requestId, approve, draw), k)
  {
    hide Inv; hide Established; hide HasKey; hide NoSession; hide Expired; hide UnusedRequest; hide Shut;
    if HasApplicant(b.sockets, requestId) {
      var c := Applicant(b.sockets, requestId);
      var s := b.sockets[c];
      ExpireKeepsInv(b, k, c);
      WithdrawnFacts(b, k, c);
      ShutKeepsInv(Withdrawn(b, c), k, c);
      EstablishKeepsInv(Withdrawn(b, c), k, SessionAsked(c, s.origin, s.approval.value, draw.sessionId), draw.secret);
    }
  }

  /** What a target resolves to belongs to a live session. */
  lemma ResolvedIsLive(r: R.Registry, config: R.Config, target: Target)
    requires R.Inv(r, config) && Resolves(r, target)
    ensures Resolved(r, target).session.connectionId in r.sessions
    ensures Resolved(r, target).session == r.sessions[Resolved(r, target).session.connectionId]
    ensures Hits(target, Resolved(r, target))
  {
    hide R.Exposed;
    var p :| IsOnly(r, target, p) && Resolved(r, target) == CapabilityAt(r, p);
    assert R.Sound(r.sessions[p.connectionId], r.registrations[p.connectionId], r.bytes[p.connectionId], config);
    ExposedSession(config, r.sessions[p.connectionId], CapabilityAt(r, p).registration);
  }

  lemma ExposedSession(config: R.Config, session: Session, registration: Registration)
    ensures R.Exposed(config, session, registration).session == session
  {
  }

  lemma CallKeepsInv(b: Bridge, k: Config, target: Target, id: Uuid, aborted: bool, sent: bool)
    requires Inv(b, k) && id in b.used && id !in b.broker.verdicts
    ensures Inv(Called(b, k, target, id, aborted, sent), k)
  {
    hide R.Inv; hide SocketsInv; hide BrokerInv; hide TokensInv; hide Resolves; hide Resolved; hide B.Invoked;
    if Resolves(b.registry, target) {
      ResolvedIsLive(b.registry, k.registry, target);
      InvokeKeepsInv(b.broker, b.registry.sessions, b.used, b.clock, k, id, KindOf(target), Resolved(b.registry, target),
                     aborted, sent);
    }
  }

  lemma UpgradeKeepsInv(b: Bridge, k: Config, c: Uuid, origin: string)
    requires Inv(b, k) && c !in b.sockets && c in b.used && |b.sockets| < k.maxBrowserConnections
    ensures Inv(b.(sockets := b.sockets[c := Socket(origin, true, None, None)]), k)
  {
    hide R.Inv; hide SocketsInv; hide BrokerInv; hide TokensInv;
    UpgradeKeepsSockets(b.sockets, c, origin, b.registry.sessions, b.used, k);
  }

  lemma StopKeepsInv(b: Bridge, k: Config)
    requires Inv(b, k)
    ensures Inv(Answered(b, k, B.Stop).(sockets := ShutAll(b.sockets)), k)
  {
    hide R.Inv; hide SocketsInv; hide BrokerInv; hide TokensInv; hide B.Step;
    EndKeepsInv(b, k, B.Stop);
    ShapeKeepsSockets(b.sockets, ShutAll(b.sockets), b.registry.sessions, b.used, k);
  }

  // ----- Every step -----

  lemma StepKeepsInv(b: Bridge, k: Config, now: nat, a: Action)
    requires Inv(b, k) && Possible(b, now, a)
    ensures Inv(Step(b, k, now, a), k)
  {
    hide Inv; hide Received; hide Decided; hide Called; hide Answered; hide Expired; hide Detach; hide NewDraw;
    hide T.Issued;
    hide HasKey;
    var at := Ticked(b, now, Drawn(a));
    TickKeepsInv(b, k, now, Drawn(a));
    match a
    case Upgrade(c, origin) =>
      IdsAreNew(b, k, c);
      if |b.sockets| < k.maxBrowserConnections {
        UpgradeKeepsInv(at, k, c, origin);
      }
    case Receive(c, m, draw) =>
      DrawIsNew(b, k, now, Drawn(a), draw);
      ReceiveKeepsInv(at, k, c, m, draw);
    case SocketClosed(c) => DetachKeepsInv(at, k, c);
    case SocketFails(c) => ShutKeepsInv(at, k, c);
    case ApprovalTimer(c) => ExpireKeepsInv(at, k, c);
    case Decide(requestId, approve, draw) =>
      DrawIsNew(b, k, now, Drawn(a), draw);
      DecideKeepsInv(at, k, requestId, approve, draw);
    case IssuePairing(origin, secret) =>
      SecretIsNew(b, k, secret);
      IssuePairingKeepsInv(at, k, origin, secret);
    case Call(target, id, aborted, sent) =>
      IdsAreNew(b, k, id);
      CallKeepsInv(at, k, target, id, aborted, sent);
    case CallTimer(id, sent) => EndKeepsInv(at, k, B.TimerFired(id, sent));
    case CallAborted(id, sent) => EndKeepsInv(at, k, B.SignalAborted(id, sent));
    case Stop => StopKeepsInv(at, k);
  }

  datatype Timed = Timed(now: nat, action: Action)

  ghost function After(b: Bridge, k: Config, run: seq<Timed>): Bridge
    decreases |run|
  {
    if run == [] then b else After(Step(b, k, run[0].now, run[0].action), k, run[1..])
  }

  ghost predicate PossibleRun(b: Bridge, k: Config, run: seq<Timed>)
    decreases |run|
  {
    run != [] ==>
      && Possible(b, run[0].now, run[0].action)
      && PossibleRun(Step(b, k, run[0].now, run[0].action), k, run[1..])
  }

  lemma {:induction false} RunKeepsInv(b: Bridge, k: Config, run: seq<Timed>)
    requires Inv(b, k) && PossibleRun(b, k, run)
    ensures Inv(After(b, k, run), k)
    decreases |run|
  {
    hide Inv; hide Step; hide Possible;
    if run != [] {
      StepKeepsInv(b, k, run[0].now, run[0].action);
      RunKeepsInv(Step(b, k, run[0].now, run[0].action), k, run[1..]);
    }
  }

  lemma StartedInv(k: Config)
    ensures Inv(STARTED, k)
  {
    hide R.Inv; hide B.Inv;
    BL.InitialInv(k.broker);
    RL.EmptyInv(k.registry);
    assert Awaiting(map[]) == {};
    forall origin ensures AwaitingAt(map[], origin) == {} {
    }
    assert SessionsOf(map[]) == map[];
  }

  /** From its start, whatever browsers, clients, timers and the operator do, the Bridge's three
      components agree, its tokens fit its sessions and all its bounds hold. */
  lemma EveryReachableStateIsSound(k: Config, run: seq<Timed>)
    requires PossibleRun(STARTED, k, run)
    ensures Inv(After(STARTED, k, run), k)
  {
    hide Inv;
    StartedInv(k);
    RunKeepsInv(STARTED, k, run);
  }
}
