/** One connection at a time: how its handshake ends, what its socket can still become, and what its
    messages can reach. */
module GatewayConnections {
  import opened Common
  import opened Capabilities
  import opened Sequences
  import opened Expiring
  import opened RecentRequests
  import opened GatewayModel
  import opened GatewayLaws
  import opened GatewayRuns
  import opened GatewayTheorems
  import opened GatewayTokens
  import B = BrokerModel
  import R = RegistryModel
  import T = Tokens

  // ----- The handshake -----

  /** A live session already runs this application instance. */
  ghost predicate Running(sessions: map<Uuid, Session>, origin: string, h: Hello) {
    exists d ::
      d in sessions && sessions[d].origin == origin && sessions[d].appId == h.appId && sessions[d].instanceId == h.instanceId
  }

  /** The credentials in a `connect` message are good for a session: an unexpired grant for exactly this
      session, origin, application, runtime and instance, or an unexpired pairing token for this origin;
      and no other live session in the way. */
  ghost predicate Credentialed(b: Bridge, origin: string, h: Hello) {
    match h.auth
    case WithApproval => false
    case WithResume(token, sessionId) =>
      var g := Grant(sessionId, origin, h.appId, h.runtimeId, h.instanceId);
      && (exists e :: e in b.resume && e.key == token && e.expiresAt > b.clock && e.value == g)
      && !OccupiedByAnother(b.registry.sessions, g)
    case WithPairing(token) =>
      && (exists e :: e in b.pairing && e.key == token && e.expiresAt > b.clock && e.value == origin)
      && !Running(b.registry.sessions, origin, h)
  }

  lemma GoodGrant(b: Bridge, k: Config, token: Uuid, g: Grant)
    requires Inv(b, k)
    ensures T.Grants(b.resume, b.clock, token, Exactly(g)).Some? <==>
      exists e :: e in b.resume && e.key == token && e.expiresAt > b.clock && e.value == g
  {
    hide Inv; hide T.Grants; hide T.AfterConsume; hide InOrder;
    TokensInOrder(b, k);
    T.ConsumeMeans(b.resume, b.clock, token, Exactly(g));
  }

  lemma GoodToken(b: Bridge, k: Config, token: Uuid, origin: string)
    requires Inv(b, k)
    ensures T.Grants(b.pairing, b.clock, token, FromOrigin(origin)).Some? <==>
      exists e :: e in b.pairing && e.key == token && e.expiresAt > b.clock && e.value == origin
  {
    hide Inv; hide T.Grants; hide T.AfterConsume; hide InOrder;
    TokensInOrder(b, k);
    T.ConsumeMeans(b.pairing, b.clock, token, FromOrigin(origin));
  }

  lemma PairSucceedsExactlyWhen(b: Bridge, k: Config, c: Uuid, h: Hello, token: Uuid, draw: Draw)
    requires Inv(b, k) && c in b.sockets && b.sockets[c].session.None?
    ensures var origin := b.sockets[c].origin;
      c in Paired(b, k, c, h, token, draw).registry.sessions <==>
        T.Grants(b.pairing, b.clock, token, FromOrigin(origin)).Some? && !Running(b.registry.sessions, origin, h)
  {
    hide Inv; hide T.Grants; hide T.AfterConsume; hide R.Added; hide T.Issued; hide T.Revoked; hide R.Conflicts;
    hide Running;
    var origin := b.sockets[c].origin;
    var session := SessionFor(c, origin, h, draw.sessionId);
    SessionsAreSockets(b, k, c);
    RunningMeans(b.registry.sessions, session, origin, h);
    if !R.Conflicts(b.registry.sessions, session) {
      AddedSessions(b.registry, session);
    }
  }

  lemma RunningMeans(sessions: map<Uuid, Session>, session: Session, origin: string, h: Hello)
    requires session.origin == origin && session.appId == h.appId && session.instanceId == h.instanceId
    ensures R.Conflicts(sessions, session) <==> Running(sessions, origin, h)
  {
    if R.Conflicts(sessions, session) {
      var d :| d in sessions && R.SameRuntime(sessions[d], session);
      assert sessions[d].origin == origin;
    }
    if Running(sessions, origin, h) {
      var d :|
        d in sessions && sessions[d].origin == origin && sessions[d].appId == h.appId && sessions[d].instanceId == h.instanceId;
      assert R.SameRuntime(sessions[d], session);
    }
  }

  /** The socket of `c` is still there, and the connection is not left in between. */
  ghost predicate Settled(after: Bridge, c: Uuid) {
    && c in after.sockets
    && (after.sockets[c].session.Some? || after.sockets[c].approval.Some? || !after.sockets[c].open)
  }

  /** The connection has the session that its `connect` message asked for, the resumed one or a new one,
      and the only way to resume it. */
  ghost predicate Begins(after: Bridge, k: Config, c: Uuid, origin: string, h: Hello, draw: Draw) {
    var sid := if h.auth.WithResume? then h.auth.sessionId else draw.sessionId;
    && c in after.registry.sessions
    && after.registry.sessions[c] == Session(c, sid, origin, h.appId, h.runtimeId, h.instanceId)
    && Entry(draw.secret, after.clock + k.resumeTokenTtlMs, Grant(sid, origin, h.appId, h.runtimeId, h.instanceId))
       in after.resume
    && forall e :: e in after.resume && e.value.sessionId == sid ==> e.key == draw.secret
  }

  /** A connection that has no session never stays in between: a message either gives it a session,
      or puts its request before the operator, or shuts it; and it gets the session exactly if its
      `connect` message is welcome and its credentials are good. */
  lemma HandshakeOutcome(b: Bridge, k: Config, c: Uuid, m: Message, draw: Draw)
    requires Inv(b, k) && NewDraw(b, draw) && c in b.sockets && b.sockets[c].session.None? && b.sockets[c].approval.None?
    ensures var after := Received(b, k, c, m, draw);
      && (c in after.registry.sessions <==>
            m.Connect? && Welcome(b.sockets[c].origin, m.hello) && Credentialed(b, b.sockets[c].origin, m.hello))
      && Settled(after, c)
      && (c in after.registry.sessions ==> Begins(after, k, c, b.sockets[c].origin, m.hello, draw))
  {
    hide Inv; hide NewDraw; hide Connected; hide Welcome; hide Credentialed; hide Begins;
    SessionsAreSockets(b, k, c);
    if m.Connect? {
      ConnectOutcome(b, k, c, m.hello, draw);
    }
  }

  lemma ConnectOutcome(b: Bridge, k: Config, c: Uuid, h: Hello, draw: Draw)
    requires Inv(b, k) && NewDraw(b, draw) && c in b.sockets && b.sockets[c].session.None?
      && b.sockets[c].approval.None?
    ensures var after := Connected(b, k, c, h, draw);
      && (c in after.registry.sessions <==> Welcome(b.sockets[c].origin, h) && Credentialed(b, b.sockets[c].origin, h))
      && Settled(after, c)
      && (c in after.registry.sessions ==> Begins(after, k, c, b.sockets[c].origin, h, draw))
  {
    hide Begins;
    hide Inv; hide Welcome; hide Resumed; hide Paired; hide MayAsk; hide T.Grants; hide OccupiedByAnother; hide Running;
    hide HasKey; hide NoSession; hide UnusedRequest;
    SessionsAreSockets(b, k, c);
    if Welcome(b.sockets[c].origin, h) {
      match h.auth
      case WithApproval =>
      case WithResume(token, sessionId) =>
        ResumeSucceedsExactlyWhen(b, k, c, h, token, sessionId, draw);
        GoodGrant(b, k, token, ResumeOf(b.sockets[c].origin, h, sessionId));
        ResumeBegins(b, k, c, h, token, sessionId, draw);
        ResumeSettles(b, k, c, h, token, sessionId, draw.secret);
      case WithPairing(token) =>
        PairSucceedsExactlyWhen(b, k, c, h, token, draw);
        GoodToken(b, k, token, b.sockets[c].origin);
        PairBegins(b, k, c, h, token, draw);
        PairSettles(b, k, c, h, token, draw);
    }
  }

  lemma EstablishBegins(b: Bridge, k: Config, c: Uuid, h: Hello, sid: Uuid, draw: Draw)
    requires Inv(b, k) && c in b.sockets && b.sockets[c].session.None? && !HasKey(b.resume, draw.secret)
    requires sid == if h.auth.WithResume? then h.auth.sessionId else draw.sessionId
    ensures var after := Established(b, k, SessionFor(c, b.sockets[c].origin, h, sid), draw.secret);
      c in after.registry.sessions ==> Begins(after, k, c, b.sockets[c].origin, h, draw)
  {
    hide Inv; hide R.Conflicts; hide R.Added; hide T.Issued; hide T.Revoked; hide HasKey; hide Pairwise;
    var session := SessionFor(c, b.sockets[c].origin, h, sid);
    SessionsAreSockets(b, k, c);
    if !R.Conflicts(b.registry.sessions, session) {
      AddedSessions(b.registry, session);
      TokensAreSound(b, k);
      RegrantedMembers(b.resume, k, b.clock, session, draw.secret);
      IssuedIsLast(b.resume, k, b.clock, session, draw.secret);
    }
  }

  lemma ResumeBegins(b: Bridge, k: Config, c: Uuid, h: Hello, token: Uuid, sessionId: Uuid, draw: Draw)
    requires Inv(b, k) && c in b.sockets && b.sockets[c].session.None? && b.sockets[c].approval.None? && NewDraw(b, draw)
    requires h.auth.WithResume? && h.auth.sessionId == sessionId
    ensures var after := Resumed(b, k, c, h, token, sessionId, draw.secret);
      c in after.registry.sessions ==> Begins(after, k, c, b.sockets[c].origin, h, draw)
  {
    hide Inv; hide T.Grants; hide T.AfterConsume; hide Established; hide Retired; hide HasKey; hide Matches; hide NoSession;
    hide UnusedRequest; hide Begins;
    var g := ResumeOf(b.sockets[c].origin, h, sessionId);
    var left := b.(resume := T.AfterConsume(b.resume, b.clock, token, Exactly(g)));
    SessionsAreSockets(b, k, c);
    ConsumeKeepsInv(b, k, token, Exactly(g));
    SubsetHasNoKey(b.resume, left.resume, draw.secret);
    if T.Grants(b.resume, b.clock, token, Exactly(g)).Some? {
      GrantedFacts(b, k, token, g);
      RetireFacts(left, k, c, g);
      EstablishBegins(Retired(left, c, g), k, c, h, sessionId, draw);
    }
  }

  lemma PairBegins(b: Bridge, k: Config, c: Uuid, h: Hello, token: Uuid, draw: Draw)
    requires Inv(b, k) && c in b.sockets && b.sockets[c].session.None? && NewDraw(b, draw) && !h.auth.WithResume?
    ensures var after := Paired(b, k, c, h, token, draw);
      c in after.registry.sessions ==> Begins(after, k, c, b.sockets[c].origin, h, draw)
  {
    hide Inv; hide T.Grants; hide T.AfterConsume; hide Established; hide HasKey; hide NoSession; hide UnusedRequest;
    hide Begins;
    var origin := b.sockets[c].origin;
    var left := b.(pairing := T.AfterConsume(b.pairing, b.clock, token, FromOrigin(origin)));
    SessionsAreSockets(b, k, c);
    ConsumePairingKeepsInv(b, k, token, FromOrigin(origin));
    EstablishBegins(left, k, c, h, draw.sessionId, draw);
  }

  lemma EstablishSettles(b: Bridge, k: Config, session: Session, secret: Uuid)
    requires session.connectionId in b.sockets
    ensures Settled(Established(b, k, session, secret), session.connectionId)
  {
    hide R.Conflicts; hide R.Added; hide T.Issued; hide T.Revoked;
  }

  lemma ResumeSettles(b: Bridge, k: Config, c: Uuid, h: Hello, token: Uuid, sessionId: Uuid, secret: Uuid)
    requires Inv(b, k) && c in b.sockets && b.sockets[c].session.None?
    ensures Settled(Resumed(b, k, c, h, token, sessionId, secret), c)
  {
    hide Inv; hide T.Grants; hide T.AfterConsume; hide Matches; hide Retired; hide Established; hide NoSession;
    var g := ResumeOf(b.sockets[c].origin, h, sessionId);
    var left := b.(resume := T.AfterConsume(b.resume, b.clock, token, Exactly(g)));
    ConsumeKeepsInv(b, k, token, Exactly(g));
    if T.Grants(b.resume, b.clock, token, Exactly(g)).Some? {
      GrantedFacts(b, k, token, g);
      RetireFacts(left, k, c, g);
      EstablishSettles(Retired(left, c, g), k, SessionFor(c, b.sockets[c].origin, h, sessionId), secret);
    }
  }

  lemma PairSettles(b: Bridge, k: Config, c: Uuid, h: Hello, token: Uuid, draw: Draw)
    requires c in b.sockets
    ensures Settled(Paired(b, k, c, h, token, draw), c)
  {
    hide T.Grants; hide T.AfterConsume; hide Established;
    var origin := b.sockets[c].origin;
    var left := b.(pairing := T.AfterConsume(b.pairing, b.clock, token, FromOrigin(origin)));
    EstablishSettles(left, k, SessionFor(c, origin, h, draw.sessionId), draw.secret);
  }

  /** An approval that is decided or has expired is no longer pending, and without the operator's
      consent its connection is shut. */
  lemma ApprovalOutcome(b: Bridge, k: Config, c: Uuid, approve: bool, draw: Draw)
    requires Inv(b, k) && NewDraw(b, draw) && c in b.sockets && b.sockets[c].approval.Some?
    ensures var after := Decided(b, k, b.sockets[c].approval.value.requestId, approve, draw);
      && c in after.sockets && after.sockets[c].approval.None?
      && (after.sockets[c].session.Some? <==>
            && approve && b.sockets[c].open && b.sockets[c].approval.value.expiresAt > b.clock
            && !Occupied(b.registry.sessions, b.sockets[c].origin, b.sockets[c].approval.value))
      && (after.sockets[c].session.Some? ==>
            after.sockets[c].session.value == Session(c, draw.sessionId, b.sockets[c].origin, b.sockets[c].approval.value.appId,
              b.sockets[c].approval.value.runtimeId, b.sockets[c].approval.value.instanceId))
      && (after.sockets[c].session.None? ==> !after.sockets[c].open)
    ensures Expired(b, c).sockets[c].approval.None? && !Expired(b, c).sockets[c].open
  {
    hide Inv; hide R.Conflicts; hide R.Added; hide T.Issued; hide T.Revoked; hide HasKey; hide NoSession;
    hide UnusedRequest;
    var requestId := b.sockets[c].approval.value.requestId;
    assert IsApplicant(b.sockets, requestId, c);
    ApplicantIsUnique(b, k, requestId, c, Applicant(b.sockets, requestId));
    WithdrawnFacts(b, k, c);
    OccupiedMeans(b.registry.sessions, SessionAsked(c, b.sockets[c].origin, b.sockets[c].approval.value, draw.sessionId),
                  b.sockets[c].approval.value);
  }

  /** A live session already runs the application instance that asks. */
  ghost predicate Occupied(sessions: map<Uuid, Session>, origin: string, a: Approval) {
    exists d ::
      d in sessions && sessions[d].origin == origin && sessions[d].appId == a.appId && sessions[d].instanceId == a.instanceId
  }

  lemma OccupiedMeans(sessions: map<Uuid, Session>, session: Session, a: Approval)
    requires session.appId == a.appId && session.instanceId == a.instanceId
    ensures R.Conflicts(sessions, session) <==> Occupied(sessions, session.origin, a)
  {
    if R.Conflicts(sessions, session) {
      var d :| d in sessions && R.SameRuntime(sessions[d], session);
      assert sessions[d].origin == session.origin;
    }
    if Occupied(sessions, session.origin, a) {
      var d :| d in sessions && sessions[d].origin == session.origin && sessions[d].appId == a.appId
               && sessions[d].instanceId == a.instanceId;
      assert R.SameRuntime(sessions[d], session);
    }
  }

  // ----- Round trips -----

  /** A grant that is in the store and has not expired can be used. */
  lemma HeldGrantIsGood(b: Bridge, k: Config, e: Entry<Grant>)
    requires Inv(b, k) && e in b.resume && e.expiresAt > b.clock
    ensures T.Grants(b.resume, b.clock, e.key, Exactly(e.value)) == Some(e.value)
  {
    hide Inv; hide Pairwise;
    TokensAreSound(b, k);
    LookupUnique(b.resume, e);
  }

  lemma HeldTokenIsGood(b: Bridge, k: Config, e: Entry<string>)
    requires Inv(b, k) && e in b.pairing && e.expiresAt > b.clock
    ensures T.Grants(b.pairing, b.clock, e.key, FromOrigin(e.value)) == Some(e.value)
  {
    hide Inv; hide Pairwise;
    PairingIsSound(b, k);
    LookupUnique(b.pairing, e);
  }

  lemma PairingIsSound(b: Bridge, k: Config)
    requires Inv(b, k)
    ensures InOrder(b.pairing)
  {
    hide R.Inv; hide BrokerInv; hide SocketsInv; hide DistinctSessions; hide GrantsFit; hide Pairwise;
  }

  /** A new connection from the session's origin, some time later. */
  ghost function Reconnected(b: Bridge, now: nat, c: Uuid, origin: string): Bridge {
    var at := Ticked(b, now, {c});
    at.(sockets := at.sockets[c := Socket(origin, true, None, None)])
  }

  lemma ReconnectKeepsInv(b: Bridge, k: Config, now: nat, c: Uuid, origin: string)
    requires Inv(b, k) && b.clock <= now && c !in b.used && |b.sockets| < k.maxBrowserConnections
    ensures Inv(Reconnected(b, now, c, origin), k)
  {
    hide Inv;
    TickKeepsInv(b, k, now, {c});
    IdsAreNew(b, k, c);
    UpgradeKeepsInv(Ticked(b, now, {c}), k, c, origin);
  }

  lemma UpgradeStep(b: Bridge, k: Config, now: nat, c: Uuid, origin: string)
    requires |b.sockets| < k.maxBrowserConnections
    ensures Step(b, k, now, Upgrade(c, origin)) == Reconnected(b, now, c, origin)
  {
  }

  function Ids(draw: Draw): set<Uuid> {
    {draw.sessionId, draw.secret, draw.requestId}
  }

  lemma ReceiveStep(b: Bridge, k: Config, now: nat, c: Uuid, m: Message, draw: Draw)
    ensures Step(b, k, now, Receive(c, m, draw)) == Received(Ticked(b, now, Ids(draw)), k, c, m, draw)
  {
    hide Received;
  }

  lemma ConnectStep(b: Bridge, k: Config, c: Uuid, h: Hello, draw: Draw)
    requires c in b.sockets && b.sockets[c].session.None? && b.sockets[c].approval.None?
      && Welcome(b.sockets[c].origin, h)
    ensures Received(b, k, c, Connect(h), draw) == Connected(b, k, c, h, draw)
    ensures h.auth.WithResume? ==>
      Connected(b, k, c, h, draw) == Resumed(b, k, c, h, h.auth.token, h.auth.sessionId, draw.secret)
    ensures h.auth.WithPairing? ==> Connected(b, k, c, h, draw) == Paired(b, k, c, h, h.auth.token, draw)
  {
    hide Welcome; hide Resumed; hide Paired; hide Asked;
  }

  /** The Bridge once a session has begun, and perhaps lost its connection again. */
  ghost function Begun(b: Bridge, k: Config, session: Session, secret: Uuid, gone: bool): Bridge {
    var began := Established(b, k, session, secret);
    if gone then Detach(began, session.connectionId) else began
  }

  lemma BegunFacts(b: Bridge, k: Config, session: Session, secret: Uuid, gone: bool)
    requires Inv(b, k) && MayBegin(b, session, secret) && !R.Conflicts(b.registry.sessions, session)
    ensures var left := Begun(b, k, session, secret, gone);
      && Inv(left, k) && left.clock == b.clock && left.used == b.used && left.sockets.Keys <= b.sockets.Keys
      && |left.sockets| <= |b.sockets|
      && Entry(secret, b.clock + k.resumeTokenTtlMs, GrantOf(session)) in left.resume
      && !OccupiedByAnother(left.registry.sessions, GrantOf(session))
      && (session.connectionId in left.sockets ==>
            left.sockets[session.connectionId].session.Some?
            && left.sockets[session.connectionId].session.value.sessionId == session.sessionId)
  {
    hide Inv; hide Established; hide B.Lost; hide R.Removed; hide GrantOf; hide OccupiedByAnother;
    hide R.Conflicts; hide HasKey;
    var began := Established(b, k, session, secret);
    BeganFacts(b, k, session, secret);
    DetachKeepsInv(began, k, session.connectionId);
    RemovedSessions(began.registry, session.connectionId);
    SizesAfter(began.sockets, session.connectionId, Socket("", false, None, None));
    SessionsAreSockets(began, k, session.connectionId);
  }

  /** What a browser was given in its welcome gets it its session back. Whatever happens in between, such
      as attempts of others to use the token, the loss of the connection, or a disconnect that means to
      resume: on a new connection, before the grant expires, the same session goes on, exactly if no
      other session of the same runtime has begun; and none has as long as the old connection is held. */
  lemma ResumeRoundTrip(b: Bridge, k: Config, session: Session, secret: Uuid, gone: bool, run: seq<Timed>, t: nat,
                        now: nat, c: Uuid, h: Hello, draw: Draw)
    requires Inv(b, k) && MayBegin(b, session, secret) && !R.Conflicts(b.registry.sessions, session)
    requires var left := Begun(b, k, session, secret, gone);
      && PossibleRun(left, k, run)
      && GrantSparing(left, k, run, Entry(secret, b.clock + k.resumeTokenTtlMs, GrantOf(session)))
      && var before := After(left, k, run);
         && before.clock <= t <= now < b.clock + k.resumeTokenTtlMs && |before.sockets| < k.maxBrowserConnections
         && c !in before.used && FreshDraw(before, draw) && c !in Ids(draw)
    requires h.appId == session.appId && h.runtimeId == session.runtimeId && h.instanceId == session.instanceId
    requires h.auth == WithResume(secret, session.sessionId) && Welcome(session.origin, h)
    ensures var before := After(Begun(b, k, session, secret, gone), k, run);
      var again := Step(before, k, t, Upgrade(c, session.origin));
      var after := Step(again, k, now, Receive(c, Connect(h), draw));
      && (c in after.registry.sessions <==> !OccupiedByAnother(before.registry.sessions, GrantOf(session)))
      && (run == [] || session.connectionId in before.registry.sessions ==> c in after.registry.sessions)
      && (c in after.registry.sessions ==>
            && after.registry.sessions[c] == session.(connectionId := c)
            && session.connectionId !in after.registry.sessions)
  {
    hide Inv; hide R.Conflicts; hide Begun; hide Step; hide OccupiedByAnother; hide PossibleRun; hide GrantSparing;
    hide After; hide Welcome; hide HasKey; hide NoSession; hide GrantOf;
    var left := Begun(b, k, session, secret, gone);
    var e := Entry(secret, b.clock + k.resumeTokenTtlMs, GrantOf(session));
    BegunFacts(b, k, session, secret, gone);
    GrantSurvives(left, k, run, e);
    RunKeepsInv(left, k, run);
    RunUses(left, k, run);
    KnownConnection(b, k, session, secret);
    SocketLife(left, k, run, session.connectionId);
    var before := After(left, k, run);
    HeldGrantResumes(before, k, e, session, t, now, c, h, draw);
    if run == [] {
      NoRun(left, k);
    }
    if session.connectionId in before.registry.sessions {
      SessionsAreSockets(before, k, session.connectionId);
      GrantHasId(session);
      HolderMatches(before, k, e, session.connectionId);
      RuntimesDiffer(before, k);
      NobodyElse(before.registry.sessions, GrantOf(session), session.connectionId);
    }
  }

  lemma GrantHasId(session: Session)
    ensures GrantOf(session).sessionId == session.sessionId
  {
  }

  lemma NoRun(b: Bridge, k: Config)
    ensures After(b, k, []) == b
  {
  }

  lemma KnownConnection(b: Bridge, k: Config, session: Session, secret: Uuid)
    requires Inv(b, k) && MayBegin(b, session, secret)
    ensures session.connectionId in b.used && session.connectionId in b.sockets
  {
    hide R.Inv; hide BrokerInv; hide TokensInv; hide Approvals; hide OriginsAgree;
  }

  /** A live session with the id of a grant is the one that the grant was made for. */
  lemma HolderMatches(b: Bridge, k: Config, e: Entry<Grant>, p: Uuid)
    requires Inv(b, k) && e in b.resume && p in b.registry.sessions && b.registry.sessions[p].sessionId == e.value.sessionId
    ensures GrantOf(b.registry.sessions[p]) == e.value
  {
    hide Inv;
    SoundStatesAgree(b, k);
  }

  /** From any state that holds the grant. */
  lemma HeldGrantResumes(b: Bridge, k: Config, e: Entry<Grant>, session: Session, t: nat, now: nat, c: Uuid, h: Hello,
                         draw: Draw)
    requires Inv(b, k) && e in b.resume && e.value == GrantOf(session)
    requires b.clock <= t <= now < e.expiresAt && |b.sockets| < k.maxBrowserConnections
    requires session.connectionId in b.used
    requires session.connectionId in b.sockets ==>
      b.sockets[session.connectionId].session.Some?
      && b.sockets[session.connectionId].session.value.sessionId == session.sessionId
    requires h.appId == session.appId && h.runtimeId == session.runtimeId && h.instanceId == session.instanceId
    requires h.auth == WithResume(e.key, session.sessionId) && Welcome(session.origin, h)
    requires c !in b.used && FreshDraw(b, draw) && c !in Ids(draw)
    ensures var again := Step(b, k, t, Upgrade(c, session.origin));
      var after := Step(again, k, now, Receive(c, Connect(h), draw));
      && (c in after.registry.sessions <==> !OccupiedByAnother(b.registry.sessions, GrantOf(session)))
      && (c in after.registry.sessions ==>
            && after.registry.sessions[c] == session.(connectionId := c)
            && session.connectionId !in after.registry.sessions)
  {
    hide Inv; hide Resumed; hide Paired; hide Asked; hide Welcome; hide HasKey; hide NoSession; hide Step;
    hide UnusedRequest; hide T.Grants; hide OccupiedByAnother; hide GrantOf; hide Connected; hide Received;
    UpgradeStep(b, k, t, c, session.origin);
    ReconnectKeepsInv(b, k, t, c, session.origin);
    var again := Reconnected(b, t, c, session.origin);
    DrawIsNew(again, k, now, Ids(draw), draw);
    TickKeepsInv(again, k, now, Ids(draw));
    ReceiveStep(again, k, now, c, Connect(h), draw);
    var at := Ticked(again, now, Ids(draw));
    ConnectStep(at, k, c, h, draw);
    GrantIsResume(session, h);
    HeldGrantIsGood(at, k, e);
    ResumeSucceedsExactlyWhen(at, k, c, h, e.key, session.sessionId, draw);
    if c in Resumed(at, k, c, h, e.key, session.sessionId, draw.secret).registry.sessions {
      ResumedSession(at, k, c, h, e.key, session.sessionId, draw);
      OldHolderIsGone(at, k, c, h, e.key, session.sessionId, draw, session.connectionId);
    }
  }

  lemma SocketOf(b: Bridge, session: Session, secret: Uuid)
    requires MayBegin(b, session, secret)
    ensures session.connectionId in b.sockets
  {
  }

  /** A connection that held the session before a resume, or was gone already, does not hold one now. */
  lemma OldHolderIsGone(b: Bridge, k: Config, c: Uuid, h: Hello, token: Uuid, sessionId: Uuid, draw: Draw, p: Uuid)
    requires Inv(b, k) && c in b.sockets && b.sockets[c].session.None? && b.sockets[c].approval.None?
      && NewDraw(b, draw)
    requires c in Resumed(b, k, c, h, token, sessionId, draw.secret).registry.sessions && p != c
    requires p in b.sockets ==> b.sockets[p].session.Some? && b.sockets[p].session.value.sessionId == sessionId
    ensures p !in Resumed(b, k, c, h, token, sessionId, draw.secret).registry.sessions
  {
    hide Inv; hide Resumed; hide NewDraw;
    var after := Resumed(b, k, c, h, token, sessionId, draw.secret);
    ResumeEvolves(b, k, c, h, token, sessionId, draw.secret);
    ResumeKeepsInv(b, k, c, h, token, sessionId, draw);
    ResumedSession(b, k, c, h, token, sessionId, draw);
    SessionsAreSockets(after, k, p);
  }

  lemma GrantIsResume(session: Session, h: Hello)
    requires h.appId == session.appId && h.runtimeId == session.runtimeId && h.instanceId == session.instanceId
    ensures GrantOf(session) == ResumeOf(session.origin, h, session.sessionId)
  {
  }

  /** What holds when a session has just begun. */
  lemma BeganFacts(b: Bridge, k: Config, session: Session, secret: Uuid)
    requires Inv(b, k) && MayBegin(b, session, secret) && !R.Conflicts(b.registry.sessions, session)
    ensures var began := Established(b, k, session, secret);
      && Inv(began, k) && began.clock == b.clock && began.used == b.used && began.sockets.Keys == b.sockets.Keys
      && |began.sockets| == |b.sockets|
      && session.connectionId in began.registry.sessions && began.registry.sessions[session.connectionId] == session
      && Entry(secret, b.clock + k.resumeTokenTtlMs, GrantOf(session)) in began.resume
      && !OccupiedByAnother(began.registry.sessions, GrantOf(session))
      && !OccupiedByAnother(began.registry.sessions - {session.connectionId}, GrantOf(session))
  {
    hide Inv; hide R.Conflicts; hide R.Added; hide T.Revoked; hide HasKey; hide NoSession; hide T.Issued;
    hide OccupiedByAnother;
    hide GrantOf;
    EstablishKeepsInv(b, k, session, secret);
    var began := Established(b, k, session, secret);
    AddedSessions(b.registry, session);
    SizesAfter(b.sockets, session.connectionId, began.sockets[session.connectionId]);
    IssuedIsLast(b.resume, k, b.clock, session, secret);
    RuntimesDiffer(began, k);
    NobodyElse(began.registry.sessions, GrantOf(session), session.connectionId);
  }

  lemma RuntimesDiffer(b: Bridge, k: Config)
    requires Inv(b, k)
    ensures R.DistinctRuntimes(b.registry.sessions)
  {
    hide BrokerInv; hide SocketsInv; hide TokensInv; hide R.Sound; hide R.Tallied;
  }

  lemma IssuedIsLast(resume: seq<Entry<Grant>>, k: Config, clock: nat, session: Session, secret: Uuid)
    ensures Entry(secret, clock + k.resumeTokenTtlMs, GrantOf(session)) in Regranted(resume, k, clock, session, secret)
  {
    hide Room; hide Live; hide T.Revoked;
  }

  /** Whoever resumes has the session, and nobody else does. */
  lemma ResumedSession(b: Bridge, k: Config, c: Uuid, h: Hello, token: Uuid, sessionId: Uuid, draw: Draw)
    requires Inv(b, k) && c in b.sockets && b.sockets[c].session.None? && b.sockets[c].approval.None?
      && NewDraw(b, draw)
    requires c in Resumed(b, k, c, h, token, sessionId, draw.secret).registry.sessions
    ensures var after := Resumed(b, k, c, h, token, sessionId, draw.secret);
      && after.registry.sessions[c] == SessionFor(c, b.sockets[c].origin, h, sessionId)
      && forall d :: d in after.registry.sessions && after.registry.sessions[d].sessionId == sessionId ==> d == c
  {
    hide Inv; hide T.Grants; hide T.AfterConsume; hide Matches; hide R.Conflicts; hide Retired; hide R.Added;
    hide T.Issued; hide T.Revoked; hide HasKey; hide UnusedRequest; hide NoSession;
    var g := ResumeOf(b.sockets[c].origin, h, sessionId);
    var left := b.(resume := T.AfterConsume(b.resume, b.clock, token, Exactly(g)));
    SessionsAreSockets(b, k, c);
    ConsumeKeepsInv(b, k, token, Exactly(g));
    ResumeKeepsInv(b, k, c, h, token, sessionId, draw);
    SoundStatesAgree(Resumed(b, k, c, h, token, sessionId, draw.secret), k);
    if T.Grants(b.resume, b.clock, token, Exactly(g)).Some? {
      GrantedFacts(b, k, token, g);
      RetireFacts(left, k, c, g);
      var retired := Retired(left, c, g);
      var session := SessionFor(c, b.sockets[c].origin, h, sessionId);
      SessionsAreSockets(retired, k, c);
      if !R.Conflicts(retired.registry.sessions, session) {
        AddedSessions(retired.registry, session);
      }
    }
  }

  lemma {:induction false} RunUses(b: Bridge, k: Config, run: seq<Timed>)
    ensures b.used <= After(b, k, run).used
    decreases |run|
  {
    hide Step;
    if run != [] {
      StepUses(b, k, run[0].now, run[0].action);
      RunUses(Step(b, k, run[0].now, run[0].action), k, run[1..]);
    }
  }

  lemma PairedSession(b: Bridge, k: Config, c: Uuid, h: Hello, token: Uuid, draw: Draw)
    requires Inv(b, k) && c in b.sockets && b.sockets[c].session.None?
    requires c in Paired(b, k, c, h, token, draw).registry.sessions
    ensures Paired(b, k, c, h, token, draw).registry.sessions[c] ==
      Session(c, draw.sessionId, b.sockets[c].origin, h.appId, h.runtimeId, h.instanceId)
  {
    hide Inv; hide T.Grants; hide T.AfterConsume; hide R.Added; hide T.Issued; hide T.Revoked; hide R.Conflicts;
    var session := SessionFor(c, b.sockets[c].origin, h, draw.sessionId);
    SessionsAreSockets(b, k, c);
    if !R.Conflicts(b.registry.sessions, session) {
      AddedSessions(b.registry, session);
    }
  }

  /** A pairing token that the operator has issued lets one browser of its origin in. Whatever happens
      in between, refused attempts of other origins included, it is good until it expires, unless it has
      been used; and the browser gets in exactly if its application instance is not connected already. */
  lemma PairingRoundTrip(b: Bridge, k: Config, origin: string, secret: Uuid, issuedAt: nat, run: seq<Timed>, t: nat,
                         now: nat, c: Uuid, h: Hello, draw: Draw)
    requires Inv(b, k) && Possible(b, issuedAt, IssuePairing(origin, secret))
    requires var issued := Step(b, k, issuedAt, IssuePairing(origin, secret));
      && PossibleRun(issued, k, run)
      && TokenSparing(issued, k, run, Entry(secret, issuedAt + k.pairingTokenTtlMs, origin))
      && var before := After(issued, k, run);
         && before.clock <= t <= now < issuedAt + k.pairingTokenTtlMs && |before.sockets| < k.maxBrowserConnections
         && c !in before.used && FreshDraw(before, draw) && c !in Ids(draw)
    requires h.auth == WithPairing(secret) && Welcome(origin, h)
    ensures var before := After(Step(b, k, issuedAt, IssuePairing(origin, secret)), k, run);
      var again := Step(before, k, t, Upgrade(c, origin));
      var after := Step(again, k, now, Receive(c, Connect(h), draw));
      && (c in after.registry.sessions <==> !Running(before.registry.sessions, origin, h))
      && (c in after.registry.sessions ==>
            after.registry.sessions[c] == Session(c, draw.sessionId, origin, h.appId, h.runtimeId, h.instanceId))
      && forall e :: e in after.pairing ==> e.key != secret
  {
    hide Inv; hide Step; hide After; hide PossibleRun; hide TokenSparing; hide Welcome; hide Running; hide T.Issued;
    var e := Entry(secret, issuedAt + k.pairingTokenTtlMs, origin);
    var issued := Step(b, k, issuedAt, IssuePairing(origin, secret));
    IssueStep(b, k, issuedAt, origin, secret);
    IssuedTokenIsThere(Ticked(b, issuedAt, {secret}), k, secret, origin);
    StepKeepsInv(b, k, issuedAt, IssuePairing(origin, secret));
    RunKeepsInv(issued, k, run);
    TokenSurvives(issued, k, run, e);
    HeldTokenPairs(After(issued, k, run), k, e, t, now, c, h, draw);
  }

  /** From any state that holds the token. */
  lemma HeldTokenPairs(b: Bridge, k: Config, e: Entry<string>, t: nat, now: nat, c: Uuid, h: Hello, draw: Draw)
    requires Inv(b, k) && e in b.pairing && b.clock <= t <= now < e.expiresAt && |b.sockets| < k.maxBrowserConnections
    requires h.auth == WithPairing(e.key) && Welcome(e.value, h)
    requires c !in b.used && FreshDraw(b, draw) && c !in Ids(draw)
    ensures var again := Step(b, k, t, Upgrade(c, e.value));
      var after := Step(again, k, now, Receive(c, Connect(h), draw));
      && (c in after.registry.sessions <==> !Running(b.registry.sessions, e.value, h))
      && (c in after.registry.sessions ==>
            after.registry.sessions[c] == Session(c, draw.sessionId, e.value, h.appId, h.runtimeId, h.instanceId))
      && forall x :: x in after.pairing ==> x.key != e.key
  {
    hide Inv; hide Paired; hide Resumed; hide Asked; hide Welcome; hide HasKey; hide NoSession;
    hide UnusedRequest; hide T.Grants; hide T.AfterConsume;
    hide Running; hide Step; hide Connected; hide Received;
    UpgradeStep(b, k, t, c, e.value);
    ReconnectKeepsInv(b, k, t, c, e.value);
    var again := Reconnected(b, t, c, e.value);
    DrawIsNew(again, k, now, Ids(draw), draw);
    TickKeepsInv(again, k, now, Ids(draw));
    ReceiveStep(again, k, now, c, Connect(h), draw);
    var at := Ticked(again, now, Ids(draw));
    ConnectStep(at, k, c, h, draw);
    HeldTokenIsGood(at, k, e);
    PairSucceedsExactlyWhen(at, k, c, h, e.key, draw);
    if c in Paired(at, k, c, h, e.key, draw).registry.sessions {
      PairedSession(at, k, c, h, e.key, draw);
    }
    PairedTokens(at, k, c, h, e.key, draw);
    UsedUp(at, k, e);
  }

  lemma UsedUp(b: Bridge, k: Config, e: Entry<string>)
    requires Inv(b, k) && e in b.pairing && e.expiresAt > b.clock
    ensures forall x :: x in T.AfterConsume(b.pairing, b.clock, e.key, FromOrigin(e.value)) ==> x.key != e.key
  {
    hide Inv; hide T.Grants; hide T.AfterConsume; hide InOrder;
    TokensInOrder(b, k);
    T.ConsumeMeans(b.pairing, b.clock, e.key, FromOrigin(e.value));
    forall x | x in b.pairing && x.key == e.key ensures x == e {
      LookupUnique(b.pairing, x);
      LookupUnique(b.pairing, e);
    }
  }

  lemma IssueStep(b: Bridge, k: Config, now: nat, origin: string, secret: Uuid)
    ensures var at := Ticked(b, now, {secret});
      Step(b, k, now, IssuePairing(origin, secret)) ==
        at.(pairing := T.Issued(at.pairing, TOKEN_CAP, k.pairingTokenTtlMs, at.clock, secret, origin))
  {
    hide T.Issued;
  }

  lemma IssuedTokenIsThere(b: Bridge, k: Config, secret: Uuid, origin: string)
    ensures Entry(secret, b.clock + k.pairingTokenTtlMs, origin) in
      T.Issued(b.pairing, TOKEN_CAP, k.pairingTokenTtlMs, b.clock, secret, origin)
  {
    hide Room; hide Live;
  }

  // ----- The life of a socket -----

  /** Sockets only go away; those that stay keep their origin and their session, and are never
      reopened. */
  ghost predicate Evolves(s: map<Uuid, Socket>, t: map<Uuid, Socket>) {
    && t.Keys <= s.Keys
    && forall c :: c in t ==>
         && s[c].origin == t[c].origin && (t[c].open ==> s[c].open)
         && (s[c].session.Some? ==> t[c].session == s[c].session)
  }

  lemma EstablishEvolves(b: Bridge, k: Config, session: Session, secret: Uuid)
    requires session.connectionId in b.sockets ==> b.sockets[session.connectionId].session.None?
    ensures Evolves(b.sockets, Established(b, k, session, secret).sockets)
  {
    hide R.Conflicts; hide R.Added; hide T.Issued; hide T.Revoked;
  }

  lemma ResumeEvolves(b: Bridge, k: Config, c: Uuid, h: Hello, token: Uuid, sessionId: Uuid, secret: Uuid)
    requires Inv(b, k) && c in b.sockets && b.sockets[c].session.None?
    ensures Evolves(b.sockets, Resumed(b, k, c, h, token, sessionId, secret).sockets)
  {
    hide Inv; hide T.Grants; hide T.AfterConsume; hide Established; hide B.Lost; hide R.Removed;
    var g := ResumeOf(b.sockets[c].origin, h, sessionId);
    var left := b.(resume := T.AfterConsume(b.resume, b.clock, token, Exactly(g)));
    if T.Grants(b.resume, b.clock, token, Exactly(g)).Some? {
      GrantedFacts(b, k, token, g);
    }
    EstablishEvolves(Retired(left, c, g), k, SessionFor(c, b.sockets[c].origin, h, sessionId), secret);
  }

  lemma PairEvolves(b: Bridge, k: Config, c: Uuid, h: Hello, token: Uuid, draw: Draw)
    requires c in b.sockets && b.sockets[c].session.None?
    ensures Evolves(b.sockets, Paired(b, k, c, h, token, draw).sockets)
  {
    hide T.Grants; hide T.AfterConsume; hide Established;
    var origin := b.sockets[c].origin;
    var left := b.(pairing := T.AfterConsume(b.pairing, b.clock, token, FromOrigin(origin)));
    EstablishEvolves(left, k, SessionFor(c, origin, h, draw.sessionId), draw.secret);
  }

  lemma SameEvolves(s: map<Uuid, Socket>)
    ensures Evolves(s, s) && Evolves(s, ShutAll(s))
  {
  }

  /** A change of one socket that keeps its origin and session and does not open it. */
  lemma UpdateEvolves(s: map<Uuid, Socket>, c: Uuid, x: Socket)
    requires c in s && x.origin == s[c].origin && (x.open ==> s[c].open) && x.session == s[c].session
    ensures Evolves(s, s[c := x])
  {
  }

  lemma ShutEvolves(b: Bridge, c: Uuid)
    ensures Evolves(b.sockets, Shut(b, c).sockets)
  {
    hide Evolves;
    SameEvolves(b.sockets);
    if c in b.sockets {
      UpdateEvolves(b.sockets, c, b.sockets[c].(open := false));
    }
  }

  lemma DetachEvolves(b: Bridge, c: Uuid)
    ensures Evolves(b.sockets, Detach(b, c).sockets)
  {
    hide B.Lost; hide R.Removed;
  }

  lemma ExpireEvolves(b: Bridge, c: Uuid)
    ensures Evolves(b.sockets, Expired(b, c).sockets)
  {
    hide Evolves;
    SameEvolves(b.sockets);
    if c in b.sockets && b.sockets[c].approval.Some? {
      var x := b.sockets[c].(approval := None, open := false);
      UpdateEvolves(b.sockets, c, x);
      assert Expired(b, c).sockets == b.sockets[c := x];
    }
  }

  lemma AskEvolves(b: Bridge, k: Config, c: Uuid, a: Approval)
    requires c in b.sockets
    ensures Evolves(b.sockets, Asked(b, k, c, a).sockets)
  {
    hide Evolves; hide MayAsk;
    ShutEvolves(b, c);
    UpdateEvolves(b.sockets, c, b.sockets[c].(approval := Some(a)));
  }

  lemma ConnectEvolves(b: Bridge, k: Config, c: Uuid, h: Hello, draw: Draw)
    requires Inv(b, k) && c in b.sockets && b.sockets[c].session.None?
    ensures Evolves(b.sockets, Connected(b, k, c, h, draw).sockets)
  {
    hide Inv; hide Evolves; hide Resumed; hide Paired; hide Asked; hide Welcome; hide Shut;
    ShutEvolves(b, c);
    match h.auth
    case WithApproval =>
      AskEvolves(b, k, c, Approval(draw.requestId, h.appId, h.runtimeId, h.instanceId, b.clock + k.pairingTokenTtlMs));
    case WithResume(token, sessionId) => ResumeEvolves(b, k, c, h, token, sessionId, draw.secret);
    case WithPairing(token) => PairEvolves(b, k, c, h, token, draw);
  }

  lemma InSessionEvolves(b: Bridge, k: Config, c: Uuid, session: Session, m: Message)
    ensures Evolves(b.sockets, InSession(b, k, c, session, m).sockets)
  {
    hide Evolves; hide B.Step; hide R.Registered; hide R.Unregistered; hide T.Revoked; hide Shut;
    SameEvolves(b.sockets);
    ShutEvolves(b, c);
    ShutEvolves(b.(resume := T.Revoked(b.resume, ForSession(session.sessionId))), c);
  }

  lemma ReceiveEvolves(b: Bridge, k: Config, c: Uuid, m: Message, draw: Draw)
    requires Inv(b, k)
    ensures Evolves(b.sockets, Received(b, k, c, m, draw).sockets)
  {
    hide Inv; hide Evolves; hide Connected; hide InSession; hide Shut;
    SameEvolves(b.sockets);
    ShutEvolves(b, c);
    if c in b.sockets {
      match b.sockets[c].session
      case None =>
        if m.Connect? {
          ConnectEvolves(b, k, c, m.hello, draw);
        }
      case Some(session) => InSessionEvolves(b, k, c, session, m);
    }
  }

  lemma DecideEvolves(b: Bridge, k: Config, requestId: Uuid, approve: bool, draw: Draw)
    requires Inv(b, k)
    ensures Evolves(b.sockets, Decided(b, k, requestId, approve, draw).sockets)
  {
    hide Inv; hide Established;
    if HasApplicant(b.sockets, requestId) {
      var c := Applicant(b.sockets, requestId);
      var s := b.sockets[c];
      WithdrawnFacts(b, k, c);
      EstablishEvolves(Withdrawn(b, c), k, SessionAsked(c, s.origin, s.approval.value, draw.sessionId), draw.secret);
    }
  }

  lemma StepEvolves(b: Bridge, k: Config, now: nat, a: Action)
    requires Inv(b, k) && Possible(b, now, a)
    ensures var before := if a.Upgrade? then b.sockets[a.connectionId := Socket(a.origin, true, None, None)] else b.sockets;
      Evolves(before, Step(b, k, now, a).sockets)
  {
    hide Inv; hide Received; hide Decided; hide B.Step; hide T.Issued; hide Resolves; hide Resolved;
    hide Evolves; hide Shut;
    hide Detach; hide Expired; hide ShutAll;
    TickKeepsInv(b, k, now, Drawn(a));
    var at := Ticked(b, now, Drawn(a));
    SameEvolves(b.sockets);
    match a
    case Upgrade(c, origin) =>
      IdsAreNew(b, k, c);
      UpgradeEvolves(b.sockets, c, origin);
    case Receive(c, m, draw) => ReceiveEvolves(at, k, c, m, draw);
    case Decide(requestId, approve, draw) => DecideEvolves(at, k, requestId, approve, draw);
    case SocketClosed(c) => DetachEvolves(at, c);
    case SocketFails(c) => ShutEvolves(at, c);
    case ApprovalTimer(c) => ExpireEvolves(at, c);
    case _ =>
  }

  lemma UpgradeEvolves(s: map<Uuid, Socket>, c: Uuid, origin: string)
    requires c !in s
    ensures var t := s[c := Socket(origin, true, None, None)]; Evolves(t, t) && Evolves(t, s)
  {
  }

  /** Over every run, a connection that is gone stays gone, a closed socket stays closed, and a
      connection has one session in its life. */
  lemma {:induction false} SocketLife(b: Bridge, k: Config, run: seq<Timed>, c: Uuid)
    requires Inv(b, k) && PossibleRun(b, k, run) && c in b.used
    ensures var after := After(b, k, run);
      c in after.sockets ==>
        && c in b.sockets && after.sockets[c].origin == b.sockets[c].origin
        && (after.sockets[c].open ==> b.sockets[c].open)
        && (b.sockets[c].session.Some? ==> after.sockets[c].session == b.sockets[c].session)
    decreases |run|
  {
    hide Inv; hide Step;
    if run != [] {
      var next := Step(b, k, run[0].now, run[0].action);
      StepKeepsInv(b, k, run[0].now, run[0].action);
      StepEvolves(b, k, run[0].now, run[0].action);
      StepUses(b, k, run[0].now, run[0].action);
      SocketLife(next, k, run[1..], c);
    }
  }

  /** Once a connection's socket is gone, its close event does nothing, however much later it comes. */
  lemma LateCloseDoesNothing(b: Bridge, k: Config, run: seq<Timed>, c: Uuid)
    requires Inv(b, k) && PossibleRun(b, k, run) && c in b.used && c !in b.sockets
    ensures Detach(After(b, k, run), c) == After(b, k, run)
  {
    hide Inv; hide PossibleRun; hide After; hide Detach;
    RunKeepsInv(b, k, run);
    SocketLife(b, k, run, c);
    DetachAbsent(After(b, k, run), k, c);
  }

  lemma StepUses(b: Bridge, k: Config, now: nat, a: Action)
    ensures b.used <= Step(b, k, now, a).used
    ensures a.Upgrade? && Possible(b, now, a) ==> a.connectionId !in b.used
  {
    hide T.Grants; hide T.AfterConsume; hide R.Conflicts; hide R.Added; hide T.Issued; hide T.Revoked;
    hide B.Step; hide B.Lost;
    hide R.Removed; hide R.Registered; hide R.Unregistered; hide Welcome; hide MayAsk; hide Resolves; hide Resolved;
  }

  // ----- What a session's messages can reach -----

  /** Everything that belongs to connection `d` is as it was. */
  ghost predicate Unaffected(b: Bridge, after: Bridge, d: Uuid) {
    && (d in after.sockets <==> d in b.sockets) && (d in b.sockets ==> after.sockets[d] == b.sockets[d])
    && (d in after.registry.registrations <==> d in b.registry.registrations)
    && (d in b.registry.registrations ==> after.registry.registrations[d] == b.registry.registrations[d])
    && B.Owned(after.broker.pending, d) == B.Owned(b.broker.pending, d)
    && (forall id :: id in B.Owned(b.broker.pending, d) ==> after.broker.pending[id] == b.broker.pending[id])
  }

  lemma RegistrationsOfOthers(r: R.Registry, config: R.Config, c: Uuid, registration: Registration, id: string, d: Uuid)
    requires c != d
    ensures forall after :: after in [R.Registered(r, config, c, registration), R.Unregistered(r, c, id)] ==>
      && (d in after.registrations <==> d in r.registrations)
      && (d in r.registrations ==> after.registrations[d] == r.registrations[d])
  {
    hide R.CountAll; hide R.BytesAll; hide R.RegisterError;
  }

  lemma AnswersOfOthers(b: B.State, now: nat, c: Uuid, id: Uuid, v: B.Verdict, d: Uuid)
    requires c != d
    ensures var after := B.Answered(b, now, c, id, v);
      && B.Owned(after.pending, d) == B.Owned(b.pending, d)
      && forall i :: i in B.Owned(b.pending, d) ==> after.pending[i] == b.pending[i]
  {
    hide FinishedAll; hide B.Counts; hide Keep;
  }

  /** Whatever a browser sends within its session, it cannot touch another connection's socket,
      registrations or calls. */
  lemma MessagesStayInTheirSession(b: Bridge, k: Config, c: Uuid, session: Session, m: Message, d: Uuid)
    requires c != d
    ensures Unaffected(b, InSession(b, k, c, session, m), d)
  {
    hide R.Registered; hide R.Unregistered; hide B.Answered; hide T.Revoked; hide B.Owned;
    match m
    case Register(_, registration) => RegistrationsOfOthers(b.registry, k.registry, c, registration, "", d);
    case Unregister(_, id) => RegistrationsOfOthers(b.registry, k.registry, c, Registration("", Tool, "", [], None), id, d);
    case ResultOf(_, id, output) => AnswersOfOthers(b.broker, b.clock, c, id, B.ResultVerdict(b.broker, id, output), d);
    case ErrorOf(_, invocation, code) =>
      if invocation.Some? {
        AnswersOfOthers(b.broker, b.clock, c, invocation.value, B.Rejected(B.CodeFromBrowser(code)), d);
      }
    case CancelOf(_, id) => AnswersOfOthers(b.broker, b.clock, c, id, B.Rejected(Cancelled), d);
    case _ =>
  }
}
