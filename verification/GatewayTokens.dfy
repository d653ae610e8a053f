/** How long a token of the Bridge stays good: what other steps, refused attempts among them, do to it. */
module GatewayTokens {
  import opened Common
  import opened Capabilities
  import opened Sequences
  import opened Expiring
  import opened GatewayModel
  import opened GatewayLaws
  import opened GatewayRuns
  import opened GatewayTheorems
  import B = BrokerModel
  import R = RegistryModel
  import T = Tokens

  // ----- Pairing tokens -----

  /** A browser of the right origin shows the token. */
  predicate UsesToken(b: Bridge, a: Action, e: Entry<string>) {
    && a.Receive? && a.message.Connect? && a.message.hello.auth == WithPairing(e.key)
    && a.connectionId in b.sockets && b.sockets[a.connectionId].origin == e.value
  }

  /** The step comes before the token expires, is not its use by a browser of its origin, and does not
      issue another one into a full store. */
  predicate SparesToken(b: Bridge, now: nat, a: Action, e: Entry<string>) {
    now < e.expiresAt && !UsesToken(b, a, e) && (a.IssuePairing? ==> |b.pairing| < 256)
  }

  lemma PairedTokens(b: Bridge, k: Config, c: Uuid, h: Hello, token: Uuid, draw: Draw)
    requires c in b.sockets
    ensures Paired(b, k, c, h, token, draw).pairing ==
      T.AfterConsume(b.pairing, b.clock, token, FromOrigin(b.sockets[c].origin))
  {
    hide T.Grants; hide T.AfterConsume; hide R.Conflicts; hide R.Added; hide T.Issued; hide T.Revoked;
  }

  lemma ConnectedTokens(b: Bridge, k: Config, c: Uuid, h: Hello, draw: Draw)
    requires c in b.sockets
    ensures var after := Connected(b, k, c, h, draw);
      after.pairing == b.pairing
      || (h.auth.WithPairing? && after.pairing ==
            T.AfterConsume(b.pairing, b.clock, h.auth.token, FromOrigin(b.sockets[c].origin)))
  {
    hide Welcome; hide MayAsk; hide T.Grants; hide T.AfterConsume; hide R.Conflicts; hide R.Added; hide T.Issued;
    hide T.Revoked; hide B.Lost; hide R.Removed; hide Paired; hide HasPrevious;
    if h.auth.WithPairing? {
      PairedTokens(b, k, c, h, h.auth.token, draw);
    }
  }

  /** Only issuing and showing pairing tokens changes their store. */
  lemma TokensAfter(b: Bridge, k: Config, a: Action)
    ensures var after := Act(b, k, a).pairing;
      || after == b.pairing
      || (a.IssuePairing? && after == T.Issued(b.pairing, TOKEN_CAP, k.pairingTokenTtlMs, b.clock, a.secret, a.origin))
      || (&& a.Receive? && a.message.Connect? && a.message.hello.auth.WithPairing? && a.connectionId in b.sockets
          && after == T.AfterConsume(b.pairing, b.clock, a.message.hello.auth.token,
                                     FromOrigin(b.sockets[a.connectionId].origin)))
  {
    hide Connected; hide B.Step; hide B.Lost; hide R.Removed; hide R.Registered; hide R.Unregistered; hide T.Revoked;
    hide R.Conflicts; hide R.Added; hide T.Issued; hide T.AfterConsume; hide Resolves; hide Resolved;
    if a.Receive? && a.message.Connect? && a.connectionId in b.sockets {
      ConnectedTokens(b, k, a.connectionId, a.message.hello, a.draw);
    }
  }

  /** A spared token stays: in particular, an attempt to use it that is refused, because it comes from
      another origin, does not take it away. */
  lemma TokenStays(b: Bridge, k: Config, now: nat, a: Action, e: Entry<string>)
    requires Inv(b, k) && Possible(b, now, a) && e in b.pairing && SparesToken(b, now, a, e)
    ensures e in Step(b, k, now, a).pairing
  {
    hide Inv; hide Act; hide T.Issued; hide T.AfterConsume; hide Possible; hide InOrder;
    var at := Ticked(b, now, Drawn(a));
    TokensAfter(at, k, a);
    TokensInOrder(b, k);
    if a.IssuePairing? {
      IssuingSpares(b.pairing, k.pairingTokenTtlMs, now, a.secret, a.origin, e);
    } else if a.Receive? && a.message.Connect? && a.message.hello.auth.WithPairing? && a.connectionId in b.sockets {
      T.ConsumeMeans(b.pairing, now, a.message.hello.auth.token, FromOrigin(b.sockets[a.connectionId].origin));
    }
  }

  lemma TokensInOrder(b: Bridge, k: Config)
    requires Inv(b, k)
    ensures InOrder(b.pairing) && InOrder(b.resume)
  {
    hide R.Inv; hide BrokerInv; hide SocketsInv; hide DistinctSessions; hide GrantsFit; hide Pairwise;
  }

  lemma IssuingSpares<V>(s: seq<Entry<V>>, ttlMs: nat, now: nat, secret: Uuid, value: V, e: Entry<V>)
    requires e in s && now < e.expiresAt && |s| < 256
    ensures e in T.Issued(s, TOKEN_CAP, ttlMs, now, secret, value)
  {
    LiveStays(s, TOKEN_CAP, now, Entry(secret, now + ttlMs, value), e);
  }

  ghost predicate TokenSparing(b: Bridge, k: Config, run: seq<Timed>, e: Entry<string>)
    decreases |run|
  {
    run != [] ==>
      && SparesToken(b, run[0].now, run[0].action, e)
      && TokenSparing(Step(b, k, run[0].now, run[0].action), k, run[1..], e)
  }

  lemma {:induction false} TokenSurvives(b: Bridge, k: Config, run: seq<Timed>, e: Entry<string>)
    requires Inv(b, k) && PossibleRun(b, k, run) && TokenSparing(b, k, run, e) && e in b.pairing
    ensures e in After(b, k, run).pairing
    decreases |run|
  {
    hide Inv; hide Step; hide Possible; hide SparesToken;
    if run != [] {
      TokenStays(b, k, run[0].now, run[0].action, e);
      StepKeepsInv(b, k, run[0].now, run[0].action);
      TokenSurvives(Step(b, k, run[0].now, run[0].action), k, run[1..], e);
    }
  }

  // ----- Resume tokens -----

  /** The browser that the grant was made for shows its token. */
  predicate UsesGrant(b: Bridge, a: Action, e: Entry<Grant>) {
    && a.Receive? && a.message.Connect? && a.connectionId in b.sockets
    && var h := a.message.hello;
       && h.auth == WithResume(e.key, e.value.sessionId)
       && e.value == Grant(e.value.sessionId, b.sockets[a.connectionId].origin, h.appId, h.runtimeId, h.instanceId)
  }

  /** The session leaves for good. */
  predicate LeavesForGood(b: Bridge, a: Action, sessionId: Uuid) {
    && a.Receive? && a.message.Disconnect? && !a.message.canResume && a.connectionId in b.sockets
    && b.sockets[a.connectionId].session.Some? && b.sockets[a.connectionId].session.value.sessionId == sessionId
  }

  ghost predicate BeginsSession(b: Bridge, after: Bridge) {
    exists c :: c in after.registry.sessions && c !in b.registry.sessions
  }

  /** The step comes before the grant expires, is neither its use by its own browser nor the end of its
      session, and does not begin a session while the store is full. */
  ghost predicate SparesGrant(b: Bridge, k: Config, now: nat, a: Action, e: Entry<Grant>) {
    && now < e.expiresAt && !UsesGrant(b, a, e) && !LeavesForGood(b, a, e.value.sessionId)
    && (BeginsSession(b, Step(b, k, now, a)) ==> |b.resume| < 256)
  }

  /** The grants of other sessions stay when a session begins, if there is room. */
  lemma EstablishSparesGrant(b: Bridge, k: Config, session: Session, secret: Uuid, e: Entry<Grant>)
    requires e in b.resume && e.expiresAt > b.clock && e.value.sessionId != session.sessionId
    requires session.connectionId in Established(b, k, session, secret).registry.sessions ==> |b.resume| < 256
    ensures e in Established(b, k, session, secret).resume
  {
    hide T.Issued; hide T.Revoked; hide R.Conflicts; hide R.Added;
    if session.connectionId in b.sockets && !R.Conflicts(b.registry.sessions, session) {
      AddedSessions(b.registry, session);
      RevokedSize(b.resume, session.sessionId);
      T.RevokeMeans(b.resume, ForSession(session.sessionId));
      IssuingSpares(T.Revoked(b.resume, ForSession(session.sessionId)), k.resumeTokenTtlMs, b.clock, secret,
                    GrantOf(session), e);
    }
  }

  lemma RevokedSize(resume: seq<Entry<Grant>>, sessionId: Uuid)
    ensures |T.Revoked(resume, ForSession(sessionId))| <= |resume|
  {
  }

  lemma ConsumedSize(resume: seq<Entry<Grant>>, now: nat, token: Uuid, accept: Grant -> bool)
    ensures |T.AfterConsume(resume, now, token, accept)| <= |resume|
  {
  }

  lemma ResumeSparesGrant(b: Bridge, k: Config, c: Uuid, h: Hello, token: Uuid, sessionId: Uuid, draw: Draw, e: Entry<Grant>)
    requires Inv(b, k) && c in b.sockets && b.sockets[c].session.None? && b.sockets[c].approval.None?
      && NewDraw(b, draw)
    requires e in b.resume && e.expiresAt > b.clock
    requires !(e.key == token && e.value == Grant(sessionId, b.sockets[c].origin, h.appId, h.runtimeId, h.instanceId))
    requires c in Resumed(b, k, c, h, token, sessionId, draw.secret).registry.sessions ==> |b.resume| < 256
    ensures e in Resumed(b, k, c, h, token, sessionId, draw.secret).resume
  {
    hide Inv; hide T.Grants; hide T.AfterConsume; hide Established; hide HasKey; hide Matches; hide NoSession; hide Detach;
    hide InOrder; hide UnusedRequest; hide Retired;
    var g := ResumeOf(b.sockets[c].origin, h, sessionId);
    var left := b.(resume := T.AfterConsume(b.resume, b.clock, token, Exactly(g)));
    TokensInOrder(b, k);
    T.ConsumeMeans(b.resume, b.clock, token, Exactly(g));
    ConsumedSize(b.resume, b.clock, token, Exactly(g));
    ConsumeKeepsInv(b, k, token, Exactly(g));
    if T.Grants(b.resume, b.clock, token, Exactly(g)).Some? {
      GrantedFacts(b, k, token, g);
      var f :| f in b.resume && f.value == g && f.key == token && f.expiresAt > b.clock;
      OneGrantPerSession(b, k, f, e);
      RetireFacts(left, k, c, g);
      EstablishSparesGrant(Retired(left, c, g), k, SessionFor(c, b.sockets[c].origin, h, sessionId), draw.secret, e);
    }
  }

  lemma PairSparesGrant(b: Bridge, k: Config, c: Uuid, h: Hello, token: Uuid, draw: Draw, e: Entry<Grant>)
    requires c in b.sockets && e in b.resume && e.expiresAt > b.clock && e.value.sessionId != draw.sessionId
    requires c in Paired(b, k, c, h, token, draw).registry.sessions ==> |b.resume| < 256
    ensures e in Paired(b, k, c, h, token, draw).resume
  {
    hide T.Grants; hide T.AfterConsume; hide Established;
    var origin := b.sockets[c].origin;
    var left := b.(pairing := T.AfterConsume(b.pairing, b.clock, token, FromOrigin(origin)));
    if T.Grants(b.pairing, b.clock, token, FromOrigin(origin)).Some? {
      EstablishSparesGrant(left, k, SessionFor(c, origin, h, draw.sessionId), draw.secret, e);
    }
  }

  lemma ConnectSparesGrant(b: Bridge, k: Config, c: Uuid, h: Hello, draw: Draw, e: Entry<Grant>)
    requires Inv(b, k) && c in b.sockets && b.sockets[c].session.None? && b.sockets[c].approval.None?
      && NewDraw(b, draw)
    requires e in b.resume && e.expiresAt > b.clock && e.value.sessionId != draw.sessionId
    requires !(h.auth == WithResume(e.key, e.value.sessionId)
               && e.value == Grant(e.value.sessionId, b.sockets[c].origin, h.appId, h.runtimeId, h.instanceId))
    requires c in Connected(b, k, c, h, draw).registry.sessions ==> |b.resume| < 256
    ensures e in Connected(b, k, c, h, draw).resume
  {
    hide Inv; hide Welcome; hide Resumed; hide Paired; hide MayAsk; hide NewDraw;
    if Welcome(b.sockets[c].origin, h) {
      match h.auth
      case WithApproval =>
      case WithResume(token, sessionId) => ResumeSparesGrant(b, k, c, h, token, sessionId, draw, e);
      case WithPairing(token) => PairSparesGrant(b, k, c, h, token, draw, e);
    }
  }

  lemma InSessionSparesGrant(b: Bridge, k: Config, c: Uuid, session: Session, m: Message, e: Entry<Grant>)
    requires e in b.resume && !(m.Disconnect? && !m.canResume && e.value.sessionId == session.sessionId)
    ensures e in InSession(b, k, c, session, m).resume
  {
    hide B.Step; hide R.Registered; hide R.Unregistered; hide T.Revoked;
    T.RevokeMeans(b.resume, ForSession(session.sessionId));
  }

  lemma ReceiveSparesGrant(b: Bridge, k: Config, c: Uuid, m: Message, draw: Draw, e: Entry<Grant>)
    requires Inv(b, k) && NewDraw(b, draw)
    requires e in b.resume && e.expiresAt > b.clock && e.value.sessionId != draw.sessionId
    requires !UsesGrant(b, Receive(c, m, draw), e) && !LeavesForGood(b, Receive(c, m, draw), e.value.sessionId)
    requires BeginsSession(b, Received(b, k, c, m, draw)) ==> |b.resume| < 256
    ensures e in Received(b, k, c, m, draw).resume
  {
    hide Inv; hide NewDraw; hide Connected; hide InSession;
    if c in b.sockets {
      match b.sockets[c].session
      case None =>
        SessionsAreSockets(b, k, c);
        if m.Connect? && b.sockets[c].approval.None? {
          ConnectSparesGrant(b, k, c, m.hello, draw, e);
        }
      case Some(session) => InSessionSparesGrant(b, k, c, session, m, e);
    }
  }

  lemma DecideSparesGrant(b: Bridge, k: Config, requestId: Uuid, approve: bool, draw: Draw, e: Entry<Grant>)
    requires Inv(b, k) && e in b.resume && e.expiresAt > b.clock && e.value.sessionId != draw.sessionId
    requires BeginsSession(b, Decided(b, k, requestId, approve, draw)) ==> |b.resume| < 256
    ensures e in Decided(b, k, requestId, approve, draw).resume
  {
    hide Inv; hide Established;
    if HasApplicant(b.sockets, requestId) {
      var c := Applicant(b.sockets, requestId);
      var s := b.sockets[c];
      WithdrawnFacts(b, k, c);
      SessionsAreSockets(b, k, c);
      if approve && s.open && s.approval.value.expiresAt > b.clock {
        EstablishSparesGrant(Withdrawn(b, c), k, SessionAsked(c, s.origin, s.approval.value, draw.sessionId), draw.secret, e);
      }
    }
  }

  lemma GrantIsOlder(b: Bridge, k: Config, e: Entry<Grant>)
    requires Inv(b, k) && e in b.resume
    ensures e.value.sessionId in b.used
  {
    hide R.Inv; hide BrokerInv; hide SocketsInv; hide DistinctSessions; hide GrantsFit; hide T.Inv;
  }

  /** A spared grant stays: an attempt to use it that is refused, because it comes from another origin or
      for another application, does not take it away, and neither does a disconnect that means to resume. */
  lemma GrantStays(b: Bridge, k: Config, now: nat, a: Action, e: Entry<Grant>)
    requires Inv(b, k) && Possible(b, now, a) && e in b.resume && SparesGrant(b, k, now, a, e)
    ensures e in Step(b, k, now, a).resume
  {
    hide Inv; hide Act; hide Received; hide Decided; hide NewDraw; hide Detach;
    var at := Ticked(b, now, Drawn(a));
    TickKeepsInv(b, k, now, Drawn(a));
    GrantIsOlder(b, k, e);
    NamedActs(at, k, a);
    match a
    case Receive(c, m, draw) =>
      DrawIsNew(b, k, now, Drawn(a), draw);
      ReceiveSparesGrant(at, k, c, m, draw, e);
    case Decide(requestId, approve, draw) => DecideSparesGrant(at, k, requestId, approve, draw, e);
    case SocketClosed(c) => DetachedGrants(at, c);
    case _ => OtherActs(at, k, a);
  }

  lemma DetachedGrants(b: Bridge, c: Uuid)
    ensures Detach(b, c).resume == b.resume
  {
    hide B.Lost; hide R.Removed;
  }

  ghost predicate GrantSparing(b: Bridge, k: Config, run: seq<Timed>, e: Entry<Grant>)
    decreases |run|
  {
    run != [] ==>
      && SparesGrant(b, k, run[0].now, run[0].action, e)
      && GrantSparing(Step(b, k, run[0].now, run[0].action), k, run[1..], e)
  }

  lemma {:induction false} GrantSurvives(b: Bridge, k: Config, run: seq<Timed>, e: Entry<Grant>)
    requires Inv(b, k) && PossibleRun(b, k, run) && GrantSparing(b, k, run, e) && e in b.resume
    ensures e in After(b, k, run).resume
    decreases |run|
  {
    hide Inv; hide Step; hide Possible; hide SparesGrant;
    if run != [] {
      GrantStays(b, k, run[0].now, run[0].action, e);
      StepKeepsInv(b, k, run[0].now, run[0].action);
      GrantSurvives(Step(b, k, run[0].now, run[0].action), k, run[1..], e);
    }
  }
}
