/** Main results about the Bridge: replacing a connection, taking one away, and spent session ids. */
module GatewayTheorems {
  import opened Common
  import opened Capabilities
  import opened Sequences
  import opened Expiring
  import opened RecentRequests
  import opened GatewayModel
  import opened GatewayLaws
  import opened GatewayRuns
  import B = BrokerModel
  import BR = Broker
  import R = RegistryModel
  import T = Tokens

  // ----- What the invariant says -----

  /** The components agree: sessions, work and grants belong together, and every bound holds. */
  lemma SoundStatesAgree(b: Bridge, k: Config)
    requires Inv(b, k)
    ensures |b.sockets| <= k.maxBrowserConnections && |b.pairing| <= 256 && |b.resume| <= 256
    ensures forall c :: c in b.registry.sessions <==> c in b.sockets && b.sockets[c].session.Some?
    ensures forall c :: c in b.registry.sessions ==> b.sockets[c].session == Some(b.registry.sessions[c])
    ensures forall id :: id in b.broker.pending ==> B.Connection(b.broker.pending[id]) in b.registry.sessions
    ensures forall t :: t in b.broker.cancelled ==> t.value in b.registry.sessions
    ensures forall c, d :: c in b.registry.sessions && d in b.registry.sessions && c != d ==>
      b.registry.sessions[c].sessionId != b.registry.sessions[d].sessionId
    ensures forall e, c ::
      e in b.resume && c in b.registry.sessions && b.registry.sessions[c].sessionId == e.value.sessionId ==>
        GrantOf(b.registry.sessions[c]) == e.value
  {
    hide R.Inv; hide B.Inv; hide T.Inv; hide Approvals; hide KnownSockets; hide KnownTokens; hide OriginsAgree;
    hide Pairwise;
    TokenCounts(b, k);
    forall c ensures c in SessionsOf(b.sockets) <==> c in b.sockets && b.sockets[c].session.Some? {
    }
  }

  lemma TokenCounts(b: Bridge, k: Config)
    requires Inv(b, k)
    ensures |b.pairing| <= 256 && |b.resume| <= 256
  {
    hide R.Inv; hide BrokerInv; hide SocketsInv; hide DistinctSessions; hide GrantsFit; hide KnownTokens; hide InOrder;
  }

  /** A session id has one grant at most. */
  lemma OneGrantPerSession(b: Bridge, k: Config, d: Entry<Grant>, e: Entry<Grant>)
    requires Inv(b, k) && d in b.resume && e in b.resume && d != e
    ensures d.value.sessionId != e.value.sessionId
  {
    hide Inv; hide Pairwise;
    TokensAreSound(b, k);
    TwoGrants(b.resume, d, e);
  }

  lemma PairwiseAt(s: seq<Entry<Grant>>, i: nat, j: nat)
    requires Pairwise(s, DifferentSession()) && i < j < |s|
    ensures s[i].value.sessionId != s[j].value.sessionId
  {
    assert DifferentSession()(s[i], s[j]);
  }

  // ----- A resume -----

  /** Another session of the same runtime is live. */
  ghost predicate OccupiedByAnother(sessions: map<Uuid, Session>, g: Grant) {
    exists d :: d in sessions && sessions[d].sessionId != g.sessionId
      && sessions[d].origin == g.origin && sessions[d].appId == g.appId && sessions[d].instanceId == g.instanceId
  }

  lemma ConflictMeans(sessions: map<Uuid, Session>, s: Session)
    requires NoSession(sessions, s.sessionId)
    ensures R.Conflicts(sessions, s) <==> OccupiedByAnother(sessions, GrantOf(s))
  {
    if R.Conflicts(sessions, s) {
      var d :| d in sessions && R.SameRuntime(sessions[d], s);
      assert sessions[d].sessionId != GrantOf(s).sessionId;
    }
    if OccupiedByAnother(sessions, GrantOf(s)) {
      var g := GrantOf(s);
      var d :| d in sessions && sessions[d].sessionId != g.sessionId
        && sessions[d].origin == g.origin && sessions[d].appId == g.appId && sessions[d].instanceId == g.instanceId;
      assert R.SameRuntime(sessions[d], s);
    }
  }

  /** Once its grant has been consumed, a resume is refused exactly if another session of the same
      runtime is live; and that cannot be while the session to be resumed still has a connection.
      So the Bridge never takes a connection away and then refuses its replacement. */
  lemma ResumeConflictsExactlyWhen(b: Bridge, k: Config, c: Uuid, g: Grant)
    requires Inv(b, k) && c in b.sockets && b.sockets[c].session.None? && Matches(b.registry.sessions, g)
    ensures var session := Session(c, g.sessionId, g.origin, g.appId, g.runtimeId, g.instanceId);
      && (R.Conflicts(Retired(b, c, g).registry.sessions, session) <==> OccupiedByAnother(b.registry.sessions, g))
      && (HasPrevious(b.sockets, c, g) ==> !R.Conflicts(Retired(b, c, g).registry.sessions, session))
  {
    hide Inv; hide B.Lost; hide R.Removed; hide Matches; hide R.Conflicts; hide OccupiedByAnother;
    var session := Session(c, g.sessionId, g.origin, g.appId, g.runtimeId, g.instanceId);
    RetireFacts(b, k, c, g);
    ConflictMeans(Retired(b, c, g).registry.sessions, session);
    if HasPrevious(b.sockets, c, g) {
      var p := Previous(b.sockets, c, g);
      PreviousIsLive(b, k, c, g, p);
      RemovedSessions(b.registry, p);
      NobodyElse(b.registry.sessions, g, p);
    }
  }

  lemma NobodyElse(sessions: map<Uuid, Session>, g: Grant, p: Uuid)
    requires R.DistinctRuntimes(sessions) && p in sessions && GrantOf(sessions[p]) == g
    ensures !OccupiedByAnother(sessions, g) && !OccupiedByAnother(sessions - {p}, g)
  {
    forall d | d in sessions && d != p ensures !R.SameRuntime(sessions[d], sessions[p]) {
    }
  }

  /** The whole step: a valid resume of a session that still has a connection moves the session, and
      its sockets' other neighbours stay; the new connection holds the session and the only grant. */
  lemma ResumeReplaces(b: Bridge, k: Config, c: Uuid, h: Hello, token: Uuid, sessionId: Uuid, draw: Draw)
    requires Inv(b, k) && c in b.sockets && b.sockets[c].session.None? && b.sockets[c].approval.None?
      && NewDraw(b, draw)
    requires var g := ResumeOf(b.sockets[c].origin, h, sessionId);
      T.Grants(b.resume, b.clock, token, Exactly(g)).Some? && HasPrevious(b.sockets, c, g)
    ensures var after := Resumed(b, k, c, h, token, sessionId, draw.secret);
      var p := Previous(b.sockets, c, ResumeOf(b.sockets[c].origin, h, sessionId));
      && p !in after.sockets && p !in after.registry.sessions
      && c in after.registry.sessions && after.registry.sessions[c] == SessionFor(c, b.sockets[c].origin, h, sessionId)
      && (forall d :: d in b.registry.sessions && d != p ==>
            d in after.registry.sessions && after.registry.sessions[d] == b.registry.sessions[d])
  {
    hide Inv; hide T.Grants; hide T.AfterConsume; hide Matches; hide B.Lost; hide R.Conflicts; hide R.Removed;
    hide R.Added;
    hide T.Issued; hide T.Revoked; hide HasKey; hide UnusedRequest;
    var g := ResumeOf(b.sockets[c].origin, h, sessionId);
    var left := b.(resume := T.AfterConsume(b.resume, b.clock, token, Exactly(g)));
    GrantedFacts(b, k, token, g);
    ConsumeKeepsInv(b, k, token, Exactly(g));
    RetireFacts(left, k, c, g);
    ResumeConflictsExactlyWhen(left, k, c, g);
    var p := Previous(b.sockets, c, g);
    var retired := Retired(left, c, g);
    RemovedSessions(left.registry, p);
    AddedSessions(retired.registry, SessionFor(c, b.sockets[c].origin, h, sessionId));
    SessionsAreSockets(retired, k, c);
  }

  /** With a valid token, a resume succeeds exactly if no other session of the same runtime is live;
      without one it never does. */
  lemma ResumeSucceedsExactlyWhen(b: Bridge, k: Config, c: Uuid, h: Hello, token: Uuid, sessionId: Uuid, draw: Draw)
    requires Inv(b, k) && c in b.sockets && b.sockets[c].session.None? && b.sockets[c].approval.None?
      && NewDraw(b, draw)
    ensures var g := ResumeOf(b.sockets[c].origin, h, sessionId);
      c in Resumed(b, k, c, h, token, sessionId, draw.secret).registry.sessions <==>
        T.Grants(b.resume, b.clock, token, Exactly(g)).Some? && !OccupiedByAnother(b.registry.sessions, g)
  {
    hide Inv; hide T.Grants; hide T.AfterConsume; hide Matches; hide R.Conflicts; hide Detach; hide OccupiedByAnother;
    hide R.Added; hide T.Issued; hide T.Revoked; hide HasKey; hide UnusedRequest; hide Retired; hide NoSession;
    var g := ResumeOf(b.sockets[c].origin, h, sessionId);
    var left := b.(resume := T.AfterConsume(b.resume, b.clock, token, Exactly(g)));
    SessionsAreSockets(b, k, c);
    ConsumeKeepsInv(b, k, token, Exactly(g));
    if T.Grants(b.resume, b.clock, token, Exactly(g)).Some? {
      GrantedFacts(b, k, token, g);
      RetireFacts(left, k, c, g);
      ResumeConflictsExactlyWhen(left, k, c, g);
      var retired := Retired(left, c, g);
      var session := SessionFor(c, b.sockets[c].origin, h, sessionId);
      SessionsAreSockets(retired, k, c);
      if !R.Conflicts(retired.registry.sessions, session) {
        AddedSessions(retired.registry, session);
      }
    }
  }

  lemma SessionsAreSockets(b: Bridge, k: Config, c: Uuid)
    requires Inv(b, k)
    ensures c in b.registry.sessions <==> c in b.sockets && b.sockets[c].session.Some?
    ensures c in b.registry.sessions ==>
      b.registry.sessions[c] == b.sockets[c].session.value && b.registry.sessions[c].connectionId == c
  {
    hide BrokerInv; hide TokensInv; hide Approvals; hide KnownSockets; hide R.Sound; hide R.DistinctRuntimes;
    hide R.Tallied;
  }

  // ----- A connection goes away -----

  /** Nothing in the Bridge refers to this connection. */
  ghost predicate Absent(b: Bridge, c: Uuid) {
    && c !in b.sockets && c !in b.registry.sessions && c !in b.registry.registrations && c !in b.registry.bytes
    && (forall id :: id in b.broker.pending ==> B.Connection(b.broker.pending[id]) != c)
    && (forall t :: t in b.broker.cancelled ==> t.value != c)
    && c !in b.broker.active
  }

  /** A close leaves nothing of the connection behind. */
  lemma DetachLeavesNothing(b: Bridge, c: Uuid)
    ensures Absent(Detach(b, c), c)
  {
    hide R.CountAll; hide R.BytesAll; hide B.Lost;
    LossBringsNoWork(b.broker, c);
    LostActive(b.broker, c);
  }

  lemma LostActive(b: B.State, c: Uuid)
    ensures c !in B.Lost(b, c).active
  {
    hide FinishedAll; hide Keep;
  }

  /** A close touches no other connection: its socket, registrations, pending calls and their
      verdicts, counter and tombstones are as they were. */
  lemma DetachTouchesNothingElse(b: Bridge, k: Config, c: Uuid, d: Uuid)
    requires Inv(b, k) && c != d
    ensures var after := Detach(b, c);
      && (d in after.sockets <==> d in b.sockets) && (d in b.sockets ==> after.sockets[d] == b.sockets[d])
      && (d in after.registry.registrations <==> d in b.registry.registrations)
      && (d in b.registry.registrations ==> after.registry.registrations[d] == b.registry.registrations[d])
      && (forall id :: id in B.Owned(b.broker.pending, d) ==>
            id in after.broker.pending && after.broker.pending[id] == b.broker.pending[id]
            && id in after.broker.verdicts && after.broker.verdicts[id] == [])
      && B.Owned(after.broker.pending, d) == B.Owned(b.broker.pending, d)
      && (d in after.broker.active <==> d in b.broker.active)
      && (d in b.broker.active ==> after.broker.active[d] == b.broker.active[d])
      && (forall t: Entry<Uuid> :: t.value == d ==> (t in after.broker.cancelled <==> t in b.broker.cancelled))
  {
    hide R.CountAll; hide R.BytesAll; hide Inv;
    BrokerFacts(b, k);
    OthersKeepWork(b.broker, c, d);
    OthersKeepTombstones(b.broker, c, d);
  }

  lemma BrokerFacts(b: Bridge, k: Config)
    requires Inv(b, k)
    ensures b.broker.active == B.Counts(b.broker.pending) && B.SettledOnce(b.broker)
  {
    hide R.Inv; hide SocketsInv; hide TokensInv; hide WorkIsLive; hide B.Mirrors; hide B.Tombstones;
    hide B.WithinLimits;
  }

  lemma OthersKeepWork(b: B.State, c: Uuid, d: Uuid)
    requires b.active == B.Counts(b.pending) && B.SettledOnce(b) && c != d
    ensures var after := B.Lost(b, c);
      && (forall id :: id in B.Owned(b.pending, d) ==>
            id in after.pending && after.pending[id] == b.pending[id] && id in after.verdicts && after.verdicts[id] == [])
      && B.Owned(after.pending, d) == B.Owned(b.pending, d)
      && (d in after.active <==> d in b.active) && (d in b.active ==> after.active[d] == b.active[d])
  {
    hide FinishedAll; hide Keep;
    var after := B.Lost(b, c);
    assert forall id :: id in b.pending ==> b.verdicts[id] == [];
    assert B.Owned(after.pending, d) == B.Owned(b.pending, d);
    BR.CountOf(b.pending, d);
    BR.CountOf(after.pending, d);
    BR.Counted(b.pending, d);
    BR.Counted(after.pending, d);
  }

  lemma OthersKeepTombstones(b: B.State, c: Uuid, d: Uuid)
    requires c != d
    ensures forall t: Entry<Uuid> :: t.value == d ==> (t in B.Lost(b, c).cancelled <==> t in b.cancelled)
  {
    hide FinishedAll; hide B.Counts;
    KeepMembers(b.cancelled, B.FromOthers(c));
    forall t: Entry<Uuid> | t.value == d ensures B.FromOthers(c)(t) {
    }
  }

  /** A connection without a socket has left nothing behind anywhere. */
  lemma GoneIsAbsent(b: Bridge, k: Config, c: Uuid)
    requires Inv(b, k) && c !in b.sockets
    ensures Absent(b, c)
  {
    hide Inv; hide B.Owned;
    SessionsAreSockets(b, k, c);
    SoundStatesAgree(b, k);
    BrokerFacts(b, k);
    TablesAligned(b, k);
    NoneOwned(b.broker.pending, c);
  }

  lemma TablesAligned(b: Bridge, k: Config)
    requires Inv(b, k)
    ensures R.Aligned(b.registry)
  {
    hide BrokerInv; hide SocketsInv; hide TokensInv; hide R.Sound; hide R.Tallied; hide R.Aligned;
    hide R.DistinctRuntimes;
  }

  lemma NoneOwned(pending: map<Uuid, B.Pending>, c: Uuid)
    requires forall id :: id in pending ==> B.Connection(pending[id]) != c
    ensures c !in B.Counts(pending)
  {
  }

  /** Closing a connection that has no socket any more, because it was replaced or closed before, does
      nothing. */
  lemma DetachAbsent(b: Bridge, k: Config, c: Uuid)
    requires Inv(b, k) && c !in b.sockets
    ensures Detach(b, c) == b
  {
    hide Inv; hide R.CountAll; hide R.BytesAll; hide B.Lost;
    GoneIsAbsent(b, k, c);
    BrokerFacts(b, k);
    LostNothing(b.broker, c);
    RegistryTallies(b, k);
    assert b.sockets - {c} == b.sockets;
    assert b.registry.sessions - {c} == b.registry.sessions;
    assert b.registry.registrations - {c} == b.registry.registrations;
    assert b.registry.bytes - {c} == b.registry.bytes;
  }

  /** After a resume has replaced a connection, that connection's own close event changes nothing. */
  lemma ReplacedCloseDoesNothing(b: Bridge, k: Config, c: Uuid, h: Hello, token: Uuid, sessionId: Uuid, draw: Draw)
    requires Inv(b, k) && c in b.sockets && b.sockets[c].session.None? && b.sockets[c].approval.None? && NewDraw(b, draw)
    requires var g := ResumeOf(b.sockets[c].origin, h, sessionId);
      T.Grants(b.resume, b.clock, token, Exactly(g)).Some? && HasPrevious(b.sockets, c, g)
    ensures var after := Resumed(b, k, c, h, token, sessionId, draw.secret);
      var p := Previous(b.sockets, c, ResumeOf(b.sockets[c].origin, h, sessionId));
      Detach(after, p) == after
  {
    hide Inv; hide Resumed; hide Detach; hide T.Grants; hide NewDraw;
    ResumeReplaces(b, k, c, h, token, sessionId, draw);
    ResumeKeepsInv(b, k, c, h, token, sessionId, draw);
    DetachAbsent(Resumed(b, k, c, h, token, sessionId, draw.secret), k,
                 Previous(b.sockets, c, ResumeOf(b.sockets[c].origin, h, sessionId)));
  }

  lemma RegistryTallies(b: Bridge, k: Config)
    requires Inv(b, k)
    ensures b.registry == R.Tallied(b.registry.sessions, b.registry.registrations, b.registry.bytes)
  {
    hide BrokerInv; hide SocketsInv; hide TokensInv; hide R.Sound; hide R.CountAll; hide R.BytesAll;
  }

  lemma LostNothing(b: B.State, c: Uuid)
    requires b.active == B.Counts(b.pending)
    requires forall id :: id in b.pending ==> B.Connection(b.pending[id]) != c
    requires forall t :: t in b.cancelled ==> t.value != c
    ensures B.Lost(b, c) == b
  {
    hide B.Settle; hide B.Counts;
    assert B.Owned(b.pending, c) == {};
    BR.SettleNone(b, B.Rejected(BrowserDisconnected));
    KeepEverything(b.cancelled, B.FromOthers(c));
  }

  lemma {:induction false} KeepEverything<V>(s: seq<Entry<V>>, p: Entry<V> -> bool)
    requires forall e :: e in s ==> p(e)
    ensures Keep(s, p) == s
  {
    if s != [] {
      KeepEverything(s[..|s| - 1], p);
      assert s[|s| - 1] in s;
    }
  }

  /** Repeating a close, or a close after a replacement, changes nothing more. */
  lemma DetachTwice(b: Bridge, k: Config, c: Uuid)
    requires Inv(b, k)
    ensures Detach(Detach(b, c), c) == Detach(b, c)
  {
    hide Inv; hide B.Lost; hide R.Removed;
    DetachKeepsInv(b, k, c);
    DetachAbsent(Detach(b, c), k, c);
  }

  /** Two connections may go away in either order. */
  lemma DetachCommutes(b: Bridge, c: Uuid, d: Uuid)
    ensures Detach(Detach(b, c), d) == Detach(Detach(b, d), c)
  {
    hide R.CountAll; hide R.BytesAll; hide B.Lost;
    LostCommutes(b.broker, c, d);
    assert b.sockets - {c} - {d} == b.sockets - {d} - {c};
    assert b.registry.sessions - {c} - {d} == b.registry.sessions - {d} - {c};
    assert b.registry.registrations - {c} - {d} == b.registry.registrations - {d} - {c};
    assert b.registry.bytes - {c} - {d} == b.registry.bytes - {d} - {c};
  }

  lemma LostCommutes(b: B.State, c: Uuid, d: Uuid)
    ensures B.Lost(B.Lost(b, c), d) == B.Lost(B.Lost(b, d), c)
  {
    hide B.Counts; hide FinishedAll; hide Keep; hide B.Owned; hide B.Lost;
    LostParts(b, c, d);
    LostParts(b, d, c);
    LostTables(b, c, d);
    LostTables(b, d, c);
    KeepSwaps(b.cancelled, B.FromOthers(c), B.FromOthers(d));
    FinishSwaps(b.history, B.Owned(b.pending, c), B.Owned(b.pending, d) - B.Owned(b.pending, c),
                B.Owned(b.pending, d), B.Owned(b.pending, c) - B.Owned(b.pending, d), B.Rejected(BrowserDisconnected));
    assert B.Lost(B.Lost(b, c), d).pending == B.Lost(B.Lost(b, d), c).pending;
    assert B.Lost(B.Lost(b, c), d).verdicts == B.Lost(B.Lost(b, d), c).verdicts;
  }

  /** The calls of neither connection, and the verdicts once the calls of both have ended. */
  lemma LostTables(b: B.State, c: Uuid, d: Uuid)
    ensures var x := B.Lost(B.Lost(b, c), d);
      && x.pending == (map id | id in b.pending && B.Connection(b.pending[id]) != c
        && B.Connection(b.pending[id]) != d :: b.pending[id])
      && x.active == B.Counts(x.pending) && x.outbox == b.outbox && x.clock == b.clock
      && x.verdicts == (map id | id in b.verdicts ::
           if id in b.pending && (B.Connection(b.pending[id]) == c || B.Connection(b.pending[id]) == d)
           then b.verdicts[id] + [B.Rejected(BrowserDisconnected)] else b.verdicts[id])
  {
    hide B.Counts; hide FinishedAll; hide Keep;
  }

  lemma LostParts(b: B.State, c: Uuid, d: Uuid)
    ensures var x, v := B.Lost(B.Lost(b, c), d), B.Rejected(BrowserDisconnected);
      && x.history == FinishedAll(FinishedAll(b.history, B.Owned(b.pending, c), B.OutcomeFor(v), B.ErrorOf(v), B.SummaryOf(v)),
                                  B.Owned(b.pending, d) - B.Owned(b.pending, c), B.OutcomeFor(v), B.ErrorOf(v), B.SummaryOf(v))
      && x.cancelled == Keep(Keep(b.cancelled, B.FromOthers(c)), B.FromOthers(d))
  {
    hide B.Counts; hide FinishedAll; hide Keep;
    var once := B.Lost(b, c);
    assert B.Owned(b.pending, c) * b.pending.Keys == B.Owned(b.pending, c);
    assert B.Owned(once.pending, d) * once.pending.Keys == B.Owned(b.pending, d) - B.Owned(b.pending, c);
  }

  lemma FinishSwaps(h: History, a: set<Uuid>, b: set<Uuid>, c: set<Uuid>, d: set<Uuid>, v: B.Verdict)
    requires a + b == c + d
    ensures var o, e, r := B.OutcomeFor(v), B.ErrorOf(v), B.SummaryOf(v);
      FinishedAll(FinishedAll(h, a, o, e, r), b, o, e, r) == FinishedAll(FinishedAll(h, c, o, e, r), d, o, e, r)
  {
    var o, e, r := B.OutcomeFor(v), B.ErrorOf(v), B.SummaryOf(v);
    var x := FinishedAll(FinishedAll(h, a, o, e, r), b, o, e, r);
    var y := FinishedAll(FinishedAll(h, c, o, e, r), d, o, e, r);
    forall i | i in h.requests ensures x.requests[i] == y.requests[i] {
      assert i in a + b <==> i in c + d;
    }
    assert x.requests == y.requests;
  }

  lemma {:induction false} KeepSwaps<V>(s: seq<Entry<V>>, p: Entry<V> -> bool, q: Entry<V> -> bool)
    ensures Keep(Keep(s, p), q) == Keep(Keep(s, q), p)
  {
    if s != [] {
      var front, last := s[..|s| - 1], s[|s| - 1];
      KeepSwaps(front, p, q);
      KeepLast(Keep(front, p), last, q);
      KeepLast(Keep(front, q), last, p);
    }
  }

  // ----- Spent session ids -----

  /** The id was drawn some time, and no grant for it is left. */
  ghost predicate Spent(b: Bridge, id: Uuid) {
    id in b.used && forall e :: e in b.resume ==> e.value.sessionId != id
  }

  /** No grant for the id has come back, and the sessions that have it are old ones. */
  ghost predicate NotRevived(b: Bridge, after: Bridge, id: Uuid) {
    && b.used <= after.used && Spent(after, id)
    && forall c :: c in after.registry.sessions && after.registry.sessions[c].sessionId == id ==>
         c in b.registry.sessions && b.registry.sessions[c] == after.registry.sessions[c]
  }

  lemma StillNotRevived(a: Bridge, b: Bridge, c: Bridge, id: Uuid)
    requires NotRevived(a, b, id) && NotRevived(b, c, id)
    ensures NotRevived(a, c, id)
  {
  }

  /** Steps that begin no session and make no grant. */
  lemma QuietStep(b: Bridge, after: Bridge, id: Uuid)
    requires Spent(b, id) && after.used == b.used && after.registry.sessions == b.registry.sessions
    requires forall e :: e in after.resume ==> e in b.resume
    ensures NotRevived(b, after, id)
  {
  }

  lemma EstablishRevivesNoOther(b: Bridge, k: Config, session: Session, secret: Uuid, id: Uuid)
    requires Inv(b, k) && MayBegin(b, session, secret) && Spent(b, id) && session.sessionId != id
    ensures NotRevived(b, Established(b, k, session, secret), id)
  {
    hide R.Conflicts; hide R.Added; hide HasKey; hide NoSession; hide T.Issued; hide T.Revoked; hide Inv; hide Pairwise;
    if !R.Conflicts(b.registry.sessions, session) {
      AddedSessions(b.registry, session);
      TokensAreSound(b, k);
      RegrantedMembers(b.resume, k, b.clock, session, secret);
    }
  }

  lemma TokensAreSound(b: Bridge, k: Config)
    requires Inv(b, k)
    ensures T.Inv(b.resume, TOKEN_CAP, k.resumeTokenTtlMs, b.clock) && Pairwise(b.resume, DifferentSession())
  {
    hide R.Inv; hide BrokerInv; hide SocketsInv; hide DistinctSessions; hide T.Inv; hide Pairwise;
  }

  lemma DetachRevivesNone(b: Bridge, c: Uuid, id: Uuid)
    requires Spent(b, id)
    ensures NotRevived(b, Detach(b, c), id)
  {
    hide B.Lost; hide R.Removed;
    RemovedSessions(b.registry, c);
  }

  lemma ResumeRevivesNoOther(b: Bridge, k: Config, c: Uuid, h: Hello, token: Uuid, sessionId: Uuid, draw: Draw,
                             id: Uuid)
    requires Inv(b, k) && c in b.sockets && b.sockets[c].session.None? && b.sockets[c].approval.None?
      && NewDraw(b, draw)
    requires Spent(b, id)
    ensures NotRevived(b, Resumed(b, k, c, h, token, sessionId, draw.secret), id)
  {
    hide Inv; hide T.Grants; hide T.AfterConsume; hide Established; hide HasKey; hide Matches; hide NoSession;
    hide Detach;
    hide NotRevived;
    var g := ResumeOf(b.sockets[c].origin, h, sessionId);
    var left := b.(resume := T.AfterConsume(b.resume, b.clock, token, Exactly(g)));
    ConsumeKeepsInv(b, k, token, Exactly(g));
    SubsetHasNoKey(b.resume, left.resume, draw.secret);
    QuietStep(b, left, id);
    if T.Grants(b.resume, b.clock, token, Exactly(g)).None? {
      QuietStep(b, Shut(left, c), id);
    } else {
      GrantedFacts(b, k, token, g);
      RetireFacts(left, k, c, g);
      if HasPrevious(left.sockets, c, g) {
        DetachRevivesNone(left, Previous(left.sockets, c, g), id);
      }
      var retired := Retired(left, c, g);
      SpentAgain(left, retired, id);
      EstablishRevivesNoOther(retired, k, SessionFor(c, b.sockets[c].origin, h, sessionId), draw.secret, id);
      StillNotRevived(b, retired, Established(retired, k, SessionFor(c, b.sockets[c].origin, h, sessionId), draw.secret), id) by {
        if HasPrevious(left.sockets, c, g) {
          StillNotRevived(b, left, retired, id);
        }
      }
    }
  }

  lemma SpentAgain(b: Bridge, after: Bridge, id: Uuid)
    requires Spent(b, id) && after.resume == b.resume && after.used == b.used
    ensures Spent(after, id)
  {
  }

  lemma PairRevivesNone(b: Bridge, k: Config, c: Uuid, h: Hello, token: Uuid, draw: Draw, id: Uuid)
    requires Inv(b, k) && c in b.sockets && b.sockets[c].session.None? && b.sockets[c].approval.None?
      && NewDraw(b, draw)
    requires Spent(b, id) && id != draw.sessionId
    ensures NotRevived(b, Paired(b, k, c, h, token, draw), id)
  {
    hide Inv; hide T.Grants; hide T.AfterConsume; hide Established; hide HasKey; hide NoSession; hide NotRevived;
    var origin := b.sockets[c].origin;
    var left := b.(pairing := T.AfterConsume(b.pairing, b.clock, token, FromOrigin(origin)));
    ConsumePairingKeepsInv(b, k, token, FromOrigin(origin));
    QuietStep(b, left, id);
    if T.Grants(b.pairing, b.clock, token, FromOrigin(origin)).None? {
      QuietStep(b, Shut(left, c), id);
    } else {
      SpentAgain(b, left, id);
      var session := SessionFor(c, origin, h, draw.sessionId);
      EstablishRevivesNoOther(left, k, session, draw.secret, id);
      StillNotRevived(b, left, Established(left, k, session, draw.secret), id);
    }
  }

  lemma ConnectRevivesNone(b: Bridge, k: Config, c: Uuid, h: Hello, draw: Draw, id: Uuid)
    requires Inv(b, k) && c in b.sockets && b.sockets[c].session.None? && b.sockets[c].approval.None?
      && NewDraw(b, draw)
    requires Spent(b, id) && id != draw.sessionId
    ensures NotRevived(b, Connected(b, k, c, h, draw), id)
  {
    hide Inv; hide Welcome; hide Resumed; hide Paired; hide NotRevived; hide MayAsk;
    if !Welcome(b.sockets[c].origin, h) {
      QuietStep(b, Shut(b, c), id);
    } else {
      match h.auth
      case WithApproval =>
        var a := Approval(draw.requestId, h.appId, h.runtimeId, h.instanceId, b.clock + k.pairingTokenTtlMs);
        QuietStep(b, Asked(b, k, c, a), id);
      case WithResume(token, sessionId) => ResumeRevivesNoOther(b, k, c, h, token, sessionId, draw, id);
      case WithPairing(token) => PairRevivesNone(b, k, c, h, token, draw, id);
    }
  }

  lemma InSessionRevivesNone(b: Bridge, k: Config, c: Uuid, session: Session, m: Message, id: Uuid)
    requires Spent(b, id)
    ensures NotRevived(b, InSession(b, k, c, session, m), id)
  {
    hide B.Step; hide R.Registered; hide R.Unregistered; hide NotRevived;
    if m.Register? {
      RegistrationsKeepSessions(b.registry, k.registry, c, m.registration, "");
    } else if m.Unregister? {
      RegistrationsKeepSessions(b.registry, k.registry, c, Registration("", Tool, "", [], None), m.registrationId);
    }
    KeepMembers(b.resume, T.NotAccepted(ForSession(session.sessionId)));
    QuietStep(b, InSession(b, k, c, session, m), id);
  }

  lemma ReceiveRevivesNone(b: Bridge, k: Config, c: Uuid, m: Message, draw: Draw, id: Uuid)
    requires Inv(b, k) && NewDraw(b, draw) && Spent(b, id) && id != draw.sessionId
    ensures NotRevived(b, Received(b, k, c, m, draw), id)
  {
    hide Inv; hide NewDraw; hide Connected; hide InSession; hide NotRevived;
    QuietStep(b, Shut(b, c), id);
    QuietStep(b, b, id);
    if c in b.sockets {
      match b.sockets[c].session
      case None =>
        if b.sockets[c].approval.None? && m.Connect? {
          ConnectRevivesNone(b, k, c, m.hello, draw, id);
        }
      case Some(session) => InSessionRevivesNone(b, k, c, session, m, id);
    }
  }

  lemma DecideRevivesNone(b: Bridge, k: Config, requestId: Uuid, approve: bool, draw: Draw, id: Uuid)
    requires Inv(b, k) && NewDraw(b, draw) && Spent(b, id) && id != draw.sessionId
    ensures NotRevived(b, Decided(b, k, requestId, approve, draw), id)
  {
    hide Inv; hide Established; hide HasKey; hide NoSession; hide UnusedRequest; hide NotRevived;
    QuietStep(b, b, id);
    if HasApplicant(b.sockets, requestId) {
      var c := Applicant(b.sockets, requestId);
      var s := b.sockets[c];
      WithdrawnFacts(b, k, c);
      QuietStep(b, Expired(b, c), id);
      QuietStep(b, Withdrawn(b, c), id);
      QuietStep(b, Shut(Withdrawn(b, c), c), id);
      SpentAgain(b, Withdrawn(b, c), id);
      var session := SessionAsked(c, s.origin, s.approval.value, draw.sessionId);
      EstablishRevivesNoOther(Withdrawn(b, c), k, session, draw.secret, id);
      StillNotRevived(b, Withdrawn(b, c), Established(Withdrawn(b, c), k, session, draw.secret), id);
    }
  }

  /** No step gives a session id that has no grant left to a connection that did not have it. */
  lemma StepRevivesNone(b: Bridge, k: Config, now: nat, a: Action, id: Uuid)
    requires Inv(b, k) && Possible(b, now, a) && Spent(b, id)
    ensures NotRevived(b, Step(b, k, now, a), id)
  {
    hide Act; hide Inv; hide Received; hide Decided; hide NewDraw; hide NotRevived; hide Detach;
    var at := Ticked(b, now, Drawn(a));
    TickKeepsInv(b, k, now, Drawn(a));
    var after := Act(at, k, a);
    SpentLater(b, now, Drawn(a), id);
    NamedActs(at, k, a);
    match a
    case Receive(c, m, draw) =>
      DrawIsNew(b, k, now, Drawn(a), draw);
      ReceiveRevivesNone(at, k, c, m, draw, id);
    case Decide(requestId, approve, draw) =>
      DrawIsNew(b, k, now, Drawn(a), draw);
      DecideRevivesNone(at, k, requestId, approve, draw, id);
    case SocketClosed(c) => DetachRevivesNone(at, c, id);
    case _ =>
      OtherActs(at, k, a);
      QuietStep(at, after, id);
  }

  lemma NamedActs(b: Bridge, k: Config, a: Action)
    ensures a.Receive? ==> Act(b, k, a) == Received(b, k, a.connectionId, a.message, a.draw)
    ensures a.Decide? ==> Act(b, k, a) == Decided(b, k, a.requestId, a.approve, a.draw)
    ensures a.SocketClosed? ==> Act(b, k, a) == Detach(b, a.connectionId)
  {
    hide Received; hide Decided; hide Detach; hide B.Step; hide T.Issued;
  }

  /** Everything but a message, a decision or a close leaves sessions and grants alone. */
  lemma OtherActs(b: Bridge, k: Config, a: Action)
    requires !a.Receive? && !a.Decide? && !a.SocketClosed?
    ensures var after := Act(b, k, a);
      after.used == b.used && after.registry == b.registry && after.resume == b.resume
  {
    hide B.Step; hide T.Issued; hide Resolves; hide Resolved; hide Received; hide Decided; hide Detach;
  }

  lemma SpentLater(b: Bridge, now: nat, ids: set<Uuid>, id: Uuid)
    requires Spent(b, id)
    ensures Spent(Ticked(b, now, ids), id)
    ensures forall after :: NotRevived(Ticked(b, now, ids), after, id) ==> NotRevived(b, after, id)
  {
  }

  /** Over every later run, a session id without a grant never gets a new connection. */
  lemma {:induction false} SpentForever(b: Bridge, k: Config, run: seq<Timed>, id: Uuid)
    requires Inv(b, k) && PossibleRun(b, k, run) && Spent(b, id)
    ensures NotRevived(b, After(b, k, run), id)
    decreases |run|
  {
    hide Inv; hide Step; hide Possible;
    if run != [] {
      var next := Step(b, k, run[0].now, run[0].action);
      StepKeepsInv(b, k, run[0].now, run[0].action);
      StepRevivesNone(b, k, run[0].now, run[0].action, id);
      SpentForever(next, k, run[1..], id);
    }
  }

  /** A browser that leaves for good spends its session id, and its socket is shut. */
  lemma LeavingForGoodSpends(b: Bridge, k: Config, now: nat, c: Uuid, claimed: Option<Uuid>, draw: Draw)
    requires Inv(b, k) && c in b.sockets && b.sockets[c].session.Some?
    requires claimed.Some? ==> claimed.value == b.sockets[c].session.value.sessionId
    ensures var after := Step(b, k, now, Receive(c, Disconnect(claimed, false), draw));
      Spent(after, b.sockets[c].session.value.sessionId) && c in after.sockets && !after.sockets[c].open
  {
    hide R.Inv; hide BrokerInv; hide TokensInv; hide Approvals;
    var sid := b.sockets[c].session.value.sessionId;
    KeepMembers(b.resume, T.NotAccepted(ForSession(sid)));
  }

  /** So does a resume that is refused because the runtime has another session by now. */
  lemma RefusedResumeSpends(b: Bridge, k: Config, c: Uuid, h: Hello, token: Uuid, sessionId: Uuid, secret: Uuid)
    requires Inv(b, k) && c in b.sockets && b.sockets[c].session.None?
    requires var g := ResumeOf(b.sockets[c].origin, h, sessionId);
      T.Grants(b.resume, b.clock, token, Exactly(g)).Some? && OccupiedByAnother(b.registry.sessions, g)
    ensures Spent(Resumed(b, k, c, h, token, sessionId, secret), sessionId)
    ensures Resumed(b, k, c, h, token, sessionId, secret).registry.sessions == b.registry.sessions
  {
    hide Inv; hide T.Grants; hide T.AfterConsume; hide Matches; hide R.Conflicts; hide Detach; hide OccupiedByAnother;
    var g := ResumeOf(b.sockets[c].origin, h, sessionId);
    GrantedFacts(b, k, token, g);
    ConsumedIsGone(b, k, token, g);
    var left := b.(resume := T.AfterConsume(b.resume, b.clock, token, Exactly(g)));
    ConsumeKeepsInv(b, k, token, Exactly(g));
    RetireFacts(left, k, c, g);
    ResumeConflictsExactlyWhen(left, k, c, g);
  }

  /** The grant was the only one for its session. */
  lemma ConsumedIsGone(b: Bridge, k: Config, token: Uuid, g: Grant)
    requires Inv(b, k) && T.Grants(b.resume, b.clock, token, Exactly(g)).Some?
    ensures forall e :: e in T.AfterConsume(b.resume, b.clock, token, Exactly(g)) ==> e.value.sessionId != g.sessionId
  {
    hide Inv; hide Pairwise; hide DifferentSession;
    TokensAreSound(b, k);
    KeepMembers(b.resume, OtherKey<Grant>(token));
    var found := Lookup(b.resume, token).value;
    forall e | e in Without(b.resume, token) ensures e.value.sessionId != g.sessionId {
      TwoGrants(b.resume, found, e);
    }
  }

  lemma TwoGrants(s: seq<Entry<Grant>>, d: Entry<Grant>, e: Entry<Grant>)
    requires Pairwise(s, DifferentSession()) && d in s && e in s && d != e
    ensures d.value.sessionId != e.value.sessionId
  {
    var i :| 0 <= i < |s| && s[i] == d;
    var j :| 0 <= j < |s| && s[j] == e;
    if i < j {
      PairwiseAt(s, i, j);
    } else {
      PairwiseAt(s, j, i);
    }
  }
}
