/** What every step of the Bridge keeps. */
module GatewayLaws {
  import opened Common
  import opened Capabilities
  import opened Sequences
  import opened Expiring
  import opened RecentRequests
  import opened GatewayModel
  import B = BrokerModel
  import BL = BrokerLaws
  import R = RegistryModel
  import RL = RegistryLaws
  import T = Tokens

  // ----- Sockets -----

  ghost predicate SameShape(s: map<Uuid, Socket>, t: map<Uuid, Socket>) {
    && s.Keys == t.Keys
    && forall c :: c in s ==>
         s[c].origin == t[c].origin && s[c].approval == t[c].approval && s[c].session == t[c].session
  }

  /** Closing sockets changes nothing that the invariant looks at. */
  lemma ShapeKeepsSockets(s: map<Uuid, Socket>, t: map<Uuid, Socket>, sessions: map<Uuid, Session>, used: set<Uuid>,
                          k: Config)
    requires SocketsInv(s, sessions, used, k) && SameShape(s, t)
    ensures SocketsInv(t, sessions, used, k)
  {
    assert |s.Keys| == |t.Keys|;
    assert SessionsOf(t) == SessionsOf(s);
    assert Awaiting(t) == Awaiting(s);
    forall origin ensures AwaitingAt(t, origin) == AwaitingAt(s, origin) {
    }
  }

  lemma ShutKeepsInv(b: Bridge, k: Config, c: Uuid)
    requires Inv(b, k)
    ensures Inv(Shut(b, c), k)
  {
    hide SocketsInv; hide BrokerInv; hide TokensInv; hide R.Inv;
    if c in b.sockets {
      ShapeKeepsSockets(b.sockets, Shut(b, c).sockets, b.registry.sessions, b.used, k);
    }
  }

  lemma FewerAwait(s: map<Uuid, Socket>, t: map<Uuid, Socket>, origin: string)
    requires t.Keys <= s.Keys && forall c :: c in t && t[c].approval.Some? ==> t[c] == s[c]
    ensures |Awaiting(t)| <= |Awaiting(s)| && |AwaitingAt(t, origin)| <= |AwaitingAt(s, origin)|
  {
    BL.SubsetSize(Awaiting(t), Awaiting(s));
    BL.SubsetSize(AwaitingAt(t, origin), AwaitingAt(s, origin));
  }

  lemma FewerApprovals(s: map<Uuid, Socket>, t: map<Uuid, Socket>, k: Config)
    requires Approvals(s, k) && t.Keys <= s.Keys && forall c :: c in t && t[c].approval.Some? ==> t[c] == s[c]
    ensures Approvals(t, k)
  {
    FewerAwait(s, t, "");
    forall origin ensures |AwaitingAt(t, origin)| <= 3 {
      FewerAwait(s, t, origin);
    }
    assert Awaiting(t) <= Awaiting(s);
  }

  lemma SessionsAfter(s: map<Uuid, Socket>, c: Uuid, x: Socket)
    ensures SessionsOf(s - {c}) == SessionsOf(s) - {c}
    ensures x.session.Some? ==> SessionsOf(s[c := x]) == SessionsOf(s)[c := x.session.value]
    ensures x.session.None? && c !in SessionsOf(s) ==> SessionsOf(s[c := x]) == SessionsOf(s)
    ensures c in s && x.session == s[c].session ==> SessionsOf(s[c := x]) == SessionsOf(s)
    ensures c in SessionsOf(s) <==> c in s && s[c].session.Some?
  {
  }

  lemma SizesAfter(s: map<Uuid, Socket>, c: Uuid, x: Socket)
    ensures |s - {c}| <= |s| && |s[c := x]| == if c in s then |s| else |s| + 1
  {
    BL.SubsetSize((s - {c}).Keys, s.Keys);
    assert c in s ==> s[c := x].Keys == s.Keys;
  }

  /** A socket that keeps to the rules by itself. */
  ghost predicate Orderly(c: Uuid, x: Socket, used: set<Uuid>) {
    && c in used
    && (x.session.Some? ==> x.session.value.origin == x.origin && x.session.value.sessionId in used)
    && (x.approval.Some? ==> x.approval.value.requestId in used)
  }

  lemma OrderlySockets(s: map<Uuid, Socket>, c: Uuid, x: Socket, used: set<Uuid>)
    requires OriginsAgree(s) && KnownSockets(s, used)
    ensures OriginsAgree(s - {c}) && KnownSockets(s - {c}, used)
    ensures Orderly(c, x, used) ==> OriginsAgree(s[c := x]) && KnownSockets(s[c := x], used)
    ensures c in s ==> Orderly(c, s[c], used)
  {
  }

  lemma UpdateKeepsSockets(s: map<Uuid, Socket>, c: Uuid, x: Socket, sessions: map<Uuid, Session>, used: set<Uuid>,
                           k: Config)
    requires SocketsInv(s, sessions, used, k) && Orderly(c, x, used) && Approvals(s[c := x], k)
    requires c in s || |s| < k.maxBrowserConnections
    ensures SocketsInv(s[c := x], SessionsOf(s[c := x]), used, k)
  {
    hide SessionsOf; hide OriginsAgree; hide KnownSockets; hide Approvals; hide Orderly;
    SizesAfter(s, c, x);
    OrderlySockets(s, c, x, used);
  }

  lemma DetachKeepsSockets(s: map<Uuid, Socket>, c: Uuid, sessions: map<Uuid, Session>, used: set<Uuid>, k: Config)
    requires SocketsInv(s, sessions, used, k)
    ensures SocketsInv(s - {c}, sessions - {c}, used, k)
  {
    hide SessionsOf; hide OriginsAgree; hide KnownSockets; hide Approvals; hide Orderly;
    var any := Socket("", false, None, None);
    FewerApprovals(s, s - {c}, k);
    SizesAfter(s, c, any);
    SessionsAfter(s, c, any);
    OrderlySockets(s, c, any, used);
  }

  lemma SocketIsOrderly(s: map<Uuid, Socket>, c: Uuid, sessions: map<Uuid, Session>, used: set<Uuid>, k: Config)
    requires SocketsInv(s, sessions, used, k) && c in s
    ensures Orderly(c, s[c], used) && sessions == SessionsOf(s) && Approvals(s, k)
  {
    hide SessionsOf; hide Approvals;
  }

  lemma SessionKeepsSockets(s: map<Uuid, Socket>, c: Uuid, session: Session, sessions: map<Uuid, Session>,
                            used: set<Uuid>, k: Config)
    requires SocketsInv(s, sessions, used, k) && c in s && s[c].session.None? && s[c].approval.None?
    requires session.origin == s[c].origin && session.sessionId in used
    ensures SocketsInv(s[c := s[c].(session := Some(session))], sessions[c := session], used, k)
    ensures c !in sessions
  {
    hide SessionsOf; hide Approvals; hide SocketsInv;
    var x := s[c].(session := Some(session));
    SocketIsOrderly(s, c, sessions, used, k);
    SessionsAfter(s, c, x);
    FewerApprovals(s, s[c := x], k);
    UpdateKeepsSockets(s, c, x, sessions, used, k);
  }

  lemma WithdrawKeepsSockets(s: map<Uuid, Socket>, c: Uuid, sessions: map<Uuid, Session>, used: set<Uuid>, k: Config)
    requires SocketsInv(s, sessions, used, k) && c in s
    ensures SocketsInv(s[c := s[c].(approval := None)], sessions, used, k)
  {
    hide SessionsOf; hide Approvals; hide SocketsInv;
    var x := s[c].(approval := None);
    SocketIsOrderly(s, c, sessions, used, k);
    SessionsAfter(s, c, x);
    FewerApprovals(s, s[c := x], k);
    UpdateKeepsSockets(s, c, x, sessions, used, k);
  }

  lemma OneMoreAwaits(s: map<Uuid, Socket>, c: Uuid, a: Approval, origin: string)
    requires c in s && s[c].approval.None?
    ensures var t := s[c := s[c].(approval := Some(a))];
      && Awaiting(t) == Awaiting(s) + {c} && c !in Awaiting(s)
      && AwaitingAt(t, origin) == if s[c].origin == origin then AwaitingAt(s, origin) + {c} else AwaitingAt(s, origin)
  {
  }

  lemma AskKeepsBounds(s: map<Uuid, Socket>, c: Uuid, a: Approval, k: Config)
    requires Approvals(s, k) && c in s && s[c].approval.None? && MayAsk(s, k, s[c].origin, a)
    ensures var t := s[c := s[c].(approval := Some(a))];
      |Awaiting(t)| <= MaxAwaiting(k.maxBrowserConnections) && forall origin :: |AwaitingAt(t, origin)| <= 3
  {
    hide Awaiting; hide AwaitingAt; hide AlreadyAsked;
    var t := s[c := s[c].(approval := Some(a))];
    OneMoreAwaits(s, c, a, "");
    forall origin ensures |AwaitingAt(t, origin)| <= 3 {
      OneMoreAwaits(s, c, a, origin);
    }
  }

  ghost predicate UnusedRequest(s: map<Uuid, Socket>, requestId: Uuid) {
    forall c :: c in Awaiting(s) ==> s[c].approval.value.requestId != requestId
  }

  /** The new request differs from every other one. */
  lemma AskIsNew(s: map<Uuid, Socket>, c: Uuid, a: Approval, k: Config, d: Uuid)
    requires c in s && MayAsk(s, k, s[c].origin, a) && UnusedRequest(s, a.requestId) && d in Awaiting(s)
    ensures !(s[d].origin == s[c].origin && SameApplicant(s[d].approval.value, a))
      && s[d].approval.value.requestId != a.requestId
  {
    assert s[d].origin == s[c].origin ==> d in AwaitingAt(s, s[c].origin);
  }

  lemma AskKeepsApprovals(s: map<Uuid, Socket>, c: Uuid, a: Approval, k: Config)
    requires Approvals(s, k) && c in s && s[c].approval.None? && s[c].session.None? && MayAsk(s, k, s[c].origin, a)
    requires UnusedRequest(s, a.requestId)
    ensures Approvals(s[c := s[c].(approval := Some(a))], k)
  {
    hide MayAsk; hide UnusedRequest; hide AwaitingAt; hide SameApplicant;
    var t := s[c := s[c].(approval := Some(a))];
    AskKeepsBounds(s, c, a, k);
    SameApplicantFlips(a);
    forall d | d in Awaiting(s)
      ensures !(s[d].origin == s[c].origin && SameApplicant(s[d].approval.value, a))
        && s[d].approval.value.requestId != a.requestId
    {
      AskIsNew(s, c, a, k, d);
    }
    OneMoreAwaits(s, c, a, "");
  }

  lemma SameApplicantFlips(a: Approval)
    ensures forall d: Approval :: SameApplicant(a, d) ==> SameApplicant(d, a)
  {
  }

  lemma AskKeepsSockets(s: map<Uuid, Socket>, c: Uuid, a: Approval, sessions: map<Uuid, Session>, used: set<Uuid>,
                        k: Config)
    requires SocketsInv(s, sessions, used, k) && c in s && s[c].approval.None? && s[c].session.None?
    requires MayAsk(s, k, s[c].origin, a) && UnusedRequest(s, a.requestId) && a.requestId in used
    ensures SocketsInv(s[c := s[c].(approval := Some(a))], sessions, used, k)
  {
    hide SessionsOf; hide Approvals; hide SocketsInv; hide MayAsk; hide UnusedRequest;
    var x := s[c].(approval := Some(a));
    SocketIsOrderly(s, c, sessions, used, k);
    SessionsAfter(s, c, x);
    AskKeepsApprovals(s, c, a, k);
    UpdateKeepsSockets(s, c, x, sessions, used, k);
  }

  lemma NewSocketAwaitsNothing(s: map<Uuid, Socket>, c: Uuid, origin: string, k: Config)
    requires Approvals(s, k) && c !in s
    ensures Approvals(s[c := Socket(origin, true, None, None)], k)
  {
    var t := s[c := Socket(origin, true, None, None)];
    assert Awaiting(t) == Awaiting(s);
    forall at ensures AwaitingAt(t, at) == AwaitingAt(s, at) {
    }
  }

  lemma UpgradeKeepsSockets(s: map<Uuid, Socket>, c: Uuid, origin: string, sessions: map<Uuid, Session>,
                            used: set<Uuid>, k: Config)
    requires SocketsInv(s, sessions, used, k) && c !in s && c in used && |s| < k.maxBrowserConnections
    ensures SocketsInv(s[c := Socket(origin, true, None, None)], sessions, used, k)
  {
    hide SessionsOf; hide Approvals;
    var x := Socket(origin, true, None, None);
    SessionsAfter(s, c, x);
    NewSocketAwaitsNothing(s, c, origin, k);
    UpdateKeepsSockets(s, c, x, sessions, used, k);
  }

  // ----- The broker's work -----

  /** No call and no tombstone appears for a connection that had no call before. */
  ghost predicate NoNewWork(before: B.State, after: B.State, now: nat) {
    && after.verdicts.Keys == before.verdicts.Keys
    && (after.clock == before.clock || after.clock == now)
    && (forall id :: id in after.pending ==> id in before.pending && after.pending[id] == before.pending[id])
    && (forall t :: t in after.cancelled ==>
          t in before.cancelled || exists id :: id in before.pending && B.Connection(before.pending[id]) == t.value)
  }

  lemma AnswerBringsNoWork(b: B.State, now: nat, c: Uuid, id: Uuid, v: B.Verdict)
    ensures NoNewWork(b, B.Answered(b, now, c, id, v), now)
  {
    hide B.Counts; hide FinishedAll; hide Keep;
    KeepMembers(b.cancelled, IsLive(now));
    KeepMembers(Live(b.cancelled, now), OtherKey(id));
  }

  lemma InterruptBringsNoWork(b: B.State, limits: B.Limits, now: nat, id: Uuid, code: ErrorCode, sent: bool)
    ensures NoNewWork(b, B.Interrupted(b, limits, now, id, code, sent), now)
  {
    hide B.Counts; hide FinishedAll; hide Keep; hide Room;
    KeepMembers(b.cancelled, IsLive(now));
    RoomMembers(Live(b.cancelled, now), B.TombstoneLimit(limits));
  }

  lemma RoomMembers<V>(s: seq<Entry<V>>, cap: nat)
    requires cap >= 1
    ensures forall e :: e in Room(s, cap) ==> e in s
  {
  }

  lemma LossBringsNoWork(b: B.State, c: Uuid)
    ensures NoNewWork(b, B.Lost(b, c), b.clock) && NoNewWork(b, B.Stopped(b), b.clock)
    ensures forall id :: id in B.Lost(b, c).pending ==> B.Connection(b.pending[id]) != c
    ensures forall t :: t in B.Lost(b, c).cancelled ==> t in b.cancelled && t.value != c
  {
    hide B.Counts; hide FinishedAll; hide Keep;
    KeepMembers(b.cancelled, B.FromOthers(c));
  }

  lemma NoNewWorkKeepsInv(before: B.State, after: B.State, sessions: map<Uuid, Session>, used: set<Uuid>, clock: nat,
                          k: Config)
    requires BrokerInv(before, sessions, used, clock, k) && B.Inv(after, k.broker) && NoNewWork(before, after, clock)
    ensures BrokerInv(after, sessions, used, clock, k)
  {
    hide B.Inv;
  }

  lemma InvokeWork(b: B.State, limits: B.Limits, id: Uuid, kind: Kind, provider: Capability, aborted: bool, sent: bool)
    ensures var after := B.Invoked(b, limits, id, kind, provider, aborted, sent);
      && after.verdicts.Keys <= b.verdicts.Keys + {id} && after.clock == b.clock && after.cancelled == b.cancelled
      && forall i :: i in after.pending ==>
           || (i in b.pending && after.pending[i] == b.pending[i])
           || B.Connection(after.pending[i]) == provider.session.connectionId
  {
    hide B.Counts; hide FinishedAll; hide Started; hide B.Refusal;
  }

  lemma InvokeKeepsInv(b: B.State, sessions: map<Uuid, Session>, used: set<Uuid>, clock: nat, k: Config,
                       id: Uuid, kind: Kind, provider: Capability, aborted: bool, sent: bool)
    requires BrokerInv(b, sessions, used, clock, k) && id in used && id !in b.verdicts
    requires provider.session.connectionId in sessions
    ensures BrokerInv(B.Invoked(b, k.broker, id, kind, provider, aborted, sent), sessions, used, clock, k)
  {
    hide B.Inv; hide B.Invoked;
    BL.InvokeKeepsInv(b, k.broker, id, kind, provider, aborted, sent);
    InvokeWork(b, k.broker, id, kind, provider, aborted, sent);
  }

  /** Answers, timers and aborted callers. */
  ghost predicate EndsACall(e: B.Event) {
    e.ResultMessage? || e.ErrorMessage? || e.CancelFromBrowser? || e.TimerFired? || e.SignalAborted? || e.Stop?
  }

  lemma EndBringsNoWork(b: B.State, limits: B.Limits, now: nat, e: B.Event)
    requires EndsACall(e)
    ensures NoNewWork(b, B.Step(b, limits, now, e), now)
  {
    hide B.Answered; hide B.Interrupted; hide B.Stopped; hide NoNewWork;
    match e
    case ResultMessage(c, id, output) => AnswerBringsNoWork(b, now, c, id, B.ResultVerdict(b, id, output));
    case ErrorMessage(c, id, code) => AnswerBringsNoWork(b, now, c, id, B.Rejected(B.CodeFromBrowser(code)));
    case CancelFromBrowser(c, id) => AnswerBringsNoWork(b, now, c, id, B.Rejected(Cancelled));
    case TimerFired(id, sent) => InterruptBringsNoWork(b, limits, now, id, TimedOut, sent);
    case SignalAborted(id, sent) => InterruptBringsNoWork(b, limits, now, id, Cancelled, sent);
    case Stop =>
      LossBringsNoWork(b, 0);
      StoppedClock(b, now);
  }

  lemma StoppedClock(b: B.State, now: nat)
    requires NoNewWork(b, B.Stopped(b), b.clock)
    ensures NoNewWork(b, B.Stopped(b), now)
  {
    hide B.Counts; hide FinishedAll;
  }

  lemma EndKeepsInv(b: Bridge, k: Config, e: B.Event)
    requires Inv(b, k) && EndsACall(e)
    ensures Inv(Answered(b, k, e), k)
  {
    hide R.Inv; hide SocketsInv; hide TokensInv; hide NoNewWork; hide B.Step; hide B.Inv;
    BL.StepKeepsInv(b.broker, k.broker, b.clock, e);
    EndBringsNoWork(b.broker, k.broker, b.clock, e);
    NoNewWorkKeepsInv(b.broker, B.Step(b.broker, k.broker, b.clock, e), b.registry.sessions, b.used, b.clock, k);
  }

  lemma LossKeepsWork(b: B.State, c: Uuid, sessions: map<Uuid, Session>, used: set<Uuid>, clock: nat, k: Config)
    requires BrokerInv(b, sessions, used, clock, k)
    ensures BrokerInv(B.Lost(b, c), sessions - {c}, used, clock, k)
  {
    hide B.Inv; hide B.Lost;
    BL.LostKeepsInv(b, k.broker, c);
    LossBringsNoWork(b, c);
  }

  // ----- Tokens -----

  lemma RoomPairwise<V>(s: seq<Entry<V>>, cap: nat, related: (Entry<V>, Entry<V>) -> bool)
    requires cap >= 1 && Pairwise(s, related)
    ensures Pairwise(Room(s, cap), related)
  {
    var r := Room(s, cap);
    var first := |s| - |r|;
    forall i, j | 0 <= i < j < |r| ensures related(r[i], r[j]) {
      assert related(s[first + i], s[first + j]);
    }
  }

  lemma FilterKeepsTokens(b: Bridge, k: Config, p: Entry<Grant> -> bool)
    requires Inv(b, k)
    ensures Inv(b.(resume := Keep(b.resume, p)), k)
  {
    hide R.Inv; hide SocketsInv; hide BrokerInv; hide DistinctSessions; hide T.Inv;
    T.FilterKeepsInv(b.resume, TOKEN_CAP, k.resumeTokenTtlMs, b.clock, b.clock, p);
    KeepPairwise(b.resume, p, DifferentSession());
    KeepMembers(b.resume, p);
  }

  lemma FilterKeepsPairing(b: Bridge, k: Config, p: Entry<string> -> bool)
    requires Inv(b, k)
    ensures Inv(b.(pairing := Keep(b.pairing, p)), k)
  {
    hide R.Inv; hide SocketsInv; hide BrokerInv; hide DistinctSessions; hide T.Inv; hide GrantsFit;
    T.FilterKeepsInv(b.pairing, TOKEN_CAP, k.pairingTokenTtlMs, b.clock, b.clock, p);
    KeepMembers(b.pairing, p);
  }

  lemma IssuePairingKeepsInv(b: Bridge, k: Config, origin: string, secret: Uuid)
    requires Inv(b, k) && secret in b.used && !HasKey(b.pairing, secret)
    ensures Inv(b.(pairing := T.Issued(b.pairing, TOKEN_CAP, k.pairingTokenTtlMs, b.clock, secret, origin)), k)
  {
    hide R.Inv; hide SocketsInv; hide BrokerInv; hide DistinctSessions; hide T.Inv; hide GrantsFit; hide HasKey;
    hide T.Issued;
    T.IssueKeepsInv(b.pairing, TOKEN_CAP, k.pairingTokenTtlMs, b.clock, b.clock, secret, origin);
  }

  /** The grants after a session has begun: all others, and the new one. */
  function Regranted(resume: seq<Entry<Grant>>, k: Config, clock: nat, session: Session,
                     secret: Uuid): seq<Entry<Grant>> {
    T.Issued(T.Revoked(resume, ForSession(session.sessionId)), TOKEN_CAP, k.resumeTokenTtlMs, clock, secret, GrantOf(session))
  }

  lemma RevokedFacts(resume: seq<Entry<Grant>>, sessionId: Uuid)
    requires Pairwise(resume, DifferentSession())
    ensures var r := T.Revoked(resume, ForSession(sessionId));
      Pairwise(r, DifferentSession()) && forall e :: e in r ==> e in resume && e.value.sessionId != sessionId
  {
    KeepPairwise(resume, T.NotAccepted(ForSession(sessionId)), DifferentSession());
    KeepMembers(resume, T.NotAccepted(ForSession(sessionId)));
  }

  lemma RegrantedMembers(resume: seq<Entry<Grant>>, k: Config, clock: nat, session: Session, secret: Uuid)
    requires T.Inv(resume, TOKEN_CAP, k.resumeTokenTtlMs, clock) && !HasKey(resume, secret)
    requires Pairwise(resume, DifferentSession())
    ensures var r := Regranted(resume, k, clock, session, secret);
      && T.Inv(r, TOKEN_CAP, k.resumeTokenTtlMs, clock)
      && (forall e :: e in r ==>
            (e in resume && e.value.sessionId != session.sessionId) || e == Entry(secret, clock + k.resumeTokenTtlMs, GrantOf(session)))
  {
    hide T.Inv; hide HasKey; hide Pairwise; hide DifferentSession; hide T.Issued; hide T.Revoked; hide GrantOf;
    var left := T.Revoked(resume, ForSession(session.sessionId));
    RevokedFacts(resume, session.sessionId);
    RevokeKeepsTokens(resume, k, clock, session.sessionId);
    SubsetHasNoKey(resume, left, secret);
    T.IssueKeepsInv(left, TOKEN_CAP, k.resumeTokenTtlMs, clock, clock, secret, GrantOf(session));
  }

  lemma RevokeKeepsTokens(resume: seq<Entry<Grant>>, k: Config, clock: nat, sessionId: Uuid)
    requires T.Inv(resume, TOKEN_CAP, k.resumeTokenTtlMs, clock)
    ensures T.Inv(T.Revoked(resume, ForSession(sessionId)), TOKEN_CAP, k.resumeTokenTtlMs, clock)
  {
    T.FilterKeepsInv(resume, TOKEN_CAP, k.resumeTokenTtlMs, clock, clock, T.NotAccepted(ForSession(sessionId)));
  }

  lemma RegrantedPairwise(resume: seq<Entry<Grant>>, k: Config, clock: nat, session: Session, secret: Uuid)
    requires Pairwise(resume, DifferentSession())
    ensures Pairwise(Regranted(resume, k, clock, session, secret), DifferentSession())
  {
    var left := T.Revoked(resume, ForSession(session.sessionId));
    RevokedFacts(resume, session.sessionId);
    KeepPairwise(left, IsLive(clock), DifferentSession());
    KeepMembers(left, IsLive(clock));
    RoomPairwise(Live(left, clock), TOKEN_CAP, DifferentSession());
    var kept := Room(Live(left, clock), TOKEN_CAP);
    var e := Entry(secret, clock + k.resumeTokenTtlMs, GrantOf(session));
    forall i | 0 <= i < |kept| ensures DifferentSession()(kept[i], e) {
      assert kept[i] in Live(left, clock);
    }
    PairwiseAppend(kept, e);
  }

  lemma PairwiseAppend(s: seq<Entry<Grant>>, e: Entry<Grant>)
    requires Pairwise(s, DifferentSession()) && forall i :: 0 <= i < |s| ==> DifferentSession()(s[i], e)
    ensures Pairwise(s + [e], DifferentSession())
  {
    var r := s + [e];
    forall i, j | 0 <= i < j < |r| ensures DifferentSession()(r[i], r[j]) {
      if j < |s| {
        assert DifferentSession()(s[i], s[j]);
      }
    }
  }

  ghost predicate NoSession(sessions: map<Uuid, Session>, sessionId: Uuid) {
    forall c :: c in sessions ==> sessions[c].sessionId != sessionId
  }

  lemma RegrantKeepsFit(resume: seq<Entry<Grant>>, sessions: map<Uuid, Session>, k: Config, clock: nat,
                        session: Session, secret: Uuid)
    requires T.Inv(resume, TOKEN_CAP, k.resumeTokenTtlMs, clock) && !HasKey(resume, secret)
    requires DistinctSessions(sessions) && GrantsFit(resume, sessions)
    requires session.connectionId !in sessions && NoSession(sessions, session.sessionId)
    ensures DistinctSessions(sessions[session.connectionId := session])
    ensures GrantsFit(Regranted(resume, k, clock, session, secret), sessions[session.connectionId := session])
  {
    hide Regranted; hide T.Inv; hide HasKey; hide Pairwise;
    RegrantedMembers(resume, k, clock, session, secret);
    RegrantedPairwise(resume, k, clock, session, secret);
  }

  lemma EstablishKeepsTokens(b: Bridge, k: Config, session: Session, secret: Uuid)
    requires TokensInv(b.pairing, b.resume, b.registry.sessions, b.used, b.clock, k)
    requires !HasKey(b.resume, secret) && secret in b.used && session.sessionId in b.used
    requires session.connectionId !in b.registry.sessions && NoSession(b.registry.sessions, session.sessionId)
    ensures TokensInv(b.pairing, Regranted(b.resume, k, b.clock, session, secret),
                      b.registry.sessions[session.connectionId := session], b.used, b.clock, k)
  {
    hide Regranted; hide T.Inv; hide HasKey; hide NoSession; hide DistinctSessions;
    RegrantKeepsFit(b.resume, b.registry.sessions, k, b.clock, session, secret);
    RegrantedMembers(b.resume, k, b.clock, session, secret);
  }

  lemma FewerSessionsKeepTokens(b: Bridge, k: Config, c: Uuid)
    requires TokensInv(b.pairing, b.resume, b.registry.sessions, b.used, b.clock, k)
    ensures TokensInv(b.pairing, b.resume, b.registry.sessions - {c}, b.used, b.clock, k)
  {
    hide T.Inv; hide Pairwise;
  }

  // ----- The parts of steps -----

  lemma DetachKeepsInv(b: Bridge, k: Config, c: Uuid)
    requires Inv(b, k)
    ensures Inv(Detach(b, c), k)
  {
    hide R.Inv; hide SocketsInv; hide BrokerInv; hide TokensInv; hide B.Lost; hide R.Tallied;
    RL.RemoveKeepsInv(b.registry, k.registry, c);
    RemovedSessions(b.registry, c);
    DetachKeepsSockets(b.sockets, c, b.registry.sessions, b.used, k);
    LossKeepsWork(b.broker, c, b.registry.sessions, b.used, b.clock, k);
    FewerSessionsKeepTokens(b, k, c);
  }

  lemma RemovedSessions(r: R.Registry, c: Uuid)
    ensures R.Removed(r, c).sessions == r.sessions - {c}
  {
  }

  lemma AddedSessions(r: R.Registry, session: Session)
    requires !R.Conflicts(r.sessions, session)
    ensures R.Added(r, session).sessions == r.sessions[session.connectionId := session]
  {
  }

  lemma MoreSessionsKeepWork(b: B.State, sessions: map<Uuid, Session>, session: Session, used: set<Uuid>, clock: nat,
                             k: Config)
    requires BrokerInv(b, sessions, used, clock, k)
    ensures BrokerInv(b, sessions[session.connectionId := session], used, clock, k)
  {
    hide B.Inv;
  }

  /** What has to hold for a session to begin. */
  ghost predicate MayBegin(b: Bridge, session: Session, secret: Uuid) {
    var c := session.connectionId;
    && c in b.sockets && b.sockets[c].session.None? && b.sockets[c].approval.None?
      && session.origin == b.sockets[c].origin
    && NoSession(b.registry.sessions, session.sessionId) && session.sessionId in b.used
    && secret in b.used && !HasKey(b.resume, secret)
  }

  lemma EstablishKeepsInv(b: Bridge, k: Config, session: Session, secret: Uuid)
    requires Inv(b, k) && MayBegin(b, session, secret)
    ensures Inv(Established(b, k, session, secret), k)
  {
    hide R.Inv; hide SocketsInv; hide BrokerInv; hide TokensInv; hide R.Added; hide R.Conflicts; hide NoSession;
    hide HasKey;
    hide T.Issued; hide T.Revoked; hide GrantOf; hide ForSession;
    if R.Conflicts(b.registry.sessions, session) {
      ShutKeepsInv(b, k, session.connectionId);
    } else {
      SessionKeepsSockets(b.sockets, session.connectionId, session, b.registry.sessions, b.used, k);
      RL.AddKeepsInv(b.registry, k.registry, session);
      AddedSessions(b.registry, session);
      MoreSessionsKeepWork(b.broker, b.registry.sessions, session, b.used, b.clock, k);
      EstablishKeepsTokens(b, k, session, secret);
    }
  }

  lemma WithdrawKeepsInv(b: Bridge, k: Config, c: Uuid)
    requires Inv(b, k)
    ensures Inv(Withdrawn(b, c), k)
  {
    hide R.Inv; hide SocketsInv; hide BrokerInv; hide TokensInv;
    if c in b.sockets {
      WithdrawKeepsSockets(b.sockets, c, b.registry.sessions, b.used, k);
    }
  }

  lemma ExpireKeepsInv(b: Bridge, k: Config, c: Uuid)
    requires Inv(b, k)
    ensures Inv(Expired(b, c), k)
  {
    hide Inv; hide Shut; hide Withdrawn;
    WithdrawKeepsInv(b, k, c);
    ShutKeepsInv(Withdrawn(b, c), k, c);
  }

  lemma AskKeepsInv(b: Bridge, k: Config, c: Uuid, a: Approval)
    requires Inv(b, k) && c in b.sockets && b.sockets[c].approval.None? && b.sockets[c].session.None?
    requires UnusedRequest(b.sockets, a.requestId) && a.requestId in b.used
    ensures Inv(Asked(b, k, c, a), k)
  {
    hide R.Inv; hide SocketsInv; hide BrokerInv; hide TokensInv; hide MayAsk; hide UnusedRequest;
    if MayAsk(b.sockets, k, b.sockets[c].origin, a) {
      AskKeepsSockets(b.sockets, c, a, b.registry.sessions, b.used, k);
    } else {
      ShutKeepsInv(b, k, c);
    }
  }

  lemma RegistryStepKeepsInv(b: Bridge, k: Config, after: R.Registry)
    requires Inv(b, k) && R.Inv(after, k.registry) && after.sessions == b.registry.sessions
    ensures Inv(b.(registry := after), k)
  {
    hide R.Inv; hide SocketsInv; hide BrokerInv; hide TokensInv;
  }

  lemma RegistrationsKeepSessions(r: R.Registry, config: R.Config, c: Uuid, registration: Registration, id: string)
    ensures R.Registered(r, config, c, registration).sessions == r.sessions
    ensures R.Unregistered(r, c, id).sessions == r.sessions
  {
  }

  lemma KnownLater(b: Bridge, k: Config, now: nat, ids: set<Uuid>)
    requires Inv(b, k) && b.clock <= now
    ensures TokensInv(b.pairing, b.resume, b.registry.sessions, b.used + ids, now, k)
    ensures BrokerInv(b.broker, b.registry.sessions, b.used + ids, now, k)
  {
    hide B.Inv; hide InOrder; hide DistinctSessions; hide GrantsFit; hide WorkIsLive; hide R.Inv; hide SocketsInv;
  }

  lemma TickKeepsInv(b: Bridge, k: Config, now: nat, ids: set<Uuid>)
    requires Inv(b, k) && b.clock <= now
    ensures Inv(Ticked(b, now, ids), k)
  {
    hide R.Inv; hide BrokerInv; hide TokensInv; hide Approvals;
    KnownLater(b, k, now, ids);
  }
}
