/** What every step of the broker keeps, and what holds over whole runs. */
module BrokerLaws {
  import opened Common
  import opened Capabilities
  import opened RecentRequests
  import opened Sequences
  import opened Expiring
  import opened BrokerModel

  lemma OwnedSubset(smaller: map<Uuid, Pending>, larger: map<Uuid, Pending>, c: Uuid)
    requires smaller.Keys <= larger.Keys && forall id :: id in smaller ==> smaller[id] == larger[id]
    ensures |Owned(smaller, c)| <= |Owned(larger, c)|
    ensures |smaller| <= |larger|
  {
    SubsetSize(Owned(smaller, c), Owned(larger, c));
    SubsetSize(smaller.Keys, larger.Keys);
  }

  lemma SubsetSize<T>(a: set<T>, b: set<T>)
    requires a <= b
    ensures |a| <= |b|
  {
    assert b == a + (b - a);
  }

  /** The tombstone table as it stands just before the calls in `ids` are settled. */
  ghost predicate TombstonesBut(b: State, limits: Limits, ids: set<Uuid>) {
    && InOrder(b.cancelled)
    && |b.cancelled| <= TombstoneLimit(limits)
    && forall t :: t in b.cancelled ==>
      && t.key in b.verdicts && (t.key in b.pending ==> t.key in ids)
      && t.expiresAt <= b.clock + limits.browserRequestTimeoutMs
  }

  lemma SettleKeepsLimits(b: State, limits: Limits, ids: set<Uuid>, v: Verdict)
    requires WithinLimits(b, limits)
    ensures WithinLimits(Settle(b, ids, v), limits)
  {
    var after := Settle(b, ids, v);
    forall c ensures |Owned(after.pending, c)| <= |Owned(b.pending, c)| {
      OwnedSubset(after.pending, b.pending, c);
    }
    OwnedSubset(after.pending, b.pending, 0);
  }

  /** One record before and after its call, or another one, is settled. */
  lemma SettledRecord(b: State, limits: Limits, ids: set<Uuid>, v: Verdict, id: Uuid)
    requires SettledOnce(b) && Mirrors(b, limits) && id in b.history.requests
    ensures var after := Settle(b, ids, v);
      && id in after.history.requests && id in after.verdicts
      && var r := after.history.requests[id];
      && (r.outcome == OutcomePending <==> id in after.pending)
      && (id in after.pending ==> after.pending[id] == b.pending[id] && r == b.history.requests[id])
      && (id !in after.pending && |after.verdicts[id]| == 1 ==>
            && r.outcome == OutcomeFor(after.verdicts[id][0])
            && r.error == ErrorOf(after.verdicts[id][0])
            && r.result == SummaryOf(after.verdicts[id][0]))
  {
    hide Counts; hide Names;
    assert id in b.pending ==> b.verdicts[id] == [];
  }

  lemma SettleKeepsMirrors(b: State, limits: Limits, ids: set<Uuid>, v: Verdict)
    requires SettledOnce(b) && Mirrors(b, limits)
    ensures Mirrors(Settle(b, ids, v), limits)
  {
    hide Counts; hide Names; hide OutcomeFor; hide ErrorOf; hide SummaryOf; hide Finished;
    var after := Settle(b, ids, v);
    forall id | id in after.history.requests
      ensures var r := after.history.requests[id];
        && id in after.verdicts
        && (r.outcome == OutcomePending <==> id in after.pending)
        && (id in after.pending ==> Names(r, after.pending[id]))
        && (id !in after.pending && |after.verdicts[id]| == 1 ==>
              && r.outcome == OutcomeFor(after.verdicts[id][0])
              && r.error == ErrorOf(after.verdicts[id][0])
              && r.result == SummaryOf(after.verdicts[id][0]))
    {
      SettledRecord(b, limits, ids, v, id);
    }
  }

  lemma SettleKeepsInv(b: State, limits: Limits, ids: set<Uuid>, v: Verdict)
    requires SettledOnce(b) && WithinLimits(b, limits) && Mirrors(b, limits) && TombstonesBut(b, limits, ids)
    ensures Inv(Settle(b, ids, v), limits)
  {
    SettleKeepsLimits(b, limits, ids, v);
    SettleKeepsMirrors(b, limits, ids, v);
  }

  lemma OwnedWith(pending: map<Uuid, Pending>, id: Uuid, p: Pending, d: Uuid)
    requires id !in pending
    ensures Owned(pending[id := p], d) == if d == Connection(p) then Owned(pending, d) + {id} else Owned(pending, d)
  {
  }

  lemma OpenKeepsLimits(b: State, limits: Limits, id: Uuid, kind: Kind, provider: Capability, aborted: bool, sent: bool)
    requires WithinLimits(b, limits) && id !in b.pending
    requires Refusal(b, limits, provider, aborted).None?
    ensures WithinLimits(Opened(b, limits, id, kind, provider, sent), limits)
  {
    var after := Opened(b, limits, id, kind, provider, sent);
    var c := provider.session.connectionId;
    forall d ensures |Owned(after.pending, d)| <= limits.maxConcurrentRequestsPerRuntime {
      OwnedWith(b.pending, id, Pending(kind, provider), d);
    }
  }

  lemma OpenKeepsMirrors(b: State, limits: Limits, id: Uuid, kind: Kind, provider: Capability, sent: bool)
    requires SettledOnce(b) && Mirrors(b, limits) && id !in b.verdicts
    ensures Mirrors(Opened(b, limits, id, kind, provider, sent), limits)
  {
    hide Counts; hide OutcomeFor; hide ErrorOf; hide SummaryOf; hide Started; hide Consistent;
    NotRecorded(b, limits, id);
    var appId, registrationId := provider.session.appId, provider.registration.id;
    StartedIsConsistent(b.history, limits.recentRequests, id, appId, kind, registrationId);
    StartedRecords(b.history, limits.recentRequests, id, appId, kind, registrationId);
  }

  lemma NotRecorded(b: State, limits: Limits, id: Uuid)
    requires Mirrors(b, limits) && id !in b.verdicts
    ensures Consistent(b.history, limits.recentRequests) && id !in b.history.requests
  {
    hide Consistent; hide Names;
  }

  lemma OpenKeepsInv(b: State, limits: Limits, id: Uuid, kind: Kind, provider: Capability, aborted: bool, sent: bool)
    requires Inv(b, limits) && id !in b.verdicts
    requires Refusal(b, limits, provider, aborted).None?
    ensures Inv(Opened(b, limits, id, kind, provider, sent), limits)
  {
    hide Counts; hide Mirrors; hide WithinLimits; hide Refusal; hide Started;
    OpenKeepsLimits(b, limits, id, kind, provider, aborted, sent);
    OpenKeepsMirrors(b, limits, id, kind, provider, sent);
  }

  lemma InvokeKeepsInv(b: State, limits: Limits, id: Uuid, kind: Kind, provider: Capability, aborted: bool, sent: bool)
    requires Inv(b, limits) && id !in b.verdicts
    ensures Inv(Invoked(b, limits, id, kind, provider, aborted, sent), limits)
  {
    if Refusal(b, limits, provider, aborted).None? {
      OpenKeepsInv(b, limits, id, kind, provider, aborted, sent);
      SettleKeepsInv(Opened(b, limits, id, kind, provider, sent), limits, {id}, Rejected(BrowserDisconnected));
    }
  }

  lemma StepKeepsInv(b: State, limits: Limits, now: nat, e: Event)
    requires Inv(b, limits) && Possible(b, now, e)
    ensures Inv(Step(b, limits, now, e), limits)
  {
    hide Invoked;
    hide Answered;
    hide Interrupted;
    match e
    case Invoke(id, kind, provider, aborted, sent) =>
      InvokeKeepsInv(b, limits, id, kind, provider, aborted, sent);
    case ResultMessage(c, id, output) => AnswerKeepsInv(b, limits, now, c, id, ResultVerdict(b, id, output));
    case ErrorMessage(c, id, code) => AnswerKeepsInv(b, limits, now, c, id, Rejected(CodeFromBrowser(code)));
    case CancelFromBrowser(c, id) => AnswerKeepsInv(b, limits, now, c, id, Rejected(Cancelled));
    case TimerFired(id, sent) => InterruptKeepsInv(b, limits, now, id, TimedOut, sent);
    case SignalAborted(id, sent) => InterruptKeepsInv(b, limits, now, id, Cancelled, sent);
    case ConnectionLost(c) => LostKeepsInv(b, limits, c);
    case Stop =>
      SettleKeepsInv(b.(cancelled := []), limits, b.pending.Keys, Rejected(BrowserDisconnected));
  }

  lemma LostKeepsInv(b: State, limits: Limits, c: Uuid)
    requires Inv(b, limits)
    ensures Inv(Lost(b, c), limits)
  {
    KeepInOrder(b.cancelled, FromOthers(c));
    KeepMembers(b.cancelled, FromOthers(c));
    SettleKeepsInv(b.(cancelled := Keep(b.cancelled, FromOthers(c))), limits, Owned(b.pending, c), Rejected(BrowserDisconnected));
  }

  lemma AnswerKeepsInv(b: State, limits: Limits, now: nat, c: Uuid, id: Uuid, v: Verdict)
    requires Inv(b, limits) && b.clock <= now
    ensures Inv(Answered(b, now, c, id, v), limits)
  {
    if id !in b.pending {
      KeepMembers(b.cancelled, IsLive(now));
      KeepInOrder(b.cancelled, IsLive(now));
      var live := Live(b.cancelled, now);
      KeepMembers(live, OtherKey(id));
      KeepInOrder(live, OtherKey(id));
    } else {
      SettleKeepsInv(b, limits, {id}, v);
    }
  }

  lemma BuryKeepsTombstones(b: State, limits: Limits, now: nat, id: Uuid, sent: bool)
    requires SettledOnce(b) && Tombstones(b, limits) && b.clock <= now && id in b.pending
    ensures TombstonesBut(Buried(b, limits, now, id, sent), limits, {id})
  {
    var tombstone := Entry(id, now + limits.browserRequestTimeoutMs, Connection(b.pending[id]));
    AbsentKey(b.cancelled, id);
    InsertedInOrder(b.cancelled, TombstoneLimit(limits), now, tombstone);
  }

  /** Mirroring, settlement and limits look neither at tombstones nor at messages. */
  lemma BuryKeepsTheRest(b: State, limits: Limits, now: nat, id: Uuid, sent: bool)
    requires SettledOnce(b) && WithinLimits(b, limits) && Mirrors(b, limits) && id in b.pending
    ensures var m := Buried(b, limits, now, id, sent); SettledOnce(m) && WithinLimits(m, limits) && Mirrors(m, limits)
  {
    var m := Buried(b, limits, now, id, sent);
    assert m.pending == b.pending && m.verdicts == b.verdicts && m.history == b.history;
  }

  lemma InterruptKeepsInv(b: State, limits: Limits, now: nat, id: Uuid, code: ErrorCode, sent: bool)
    requires Inv(b, limits) && b.clock <= now
    ensures Inv(Interrupted(b, limits, now, id, code, sent), limits)
  {
    if id in b.pending {
      BuryKeepsTombstones(b, limits, now, id, sent);
      BuryKeepsTheRest(b, limits, now, id, sent);
      SettleKeepsInv(Buried(b, limits, now, id, sent), limits, {id}, Rejected(code));
    }
  }

  // ----- Single steps -----

  /** The events that end a pending call: an answer from its own browser, its timer, its caller
      going away, the loss of its connection, the end of the Bridge. */
  ghost predicate Ends(b: State, e: Event, id: Uuid)
    requires id in b.pending
  {
    match e
    case Invoke(_, _, _, _, _) => false
    case ResultMessage(c, i, _) => i == id && c == Connection(b.pending[id])
    case ErrorMessage(c, i, _) => i == id && c == Connection(b.pending[id])
    case CancelFromBrowser(c, i) => i == id && c == Connection(b.pending[id])
    case TimerFired(i, _) => i == id
    case SignalAborted(i, _) => i == id
    case ConnectionLost(c) => c == Connection(b.pending[id])
    case Stop => true
  }

  ghost function EndVerdict(b: State, e: Event, id: Uuid): Verdict
    requires id in b.pending && Ends(b, e, id)
  {
    match e
    case ResultMessage(_, _, output) =>
      if output.kind == b.pending[id].expectedKind then Resolved(output) else Rejected(InvalidMessage)
    case ErrorMessage(_, _, code) => Rejected(CodeFromBrowser(code))
    case CancelFromBrowser(_, _) => Rejected(Cancelled)
    case TimerFired(_, _) => Rejected(TimedOut)
    case SignalAborted(_, _) => Rejected(Cancelled)
    case ConnectionLost(_) => Rejected(BrowserDisconnected)
    case Stop => Rejected(BrowserDisconnected)
  }

  /** A pending call ends with this verdict, or goes on as it was. */
  ghost predicate CallOutcome(b: State, after: State, id: Uuid, v: Option<Verdict>)
    requires id in b.pending
  {
    match v
    case Some(verdict) => id !in after.pending && id in after.verdicts && after.verdicts[id] == [verdict]
    case None => id in after.pending && after.pending[id] == b.pending[id]
  }

  lemma AnsweredOutcome(b: State, now: nat, c: Uuid, i: Uuid, v: Verdict, id: Uuid)
    requires id in b.pending && id in b.verdicts && b.verdicts[id] == []
    ensures CallOutcome(b, Answered(b, now, c, i, v), id,
                        if i == id && c == Connection(b.pending[id]) then Some(v) else None)
  {
    hide Counts; hide FinishedAll; hide Absorbs; hide Keep;
  }

  lemma InterruptedOutcome(b: State, limits: Limits, now: nat, i: Uuid, code: ErrorCode, sent: bool, id: Uuid)
    requires id in b.pending && id in b.verdicts && b.verdicts[id] == []
    ensures CallOutcome(b, Interrupted(b, limits, now, i, code, sent), id, if i == id then Some(Rejected(code)) else None)
  {
    hide Counts; hide FinishedAll; hide Inserted;
  }

  lemma LossOutcome(b: State, c: Uuid, id: Uuid)
    requires id in b.pending && id in b.verdicts && b.verdicts[id] == []
    ensures CallOutcome(b, Lost(b, c), id,
                        if c == Connection(b.pending[id]) then Some(Rejected(BrowserDisconnected)) else None)
    ensures CallOutcome(b, Stopped(b), id, Some(Rejected(BrowserDisconnected)))
  {
    hide Counts; hide FinishedAll; hide Keep;
  }

  lemma InvokedOutcome(b: State, limits: Limits, i: Uuid, kind: Kind, provider: Capability, aborted: bool,
                       sent: bool, id: Uuid)
    requires id in b.pending && id != i
    ensures CallOutcome(b, Invoked(b, limits, i, kind, provider, aborted, sent), id, None)
  {
    hide Counts; hide FinishedAll; hide Started; hide Refusal;
  }

  lemma PendingIsUnsettled(b: State, limits: Limits, id: Uuid)
    requires Inv(b, limits) && id in b.pending
    ensures id in b.verdicts && b.verdicts[id] == []
  {
    hide WithinLimits; hide Tombstones; hide Mirrors; hide Counts;
  }

  /** A pending call ends exactly on an event addressed to it, with that event's verdict; every
      other event, whichever connection it belongs to, leaves the call as it was. */
  lemma CallEndsExactlyWhenAddressed(b: State, limits: Limits, now: nat, e: Event, id: Uuid)
    requires Inv(b, limits) && Possible(b, now, e) && id in b.pending
    ensures var after := Step(b, limits, now, e);
      if Ends(b, e, id) then id !in after.pending && id in after.verdicts && after.verdicts[id] == [EndVerdict(b, e, id)]
      else id in after.pending && after.pending[id] == b.pending[id]
  {
    hide Inv; hide Invoked; hide Answered; hide Interrupted; hide Lost; hide Stopped;
    PendingIsUnsettled(b, limits, id);
    match e
    case Invoke(i, kind, provider, aborted, sent) => InvokedOutcome(b, limits, i, kind, provider, aborted, sent, id);
    case ResultMessage(c, i, output) => AnsweredOutcome(b, now, c, i, ResultVerdict(b, i, output), id);
    case ErrorMessage(c, i, code) => AnsweredOutcome(b, now, c, i, Rejected(CodeFromBrowser(code)), id);
    case CancelFromBrowser(c, i) => AnsweredOutcome(b, now, c, i, Rejected(Cancelled), id);
    case TimerFired(i, sent) => InterruptedOutcome(b, limits, now, i, TimedOut, sent, id);
    case SignalAborted(i, sent) => InterruptedOutcome(b, limits, now, i, Cancelled, sent, id);
    case ConnectionLost(c) => LossOutcome(b, c, id);
    case Stop => LossOutcome(b, 0, id);
  }

  /** What an answer from the call's own browser settles it with, code by code. */
  lemma AnswersSettle(b: State, limits: Limits, now: nat, id: Uuid, output: Summary, code: string)
    requires Inv(b, limits) && id in b.pending && b.clock <= now
    ensures var c := b.pending[id].provider.session.connectionId;
      var good, bad, cancelled := Step(b, limits, now, ResultMessage(c, id, output)),
        Step(b, limits, now, ErrorMessage(c, id, code)), Step(b, limits, now, CancelFromBrowser(c, id));
      && id !in good.pending && id in good.verdicts && id !in bad.pending && id in bad.verdicts
      && id !in cancelled.pending && id in cancelled.verdicts && cancelled.verdicts[id] == [Rejected(Cancelled)]
      && (output.kind == b.pending[id].expectedKind ==> good.verdicts[id] == [Resolved(output)])
      && (output.kind != b.pending[id].expectedKind ==> good.verdicts[id] == [Rejected(InvalidMessage)])
      && (code == "INVOCATION_TIMEOUT" ==> bad.verdicts[id] == [Rejected(TimedOut)])
      && (code == "INVOCATION_CANCELLED" ==> bad.verdicts[id] == [Rejected(Cancelled)])
      && (code == "RATE_LIMITED" ==> bad.verdicts[id] == [Rejected(ConcurrencyLimit)])
      && (code == "CONNECTION_CLOSED" || code == "SESSION_EXPIRED" ==>
            bad.verdicts[id] == [Rejected(BrowserDisconnected)])
      && (code !in {"INVOCATION_TIMEOUT", "INVOCATION_CANCELLED", "RATE_LIMITED", "CONNECTION_CLOSED", "SESSION_EXPIRED"} ==>
            bad.verdicts[id] == [Rejected(BrowserError)])
  {
    hide Inv; hide Step;
    var c := b.pending[id].provider.session.connectionId;
    CallEndsExactlyWhenAddressed(b, limits, now, ResultMessage(c, id, output), id);
    CallEndsExactlyWhenAddressed(b, limits, now, ErrorMessage(c, id, code), id);
    CallEndsExactlyWhenAddressed(b, limits, now, CancelFromBrowser(c, id), id);
  }

  /** The call is settled, and its verdict is the same before and after. */
  ghost predicate StaysSettled(b: State, after: State, id: Uuid) {
    id in b.verdicts && id !in after.pending && id in after.verdicts && after.verdicts[id] == b.verdicts[id]
  }

  lemma AnswersLeaveSettled(b: State, limits: Limits, now: nat, c: Uuid, other: Uuid, v: Verdict, code: ErrorCode,
                            sent: bool, id: Uuid)
    requires id in b.verdicts && id !in b.pending
    ensures StaysSettled(b, Answered(b, now, c, other, v), id)
    ensures StaysSettled(b, Interrupted(b, limits, now, other, code, sent), id)
    ensures StaysSettled(b, Lost(b, c), id) && StaysSettled(b, Stopped(b), id)
  {
    hide Counts; hide FinishedAll; hide Inserted; hide Absorbs; hide Keep;
  }

  lemma InvokeLeavesSettled(b: State, limits: Limits, other: Uuid, kind: Kind, provider: Capability, aborted: bool,
                            sent: bool, id: Uuid)
    requires id in b.verdicts && id !in b.pending && other !in b.verdicts
    ensures StaysSettled(b, Invoked(b, limits, other, kind, provider, aborted, sent), id)
  {
    hide Counts; hide FinishedAll; hide Started; hide Refusal;
  }

  /** The verdict of a settled call never changes, and the call never becomes pending again. */
  lemma VerdictIsFinal(b: State, limits: Limits, now: nat, e: Event, id: Uuid)
    requires Possible(b, now, e) && id in b.verdicts && id !in b.pending
    ensures var after := Step(b, limits, now, e);
      id !in after.pending && id in after.verdicts && after.verdicts[id] == b.verdicts[id]
  {
    hide Invoked; hide Answered; hide Interrupted; hide Lost; hide Stopped;
    var any := Rejected(Cancelled);
    match e
    case Invoke(other, kind, provider, aborted, sent) =>
      InvokeLeavesSettled(b, limits, other, kind, provider, aborted, sent, id);
    case ResultMessage(c, i, output) =>
      AnswersLeaveSettled(b, limits, now, c, i, ResultVerdict(b, i, output), TimedOut, false, id);
    case ErrorMessage(c, i, code) =>
      AnswersLeaveSettled(b, limits, now, c, i, Rejected(CodeFromBrowser(code)), TimedOut, false, id);
    case CancelFromBrowser(c, i) => AnswersLeaveSettled(b, limits, now, c, i, any, TimedOut, false, id);
    case TimerFired(i, sent) => AnswersLeaveSettled(b, limits, now, 0, i, any, TimedOut, sent, id);
    case SignalAborted(i, sent) => AnswersLeaveSettled(b, limits, now, 0, i, any, Cancelled, sent, id);
    case ConnectionLost(c) => AnswersLeaveSettled(b, limits, now, c, id, any, TimedOut, false, id);
    case Stop => AnswersLeaveSettled(b, limits, now, 0, id, any, TimedOut, false, id);
  }

  // ----- Late answers -----

  lemma NoSecondEntry(s: seq<Entry<Uuid>>, id: Uuid, later: nat)
    ensures Lookup(Live(Without(s, id), later), id) == None
  {
    KeepMembers(s, OtherKey(id));
    KeepMembers(Without(s, id), IsLive(later));
    AbsentKey(Live(Without(s, id), later), id);
  }

  /** A tombstone takes one late answer, from the connection it names: once taken, no connection's
      answer to that call is taken again, and an answer from elsewhere leaves it in place. */
  lemma LateAnswerTakenOnce(b: State, limits: Limits, now: nat, c: Uuid, id: Uuid, v: Verdict, later: nat, d: Uuid)
    requires Inv(b, limits) && id !in b.pending && b.clock <= now <= later
    ensures var after := Answered(b, now, c, id, v);
      && after.pending == b.pending && after.verdicts == b.verdicts
      && (Matched(b, now, c, id) ==> !Matched(after, later, d, id))
      && (Matched(b, now, c, id) && d != c ==> !Matched(b, now, d, id))
      && (!Matched(b, now, c, id) && Matched(b, now, d, id) ==> Matched(after, now, d, id))
  {
    var live := Live(b.cancelled, now);
    NoSecondEntry(live, id, later);
    if !Matched(b, now, c, id) {
      LiveTwice(b.cancelled, now);
    }
  }

  lemma {:induction false} LiveTwice(s: seq<Entry<Uuid>>, now: nat)
    ensures Live(Live(s, now), now) == Live(s, now)
  {
    if s != [] {
      LiveTwice(s[..|s| - 1], now);
      var front := Live(s[..|s| - 1], now);
      if IsLive<Uuid>(now)(s[|s| - 1]) {
        assert (front + [s[|s| - 1]])[..|front|] == front;
      }
    }
  }

  /** A call that the Bridge gave up on is answered for exactly as long as its tombstone lives. */
  lemma InterruptedCallAwaitsAnswer(b: State, limits: Limits, now: nat, id: Uuid, code: ErrorCode, sent: bool,
                                    later: nat)
    requires Inv(b, limits) && id in b.pending && b.clock <= now <= later
    ensures var after := Interrupted(b, limits, now, id, code, sent);
      Matched(after, later, Connection(b.pending[id]), id) <==> later < now + limits.browserRequestTimeoutMs
  {
    var after := Interrupted(b, limits, now, id, code, sent);
    var tombstone := Entry(id, now + limits.browserRequestTimeoutMs, Connection(b.pending[id]));
    assert tombstone in after.cancelled;
    InterruptKeepsInv(b, limits, now, id, code, sent);
    KeepMembers(after.cancelled, IsLive(later));
    KeepInOrder(after.cancelled, IsLive(later));
    var live := Live(after.cancelled, later);
    if later < now + limits.browserRequestTimeoutMs {
      LookupUnique(live, tombstone);
    } else {
      LookupUnique(after.cancelled, tombstone);
      OnlyHolder(after.cancelled, tombstone);
      AbsentKey(live, id);
    }
  }

  lemma OnlyHolder(s: seq<Entry<Uuid>>, e: Entry<Uuid>)
    requires InOrder(s) && e in s
    ensures forall x :: x in s && x.key == e.key ==> x == e
  {
    forall x | x in s && x.key == e.key ensures x == e {
      LookupUnique(s, x);
      LookupUnique(s, e);
    }
  }

  // ----- Whole runs -----

  datatype Timed = Timed(now: nat, event: Event)

  function After(b: State, limits: Limits, run: seq<Timed>): State
    decreases |run|
  {
    if run == [] then b else After(Step(b, limits, run[0].now, run[0].event), limits, run[1..])
  }

  ghost predicate PossibleRun(b: State, limits: Limits, run: seq<Timed>)
    decreases |run|
  {
    run != [] ==>
      && Possible(b, run[0].now, run[0].event)
      && PossibleRun(Step(b, limits, run[0].now, run[0].event), limits, run[1..])
  }

  /** Whatever happens, in whatever order: counters are exact, limits hold, every accepted promise
      is open or settled once, tombstones are bounded and ordered, the history mirrors the calls. */
  lemma {:induction false} RunKeepsInv(b: State, limits: Limits, run: seq<Timed>)
    requires Inv(b, limits) && PossibleRun(b, limits, run)
    ensures Inv(After(b, limits, run), limits)
    decreases |run|
  {
    if run != [] {
      StepKeepsInv(b, limits, run[0].now, run[0].event);
      RunKeepsInv(Step(b, limits, run[0].now, run[0].event), limits, run[1..]);
    }
  }

  lemma InitialInv(limits: Limits)
    ensures Inv(INITIAL, limits)
  {
    assert Connections(INITIAL.pending) == {};
    forall c ensures Owned(INITIAL.pending, c) == {} {
    }
  }

  /** A verdict delivered at some point of a run is the only one that call ever gets. */
  lemma {:induction false} VerdictIsFinalOverRuns(b: State, limits: Limits, run: seq<Timed>, id: Uuid)
    requires Inv(b, limits) && PossibleRun(b, limits, run) && id in b.verdicts && id !in b.pending
    ensures var after := After(b, limits, run);
      id !in after.pending && id in after.verdicts && after.verdicts[id] == b.verdicts[id]
    decreases |run|
  {
    if run != [] {
      VerdictIsFinal(b, limits, run[0].now, run[0].event, id);
      StepKeepsInv(b, limits, run[0].now, run[0].event);
      VerdictIsFinalOverRuns(Step(b, limits, run[0].now, run[0].event), limits, run[1..], id);
    }
  }
}
