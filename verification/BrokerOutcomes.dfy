/** What single steps of the broker bring about, told in terms of its tables. */
module BrokerOutcomes {
  import opened Common
  import opened Capabilities
  import opened RecentRequests
  import opened Sequences
  import opened Expiring
  import opened BrokerModel
  import opened BrokerLaws

  // ----- Making a call -----

  /** The broker has room for one more call to this connection. */
  ghost predicate HasRoom(b: State, limits: Limits, c: Uuid) {
    && |b.pending| < limits.maxConcurrentRequests
    && |set i | i in b.pending && b.pending[i].provider.session.connectionId == c| < limits.maxConcurrentRequestsPerRuntime
  }

  /** A call is accepted exactly if there is room in all and for its connection and the caller is still
      there; a refused call leaves no trace. An accepted one is held with the kind and the provider it
      was made for and is the last message to that provider's connection; if that message could not be
      sent, it ends at once. */
  lemma CallIsAcceptedExactlyWhen(b: State, limits: Limits, now: nat, id: Uuid, kind: Kind, provider: Capability,
                                  aborted: bool, sent: bool)
    requires Inv(b, limits) && id !in b.verdicts
    ensures var after := Step(b, limits, now, Invoke(id, kind, provider, aborted, sent));
      var c := provider.session.connectionId;
      && (id in after.verdicts <==> HasRoom(b, limits, c) && !aborted)
      && (id !in after.verdicts ==> after == b)
      && (id in after.verdicts ==>
            && after.outbox == b.outbox + [Outgoing(c, InvokeMessage(id), sent)] && after.cancelled == b.cancelled
            && after.pending == (if sent then b.pending[id := Pending(kind, provider)] else b.pending)
            && after.verdicts == b.verdicts[id := if sent then [] else [Rejected(BrowserDisconnected)]])
  {
    hide Inv; hide Opened; hide Settle;
    var c := provider.session.connectionId;
    assert Owned(b.pending, c) == set i | i in b.pending && b.pending[i].provider.session.connectionId == c;
    AcceptedCall(b, limits, id, kind, provider, sent);
    if HasRoom(b, limits, c) && !aborted && !sent {
      UnsentCall(b, limits, id, kind, provider);
    }
  }

  lemma AcceptedCall(b: State, limits: Limits, id: Uuid, kind: Kind, provider: Capability, sent: bool)
    ensures var after := Opened(b, limits, id, kind, provider, sent);
      && after.outbox == b.outbox + [Outgoing(provider.session.connectionId, InvokeMessage(id), sent)]
      && after.pending == b.pending[id := Pending(kind, provider)] && after.verdicts == b.verdicts[id := []]
      && after.cancelled == b.cancelled
  {
    hide Counts; hide RecentRequests.Started;
  }

  lemma UnsentCall(b: State, limits: Limits, id: Uuid, kind: Kind, provider: Capability)
    requires Inv(b, limits) && id !in b.verdicts
    ensures var after := Settle(Opened(b, limits, id, kind, provider, false), {id}, Rejected(BrowserDisconnected));
      && after.outbox == b.outbox + [Outgoing(provider.session.connectionId, InvokeMessage(id), false)]
      && after.pending == b.pending && after.verdicts == b.verdicts[id := [Rejected(BrowserDisconnected)]]
      && after.cancelled == b.cancelled
  {
    hide Counts; hide RecentRequests.Started; hide FinishedAll; hide Mirrors; hide Tombstones; hide WithinLimits;
    var after := Settle(Opened(b, limits, id, kind, provider, false), {id}, Rejected(BrowserDisconnected));
    var made := Opened(b, limits, id, kind, provider, false);
    var v := Rejected(BrowserDisconnected);
    assert id in made.pending && id in made.verdicts && made.verdicts[id] + [v] == [v];
    assert after.pending == b.pending;
    assert after.verdicts == b.verdicts[id := [Rejected(BrowserDisconnected)]];
  }

  lemma RoomMeans(b: State, limits: Limits, provider: Capability, aborted: bool)
    ensures Refusal(b, limits, provider, aborted) ==
      if !HasRoom(b, limits, provider.session.connectionId) then Some(ConcurrencyLimit)
      else if aborted then Some(Cancelled) else None
  {
    var c := provider.session.connectionId;
    assert Owned(b.pending, c) == set i | i in b.pending && b.pending[i].provider.session.connectionId == c;
  }

  // ----- Ending calls -----

  /** Giving up a call tells its browser, leaves a tombstone and rejects the promise. */
  lemma GivingUpTellsTheBrowser(b: State, limits: Limits, now: nat, id: Uuid, sent: bool, timedOut: bool)
    requires Inv(b, limits) && id in b.pending && b.clock <= now
    ensures var e := if timedOut then TimerFired(id, sent) else SignalAborted(id, sent);
      var after := Step(b, limits, now, e);
      var c := b.pending[id].provider.session.connectionId;
      && after.outbox == b.outbox + [Outgoing(c, CancelMessage(id), sent)]
      && Entry(id, now + limits.browserRequestTimeoutMs, c) in after.cancelled
      && (forall t :: t in b.cancelled && t.expiresAt > now && |b.cancelled| < TombstoneLimit(limits) ==> t in after.cancelled)
      && after.pending == b.pending - {id}
      && id in after.verdicts && after.verdicts[id] == [Rejected(if timedOut then TimedOut else Cancelled)]
  {
    hide Counts; hide FinishedAll; hide Inv; hide Room; hide Live; hide TombstoneLimit;
    PendingIsUnsettled(b, limits, id);
    var tombstone := Entry(id, now + limits.browserRequestTimeoutMs, b.pending[id].provider.session.connectionId);
    forall t | t in b.cancelled && t.expiresAt > now && |b.cancelled| < TombstoneLimit(limits)
      ensures t in Inserted(b.cancelled, TombstoneLimit(limits), now, tombstone)
    {
      LiveStays(b.cancelled, TombstoneLimit(limits), now, tombstone, t);
    }
  }

  /** An answer from another connection than the call's changes nothing; a late one takes its own
      tombstone, if it was waited for, and leaves every other one that has not expired. */
  lemma AnswersTouchNoOther(b: State, limits: Limits, now: nat, c: Uuid, id: Uuid, output: Summary)
    requires Inv(b, limits) && b.clock <= now
    ensures var after := Step(b, limits, now, ResultMessage(c, id, output));
      && (id in b.pending && b.pending[id].provider.session.connectionId != c ==> after == b)
      && (id in b.pending ==> after.cancelled == b.cancelled)
      && (id !in b.pending ==>
            && after.pending == b.pending && after.verdicts == b.verdicts && after.history == b.history
            && (forall t :: t in after.cancelled ==> t in b.cancelled)
            && (forall t :: t in b.cancelled && t.key != id && t.expiresAt > now ==> t in after.cancelled)
            && (forall t :: t in b.cancelled && t.key == id && t.expiresAt > now ==>
                  (t in after.cancelled <==> t.value != c)))
  {
    hide Mirrors; hide WithinLimits; hide Counts; hide SettledOnce; hide FinishedAll;
    KeepMembers(b.cancelled, IsLive(now));
    KeepInOrder(b.cancelled, IsLive(now));
    var live := Live(b.cancelled, now);
    KeepMembers(live, OtherKey(id));
    forall t | t in live && t.key == id ensures Lookup(live, id) == Some(t) {
      LookupUnique(live, t);
    }
  }

  /** Stopping ends every call and forgets every tombstone. */
  lemma StoppingEndsEverything(b: State, limits: Limits, now: nat)
    requires Inv(b, limits)
    ensures var after := Step(b, limits, now, Stop);
      && after.pending == map[] && after.active == map[] && after.cancelled == []
      && after.verdicts.Keys == b.verdicts.Keys
      && forall id :: id in b.verdicts ==>
           after.verdicts[id] == if id in b.pending then [Rejected(BrowserDisconnected)] else b.verdicts[id]
  {
    hide FinishedAll; hide Mirrors; hide Tombstones; hide WithinLimits;
    var after := Step(b, limits, now, Stop);
    assert after.pending == map[];
    assert Connections(map[]) == {};
    assert forall id :: id in b.pending ==> b.verdicts[id] == [];
  }

  /** Losing a connection ends its calls and forgets its tombstones, and no others. */
  lemma LosingEndsItsOwn(b: State, limits: Limits, now: nat, c: Uuid)
    requires Inv(b, limits)
    ensures var after := Step(b, limits, now, ConnectionLost(c));
      && (forall id :: id in after.pending <==> id in b.pending && b.pending[id].provider.session.connectionId != c)
      && (forall id :: id in after.pending ==> after.pending[id] == b.pending[id])
      && after.verdicts.Keys == b.verdicts.Keys
      && (forall id :: id in b.verdicts ==>
            after.verdicts[id] == if id in b.pending && b.pending[id].provider.session.connectionId == c
                                  then [Rejected(BrowserDisconnected)] else b.verdicts[id])
      && (forall t :: t in after.cancelled ==> t in b.cancelled && t.value != c)
      && (forall t :: t in b.cancelled && t.value != c ==> t in after.cancelled)
  {
    hide FinishedAll; hide Mirrors; hide Tombstones; hide WithinLimits; hide Counts;
    KeepMembers(b.cancelled, FromOthers(c));
    assert forall id :: id in b.pending ==> b.verdicts[id] == [];
  }

  /** The call is pending for this connection, or was given up and its unexpired tombstone names this
      connection. */
  ghost predicate Awaited(b: State, now: nat, c: Uuid, id: Uuid) {
    || (id in b.pending && b.pending[id].provider.session.connectionId == c)
    || (id !in b.pending && exists t :: t in b.cancelled && t.key == id && t.value == c && t.expiresAt > now)
  }

  lemma MatchedExactlyWhen(b: State, limits: Limits, now: nat, c: Uuid, id: Uuid)
    requires Inv(b, limits)
    ensures Matched(b, now, c, id) <==> Awaited(b, now, c, id)
  {
    hide Mirrors; hide WithinLimits; hide Counts; hide SettledOnce;
    KeepMembers(b.cancelled, IsLive(now));
    KeepInOrder(b.cancelled, IsLive(now));
    var live := Live(b.cancelled, now);
    if t :| t in b.cancelled && t.key == id && t.value == c && t.expiresAt > now {
      LookupUnique(live, t);
    }
  }

  // ----- The history -----

  /** What the operator is shown about a call: nothing yet while it is open, then how it ended. */
  lemma HistoryTellsTheVerdict(b: State, limits: Limits, id: Uuid)
    requires Inv(b, limits) && id in b.history.requests
    ensures id in b.verdicts
    ensures var r := b.history.requests[id];
      && (id in b.pending ==>
            && r.outcome == OutcomePending && r.appId == b.pending[id].provider.session.appId
            && r.kind == b.pending[id].expectedKind && r.registrationId == b.pending[id].provider.registration.id)
      && (id !in b.pending ==> |b.verdicts[id]| == 1 && match b.verdicts[id][0]
            case Resolved(output) => r.outcome == OutcomeSuccess && r.error == None && r.result == Some(output)
            case Rejected(error) =>
              && r.error == Some(error) && r.result == None
              && (error == Cancelled ==> r.outcome == OutcomeCancelled)
              && (error == TimedOut ==> r.outcome == OutcomeTimeout)
              && (error != Cancelled && error != TimedOut ==> r.outcome == OutcomeError))
  {
    hide Tombstones; hide WithinLimits; hide Counts;
  }

  predicate NewestAre(earlier: seq<Uuid>, later: seq<Uuid>, limit: nat, id: Uuid) {
    && |later| == (if |earlier| < limit then |earlier| + 1 else limit)
    && later == (earlier + [id])[|earlier| + 1 - |later|..]
  }

  /** `later` is `earlier` with `id` as its newest entry: no more of the oldest are gone than the limit
      demands, and the records that stay are as they were. */
  ghost predicate Enters(earlier: History, later: History, limit: nat, id: Uuid) {
    && NewestAre(earlier.order, later.order, limit, id)
    && (forall i :: i in later.requests <==> i in later.order)
    && (forall i :: i in later.requests && i != id ==> i in earlier.requests && later.requests[i] == earlier.requests[i])
  }

  /** Every accepted call enters the history, even one that ends at once. */
  lemma CallEntersTheHistory(b: State, limits: Limits, now: nat, id: Uuid, kind: Kind, provider: Capability,
                             aborted: bool, sent: bool)
    requires Inv(b, limits) && id !in b.verdicts
    ensures var after := Step(b, limits, now, Invoke(id, kind, provider, aborted, sent));
      id in after.verdicts ==> Enters(b.history, after.history, limits.recentRequests, id)
  {
    hide Inv; hide Settle; hide Opened; hide Enters;
    RecordsOf(b, limits);
    if Refusal(b, limits, provider, aborted).None? {
      OpenedEnters(b, limits, id, kind, provider, sent);
      SettledEnters(b.history, Opened(b, limits, id, kind, provider, sent), limits.recentRequests, id,
                    Rejected(BrowserDisconnected));
    }
  }

  lemma RecordsOf(b: State, limits: Limits)
    requires Inv(b, limits)
    ensures Consistent(b.history, limits.recentRequests)
    ensures forall i :: i in b.history.requests ==> i in b.verdicts
  {
  }

  lemma OpenedEnters(b: State, limits: Limits, id: Uuid, kind: Kind, provider: Capability, sent: bool)
    requires Consistent(b.history, limits.recentRequests) && id !in b.history.requests
    ensures Enters(b.history, Opened(b, limits, id, kind, provider, sent).history, limits.recentRequests, id)
  {
    hide Counts;
    var appId, registrationId := provider.session.appId, provider.registration.id;
    StartedIsConsistent(b.history, limits.recentRequests, id, appId, kind, registrationId);
    StartedRecords(b.history, limits.recentRequests, id, appId, kind, registrationId);
  }

  lemma SettledEnters(earlier: History, made: State, limit: nat, id: Uuid, v: Verdict)
    requires Enters(earlier, made.history, limit, id)
    ensures Enters(earlier, Settle(made, {id}, v).history, limit, id)
  {
    hide Enters;
    SettledHistory(made, id, v);
    OnlyItsRecord(earlier, made.history, Settle(made, {id}, v).history, limit, id);
  }

  lemma SettledHistory(made: State, id: Uuid, v: Verdict)
    ensures var after := Settle(made, {id}, v).history;
      && after.order == made.history.order && after.requests.Keys == made.history.requests.Keys
      && forall i :: i in after.requests && i != id ==> after.requests[i] == made.history.requests[i]
  {
    hide Counts; hide Finished;
  }

  lemma OnlyItsRecord(earlier: History, made: History, after: History, limit: nat, id: Uuid)
    requires Enters(earlier, made, limit, id)
    requires after.order == made.order && after.requests.Keys == made.requests.Keys
    requires forall i :: i in after.requests && i != id ==> after.requests[i] == made.requests[i]
    ensures Enters(earlier, after, limit, id)
  {
    hide NewestAre;
    forall i ensures i in after.requests <==> i in made.requests {
      assert i in after.requests.Keys <==> i in made.requests.Keys;
    }
  }

  /** Nothing but a new call moves a record out of the history. */
  lemma HistoryStays(b: State, limits: Limits, now: nat, e: Event)
    requires !e.Invoke?
    ensures var after := Step(b, limits, now, e);
      after.history.order == b.history.order && after.history.requests.Keys == b.history.requests.Keys
  {
    hide Counts; hide Inserted; hide Keep; hide Finished; hide Absorbs;
  }

  // ----- Whole runs -----

  /** A call that is held at both ends of a run is held as it was. */
  lemma {:induction false} HeldIsUnchanged(b: State, limits: Limits, run: seq<Timed>, id: Uuid)
    requires Inv(b, limits) && PossibleRun(b, limits, run) && id in b.pending && id in After(b, limits, run).pending
    ensures After(b, limits, run).pending[id] == b.pending[id]
    decreases |run|
  {
    hide Inv; hide Step; hide Possible;
    if run != [] {
      var next := Step(b, limits, run[0].now, run[0].event);
      CallEndsExactlyWhenAddressed(b, limits, run[0].now, run[0].event, id);
      StepKeepsInv(b, limits, run[0].now, run[0].event);
      if id in next.pending {
        HeldIsUnchanged(next, limits, run[1..], id);
      } else {
        VerdictIsFinalOverRuns(next, limits, run[1..], id);
      }
    }
  }
}
