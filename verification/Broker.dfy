/** The broker itself, with the tables it updates in place. */
module Broker {
  import opened Common
  import opened Capabilities
  import opened RecentRequests
  import opened Sequences
  import opened Expiring
  import opened BrokerModel
  import opened BrokerLaws
  import opened BrokerOutcomes

  /** A connection is counted exactly if it owns a call. */
  lemma Counted(pending: map<Uuid, Pending>, d: Uuid)
    ensures d in Counts(pending) <==> Owned(pending, d) != {}
    ensures d in Counts(pending) ==> Counts(pending)[d] == |Owned(pending, d)|
  {
    if d in Connections(pending) {
      var id :| id in pending && Connection(pending[id]) == d;
      assert id in Owned(pending, d);
    }
    if id :| id in Owned(pending, d) {
      assert d in Connections(pending);
    }
  }

  lemma OwnedWithout(pending: map<Uuid, Pending>, id: Uuid, d: Uuid)
    requires id in pending
    ensures Owned(pending - {id}, d) == Owned(pending, d) - {id}
    ensures id in Owned(pending, d) <==> d == Connection(pending[id])
  {
  }

  /** Taking one call away lowers its owner's counter by one, and a counter that would reach zero
      disappears. The counter is there and positive, so the clamps in `cleanup` never act. */
  lemma CountsWithout(pending: map<Uuid, Pending>, id: Uuid)
    requires id in pending
    ensures var c := Connection(pending[id]);
      && c in Counts(pending) && Counts(pending)[c] >= 1
      && Counts(pending - {id}) ==
           if Counts(pending)[c] == 1 then Counts(pending) - {c} else Counts(pending)[c := Counts(pending)[c] - 1]
  {
    hide Counts; hide Owned;
    var c := Connection(pending[id]);
    var rest := pending - {id};
    forall d
      ensures d in Counts(pending) <==> Owned(pending, d) != {}
      ensures d in Counts(pending) ==> Counts(pending)[d] == |Owned(pending, d)|
      ensures d in Counts(rest) <==> Owned(rest, d) != {}
      ensures d in Counts(rest) ==> Counts(rest)[d] == |Owned(rest, d)|
      ensures d != c ==> Owned(rest, d) == Owned(pending, d)
    {
      Counted(pending, d);
      Counted(rest, d);
      OwnedWithout(pending, id, d);
    }
    OwnedWithout(pending, id, c);
    assert |Owned(rest, c)| == |Owned(pending, c)| - 1;
  }

  lemma ConnectionsWith(pending: map<Uuid, Pending>, id: Uuid, p: Pending)
    requires id !in pending
    ensures Connections(pending[id := p]) == Connections(pending) + {Connection(p)}
  {
    var more := pending[id := p];
    forall d | d in Connections(pending) ensures d in Connections(more) {
      var i :| i in pending && Connection(pending[i]) == d;
      assert more[i] == pending[i];
    }
    assert more[id] == p;
  }

  lemma CountsWith(pending: map<Uuid, Pending>, id: Uuid, p: Pending)
    requires id !in pending
    ensures Counts(pending[id := p]) == Counts(pending)[Connection(p) := |Owned(pending, Connection(p))| + 1]
  {
    hide Connections;
    hide Owned;
    ConnectionsWith(pending, id, p);
    forall d ensures |Owned(pending[id := p], d)| ==
      if d == Connection(p) then |Owned(pending, d)| + 1 else |Owned(pending, d)|
    {
      OwnedWith(pending, id, p, d);
      NotOwnedYet(pending, id, d);
    }
  }

  lemma NotOwnedYet(pending: map<Uuid, Pending>, id: Uuid, d: Uuid)
    requires id !in pending
    ensures id !in Owned(pending, d)
  {
  }

  lemma CountOf(pending: map<Uuid, Pending>, c: Uuid)
    ensures (if c in Counts(pending) then Counts(pending)[c] else 0) == |Owned(pending, c)|
  {
    if i :| i in Owned(pending, c) {
      assert c in Connections(pending);
    } else {
      assert Owned(pending, c) == {};
    }
  }

  lemma FinishOneMore(h: History, ids: set<Uuid>, id: Uuid, v: Verdict)
    requires id !in ids
    ensures
      var o, e, r := OutcomeFor(v), ErrorOf(v), SummaryOf(v);
      FinishedAll(FinishedAll(h, ids, o, e, r), {id}, o, e, r) == FinishedAll(h, ids + {id}, o, e, r)
  {
    var o, e, r := OutcomeFor(v), ErrorOf(v), SummaryOf(v);
    assert FinishedAll(FinishedAll(h, ids, o, e, r), {id}, o, e, r).requests == FinishedAll(h, ids + {id}, o, e, r).requests;
  }

  /** Settling calls one after another is settling them together. */
  lemma SettleOneMore(b: State, ids: set<Uuid>, id: Uuid, v: Verdict)
    requires id in b.pending && id !in ids
    ensures Settle(Settle(b, ids, v), {id}, v) == Settle(b, ids + {id}, v)
  {
    hide FinishedAll;
    hide Counts;
    var once, twice, all := Settle(b, ids, v), Settle(Settle(b, ids, v), {id}, v), Settle(b, ids + {id}, v);
    assert twice.pending == all.pending;
    assert twice.verdicts == all.verdicts;
    assert {id} * once.pending.Keys == {id};
    assert (ids + {id}) * b.pending.Keys == ids * b.pending.Keys + {id};
    FinishOneMore(b.history, ids * b.pending.Keys, id, v);
  }

  /** What settling does to the pending table and what it leaves alone. */
  lemma SettleFacts(b: State, ids: set<Uuid>, v: Verdict)
    ensures Settle(b, ids, v).pending.Keys == b.pending.Keys - ids
    ensures Settle(b, ids, v).cancelled == b.cancelled && Settle(b, ids, v).clock == b.clock
  {
  }

  lemma InvFacts(b: State, limits: Limits)
    requires Inv(b, limits)
    ensures b.active == Counts(b.pending) && b.pending.Keys <= b.verdicts.Keys
    ensures Consistent(b.history, limits.recentRequests)
    ensures forall id :: id in b.history.requests ==> id in b.verdicts
  {
  }

  lemma EndKeepsInv(b: State, limits: Limits, id: Uuid, v: Verdict)
    requires Inv(b, limits)
    ensures Inv(Settle(b, {id}, v), limits)
  {
    SettleKeepsInv(b, limits, {id}, v);
  }

  lemma SweepKeepsInv(b: State, limits: Limits, now: nat)
    requires Inv(b, limits) && b.clock <= now
    ensures Inv(b.(cancelled := Live(b.cancelled, now), clock := now), limits)
    ensures |Live(b.cancelled, now)| <= TombstoneLimit(limits)
  {
    KeepInOrder(b.cancelled, IsLive(now));
    KeepMembers(b.cancelled, IsLive(now));
  }

  lemma SettleNone(b: State, v: Verdict)
    requires b.active == Counts(b.pending)
    ensures Settle(b, {}, v) == b
  {
    var after := Settle(b, {}, v);
    assert after.pending == b.pending;
    assert after.verdicts == b.verdicts;
    assert after.history.requests == b.history.requests;
  }

  class InvocationBroker {
    const limits: Limits
    const maxCancelledTombstones: nat
    const recent: RecentRequestStore
    var pending: map<Uuid, Pending>
    var active: map<Uuid, nat>
    var cancelled: seq<Entry<Uuid>>
    // What the callers of `invoke` and the browsers get to see, and the last time the clock was read.
    ghost var verdicts: map<Uuid, seq<Verdict>>
    ghost var outbox: seq<Outgoing>
    ghost var clock: nat

    ghost function View(): State
      reads this, recent
    {
      State(pending, active, cancelled, recent.View(), verdicts, outbox, clock)
    }

    ghost predicate Valid()
      reads this, recent
    {
      && recent.limit == limits.recentRequests
      && maxCancelledTombstones == TombstoneLimit(limits)
      && Inv(View(), limits)
    }

    constructor (limits: Limits, recent: RecentRequestStore)
      requires recent.limit == limits.recentRequests && recent.View() == EMPTY_HISTORY
      ensures this.limits == limits && this.recent == recent
      ensures View() == INITIAL && Valid()
    {
      this.limits := limits;
      this.recent := recent;
      maxCancelledTombstones := if 32 > limits.maxConcurrentRequests * 2 then 32 else limits.maxConcurrentRequests * 2;
      pending, active, cancelled := map[], map[], [];
      verdicts, outbox, clock := map[], [], 0;
    }

    /** `id` is the next `randomUUID` and `sent` the sender's answer; the result says whether a
        promise was returned or an error thrown. */
    method Invoke(provider: Capability, kind: Kind, aborted: bool, id: Uuid, sent: bool) returns (r: Result<Uuid>)
      requires Valid() && id !in verdicts
      modifies this, recent
      ensures Valid() && View() == Invoked(old(View()), limits, id, kind, provider, aborted, sent)
      ensures r == match Refusal(old(View()), limits, provider, aborted)
                   case Some(error) => Err(error)
                   case None => Ok(id)
      ensures r == if !HasRoom(old(View()), limits, provider.session.connectionId) then Err(ConcurrencyLimit)
                   else if aborted then Err(Cancelled) else Ok(id)
    {
      hide Inv;
      hide Settle;
      hide Counts;
      hide HasRoom;
      RoomMeans(View(), limits, provider, aborted);
      InvokeKeepsInv(View(), limits, id, kind, provider, aborted, sent);
      InvFacts(View(), limits);
      if |pending| >= limits.maxConcurrentRequests {
        return Err(ConcurrencyLimit);
      }
      var connectionId := provider.session.connectionId;
      CountOf(pending, connectionId);
      var activeForConnection := if connectionId in active then active[connectionId] else 0;
      if activeForConnection >= limits.maxConcurrentRequestsPerRuntime {
        return Err(ConcurrencyLimit);
      }
      if aborted {
        return Err(Cancelled);
      }
      Admit(provider, kind, aborted, id, sent);
      if !sent {
        Fail(id, BrowserDisconnected);
      }
      return Ok(id);
    }

    /** The part of `invoke` after the checks: history, counter, pending entry, message. */
    method Admit(provider: Capability, kind: Kind, ghost aborted: bool, id: Uuid, sent: bool)
      requires Valid() && id !in verdicts && Refusal(View(), limits, provider, aborted).None?
      modifies this, recent
      ensures Valid() && View() == Opened(old(View()), limits, id, kind, provider, sent)
    {
      hide Inv;
      hide Refusal;
      hide Counts;
      hide Owned;
      hide Started;
      OpenKeepsInv(View(), limits, id, kind, provider, aborted, sent);
      InvFacts(View(), limits);
      var connectionId := provider.session.connectionId;
      CountOf(pending, connectionId);
      CountsWith(pending, id, Pending(kind, provider));
      recent.Start(id, provider.session.appId, kind, provider.registration.id);
      active := active[connectionId := (if connectionId in active then active[connectionId] else 0) + 1];
      pending := pending[id := Pending(kind, provider)];
      verdicts := verdicts[id := []];
      outbox := outbox + [Outgoing(connectionId, InvokeMessage(id), sent)];
    }

    method Resolve(connectionId: Uuid, id: Uuid, output: Summary, now: nat) returns (matched: bool)
      requires Valid() && clock <= now
      modifies this, recent
      ensures Valid() && View() == Answered(old(View()), now, connectionId, id, ResultVerdict(old(View()), id, output))
      ensures matched == Matched(old(View()), now, connectionId, id)
      ensures matched <==> Awaited(old(View()), now, connectionId, id)
    {
      hide Inv;
      hide Settle;
      hide Counts;
      hide Awaited;
      MatchedExactlyWhen(View(), limits, now, connectionId, id);
      if id !in pending {
        matched := ConsumeCancellation(connectionId, id, now);
        return;
      }
      if Connection(pending[id]) != connectionId {
        return false;
      }
      if pending[id].expectedKind != output.kind {
        Fail(id, InvalidMessage);
        return true;
      }
      InvFacts(View(), limits);
      EndKeepsInv(View(), limits, id, Resolved(output));
      Cleanup(id);
      recent.Finish(id, OutcomeSuccess, None, Some(output));
      verdicts := verdicts[id := verdicts[id] + [Resolved(output)]];
      assert View() == Settle(old(View()), {id}, Resolved(output)) by {
        IsSettled(old(View()), View(), id, Resolved(output));
      }
      return true;
    }

    method RejectFromBrowser(connectionId: Uuid, id: Uuid, code: string, now: nat) returns (matched: bool)
      requires Valid() && clock <= now
      modifies this, recent
      ensures Valid() && View() == Answered(old(View()), now, connectionId, id, Rejected(CodeFromBrowser(code)))
      ensures matched == Matched(old(View()), now, connectionId, id)
      ensures matched <==> Awaited(old(View()), now, connectionId, id)
    {
      hide Inv;
      hide Settle;
      hide Counts;
      hide Awaited;
      MatchedExactlyWhen(View(), limits, now, connectionId, id);
      if id !in pending {
        matched := ConsumeCancellation(connectionId, id, now);
        return;
      }
      if Connection(pending[id]) != connectionId {
        return false;
      }
      Fail(id, CodeFromBrowser(code));
      return true;
    }

    method CancelledByBrowser(connectionId: Uuid, id: Uuid, now: nat) returns (matched: bool)
      requires Valid() && clock <= now
      modifies this, recent
      ensures Valid() && View() == Answered(old(View()), now, connectionId, id, Rejected(Cancelled))
      ensures matched == Matched(old(View()), now, connectionId, id)
      ensures matched <==> Awaited(old(View()), now, connectionId, id)
    {
      hide Inv;
      hide Settle;
      hide Counts;
      hide Awaited;
      MatchedExactlyWhen(View(), limits, now, connectionId, id);
      if id !in pending {
        matched := ConsumeCancellation(connectionId, id, now);
        return;
      }
      if Connection(pending[id]) != connectionId {
        return false;
      }
      Fail(id, Cancelled);
      return true;
    }

    method Disconnect(connectionId: Uuid)
      requires Valid()
      modifies this, recent
      ensures Valid() && View() == Lost(old(View()), connectionId)
    {
      hide Inv;
      hide Settle;
      hide Counts;
      StepKeepsInv(View(), limits, clock, ConnectionLost(connectionId));
      SettleFacts(View(), Owned(pending, connectionId), Rejected(BrowserDisconnected));
      FailEach(Owned(pending, connectionId));
      cancelled := DeleteWhile(cancelled, FromOthers(connectionId));
    }

    method Close()
      requires Valid()
      modifies this, recent
      ensures Valid() && View() == Stopped(old(View()))
    {
      hide Inv;
      hide Settle;
      hide Counts;
      StepKeepsInv(View(), limits, clock, Stop);
      FailEach(pending.Keys);
      cancelled := [];
    }

    /** The loops of `disconnect` and `close`: every call in `ids` fails, in whatever order. */
    method FailEach(ids: set<Uuid>)
      requires Valid() && ids <= pending.Keys
      modifies this, recent
      ensures Valid() && View() == Settle(old(View()), ids, Rejected(BrowserDisconnected))
    {
      hide Inv;
      hide Settle;
      hide Counts;
      ghost var before := View();
      ghost var v := Rejected(BrowserDisconnected);
      InvFacts(before, limits);
      SettleNone(before, v);
      var todo := ids;
      assert ids - todo == {};
      while todo != {}
        invariant Valid() && todo <= ids
        invariant View() == Settle(before, ids - todo, v)
        decreases todo
      {
        var id :| id in todo;
        SettleFacts(before, ids - todo, v);
        SettleOneMore(before, ids - todo, id, v);
        assert ids - todo + {id} == ids - (todo - {id});
        Fail(id, BrowserDisconnected);
        todo := todo - {id};
      }
      assert ids - todo == ids;
    }

    /** The number shown to the operator. */
    method CancellationTombstoneCount(now: nat) returns (n: nat)
      requires Valid() && clock <= now
      modifies this
      ensures n == |Live(old(cancelled), now)| <= TombstoneLimit(limits)
      ensures View() == old(View()).(cancelled := Live(old(cancelled), now), clock := now) && Valid()
    {
      hide Inv;
      hide Settle;
      hide Counts;
      SweepKeepsInv(View(), limits, now);
      SweepCancellations(now);
      n := |cancelled|;
    }

    /** `fail` without telling the browser. */
    method Fail(id: Uuid, code: ErrorCode)
      requires Valid()
      modifies this, recent
      ensures View() == if id in old(pending) then Settle(old(View()), {id}, Rejected(code)) else old(View())
      ensures Valid()
    {
      hide Inv;
      hide Settle;
      hide Counts;
      if id !in pending {
        return;
      }
      InvFacts(View(), limits);
      EndKeepsInv(View(), limits, id, Rejected(code));
      Conclude(id, code);
    }

    /** `fail` when it also tells the browser: the timer fired or the caller went away. */
    method FailAndNotify(id: Uuid, code: ErrorCode, now: nat, sent: bool)
      requires Valid() && clock <= now
      modifies this, recent
      ensures View() == Interrupted(old(View()), limits, now, id, code, sent)
      ensures Valid()
    {
      hide Inv;
      hide Settle;
      hide Counts;
      if id !in pending {
        return;
      }
      InterruptKeepsInv(View(), limits, now, id, code, sent);
      InvFacts(View(), limits);
      var connectionId := Connection(pending[id]);
      cancelled := DeleteWhile(cancelled, IsLive(now));
      cancelled := MakeRoom(cancelled, maxCancelledTombstones);
      cancelled := cancelled + [Entry(id, now + limits.browserRequestTimeoutMs, connectionId)];
      outbox := outbox + [Outgoing(connectionId, CancelMessage(id), sent)];
      clock := now;
      assert View() == Buried(old(View()), limits, now, id, sent);
      Conclude(id, code);
    }

    /** The common end of `fail`: clean up, finish the history record, reject the promise. */
    method Conclude(id: Uuid, code: ErrorCode)
      requires id in pending && id in verdicts && active == Counts(pending)
      requires recent.Valid()
      modifies this, recent
      ensures View() == Settle(old(View()), {id}, Rejected(code))
    {
      Cleanup(id);
      recent.Finish(id, OutcomeFor(Rejected(code)), Some(code), None);
      verdicts := verdicts[id := verdicts[id] + [Rejected(code)]];
      IsSettled(old(View()), View(), id, Rejected(code));
    }

    method Cleanup(id: Uuid)
      requires id in pending && active == Counts(pending)
      modifies this`pending, this`active
      ensures pending == old(pending) - {id}
      ensures active == Counts(pending)
    {
      CountsWithout(pending, id);
      var connectionId := Connection(pending[id]);
      pending := pending - {id};
      var current := if connectionId in active then active[connectionId] else 1;
      var nextCount := if current - 1 > 0 then current - 1 else 0;
      if nextCount == 0 {
        active := active - {connectionId};
      } else {
        active := active[connectionId := nextCount];
      }
    }

    method ConsumeCancellation(connectionId: Uuid, id: Uuid, now: nat) returns (absorbed: bool)
      requires Valid() && clock <= now && id !in pending
      modifies this
      ensures Valid() && View() == Absorbed(old(View()), now, connectionId, id)
      ensures absorbed == Absorbs(old(View()), now, connectionId, id)
    {
      hide Inv;
      hide Settle;
      hide Counts;
      AnswerKeepsInv(View(), limits, now, connectionId, id, Rejected(Cancelled));
      SweepCancellations(now);
      var found := Lookup(cancelled, id);
      if found.None? || found.value.value != connectionId {
        return false;
      }
      cancelled := DeleteWhile(cancelled, OtherKey(id));
      return true;
    }

    method SweepCancellations(now: nat)
      requires Valid() && clock <= now
      modifies this`cancelled, this`clock
      ensures View() == old(View()).(cancelled := Live(old(cancelled), now), clock := now)
      ensures Valid()
    {
      hide Inv;
      hide Settle;
      hide Counts;
      SweepKeepsInv(View(), limits, now);
      cancelled := DeleteWhile(cancelled, IsLive(now));
      clock := now;
    }
  }

  /** Recognising a settled state from its parts. */
  lemma IsSettled(before: State, after: State, id: Uuid, v: Verdict)
    requires id in before.pending && id in before.verdicts
    requires after.pending == before.pending - {id} && after.active == Counts(after.pending)
    requires after.verdicts == before.verdicts[id := before.verdicts[id] + [v]]
    requires after.history == FinishedAll(before.history, {id}, OutcomeFor(v), ErrorOf(v), SummaryOf(v))
    requires after.cancelled == before.cancelled && after.outbox == before.outbox && after.clock == before.clock
    ensures after == Settle(before, {id}, v)
  {
    var s := Settle(before, {id}, v);
    assert s.pending == after.pending;
    assert s.verdicts == after.verdicts;
    assert {id} * before.pending.Keys == {id};
  }
}
