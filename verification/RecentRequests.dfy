/** The bounded history of requests that the Bridge shows to its operator. */
module RecentRequests {
  import opened Common

  datatype Outcome = OutcomePending | OutcomeSuccess | OutcomeError | OutcomeTimeout | OutcomeCancelled

  datatype Summary = Summary(kind: Kind, itemCount: nat, isError: bool)

  datatype Record = Record(
    appId: string,
    kind: Kind,
    registrationId: string,
    outcome: Outcome,
    error: Option<ErrorCode>,
    result: Option<Summary>)

  datatype History = History(order: seq<Uuid>, requests: map<Uuid, Record>)

  const EMPTY_HISTORY := History([], map[])

  ghost predicate Distinct(s: seq<Uuid>) {
    forall i, j :: 0 <= i < j < |s| ==> s[i] != s[j]
  }

  /** The ring and the table hold the same ids, each once, and no more than the limit. */
  ghost predicate Consistent(h: History, limit: nat) {
    && |h.order| <= limit
    && Distinct(h.order)
    && (forall id :: id in h.requests <==> id in h.order)
  }

  function Newest(order: seq<Uuid>, limit: nat): (kept: seq<Uuid>) {
    if |order| <= limit then order else order[|order| - limit..]
  }

  /** A new request enters as pending; the oldest ones leave when the ring is full. */
  function Started(h: History, limit: nat, id: Uuid, appId: string, kind: Kind, registrationId: string): History {
    var record := Record(appId, kind, registrationId, OutcomePending, None, None);
    var order := Newest(h.order + [id], limit);
    History(order, Within(h.requests[id := record], order))
  }

  function Within(requests: map<Uuid, Record>, order: seq<Uuid>): map<Uuid, Record> {
    map i | i in requests && i in order :: requests[i]
  }

  lemma WithoutOldest(requests: map<Uuid, Record>, order: seq<Uuid>)
    requires Distinct(order) && order != []
    ensures Within(requests, order) - {order[0]} == Within(requests, order[1..])
  {
    assert order == [order[0]] + order[1..];
    forall k | 0 <= k < |order[1..]| ensures order[1..][k] != order[0] {
      assert order[1..][k] == order[k + 1];
    }
  }

  /** What is left of a ring while its oldest entries leave, and never more of them than have to. */
  ghost predicate IsRest(rest: seq<Uuid>, all: seq<Uuid>, limit: nat) {
    && Distinct(rest) && |rest| <= |all| && rest == all[|all| - |rest|..]
    && (if |all| <= limit then rest == all else |rest| >= limit)
  }

  lemma WholeIsRest(all: seq<Uuid>, limit: nat)
    requires Distinct(all)
    ensures IsRest(all, all, limit)
  {
  }

  lemma RestWithoutOldest(rest: seq<Uuid>, all: seq<Uuid>, limit: nat)
    requires IsRest(rest, all, limit) && |rest| > limit
    ensures Distinct(rest) && IsRest(rest[1..], all, limit)
  {
    hide Distinct;
    TailDistinct(rest);
    assert rest[1..] == all[|all| - |rest|..][1..] == all[|all| - |rest[1..]|..];
  }

  lemma TailDistinct(s: seq<Uuid>)
    requires s != [] && Distinct(s)
    ensures Distinct(s[1..])
  {
    forall i, j | 0 <= i < j < |s[1..]| ensures s[1..][i] != s[1..][j] {
      assert s[1..][i] == s[i + 1] && s[1..][j] == s[j + 1];
    }
  }

  lemma RestIsNewest(rest: seq<Uuid>, all: seq<Uuid>, limit: nat)
    requires IsRest(rest, all, limit) && |rest| <= limit
    ensures rest == Newest(all, limit)
  {
    hide Distinct;
  }

  /** Only a request that is still pending takes an outcome. */
  function Finished(r: Record, outcome: Outcome, error: Option<ErrorCode>, result: Option<Summary>): Record {
    if r.outcome == OutcomePending then r.(outcome := outcome, error := error, result := result) else r
  }

  function FinishedAll(h: History, ids: set<Uuid>, outcome: Outcome, error: Option<ErrorCode>,
                       result: Option<Summary>): History
  {
    h.(requests := map i | i in h.requests ::
      if i in ids then Finished(h.requests[i], outcome, error, result) else h.requests[i])
  }

  lemma StartedIsConsistent(h: History, limit: nat, id: Uuid, appId: string, kind: Kind, registrationId: string)
    requires Consistent(h, limit) && id !in h.requests
    ensures Consistent(Started(h, limit, id, appId, kind, registrationId), limit)
  {
    var all := h.order + [id];
    var kept := Newest(all, limit);
    assert Distinct(all);
    forall i | i in kept ensures i in h.requests[id := Record(appId, kind, registrationId, OutcomePending, None, None)] {
      assert i in all;
    }
  }

  lemma StartedRecords(h: History, limit: nat, id: Uuid, appId: string, kind: Kind, registrationId: string)
    ensures var after := Started(h, limit, id, appId, kind, registrationId);
      forall i :: i in after.requests ==>
        if i == id then after.requests[i] == Record(appId, kind, registrationId, OutcomePending, None, None)
        else i in h.requests && after.requests[i] == h.requests[i]
  {
    hide Newest;
  }

  class RecentRequestStore {
    const limit: nat
    var requests: map<Uuid, Record>
    var order: seq<Uuid>

    ghost function View(): History
      reads this
    {
      History(order, requests)
    }

    ghost predicate Valid()
      reads this
    {
      Consistent(View(), limit)
    }

    constructor (limit: nat)
      ensures this.limit == limit
      ensures View() == EMPTY_HISTORY && Valid()
    {
      this.limit := limit;
      requests := map[];
      order := [];
    }

    method Start(id: Uuid, appId: string, kind: Kind, registrationId: string)
      requires Valid() && id !in requests
      modifies this
      ensures View() == Started(old(View()), limit, id, appId, kind, registrationId)
      ensures Valid()
    {
      StartedIsConsistent(View(), limit, id, appId, kind, registrationId);
      requests := requests[id := Record(appId, kind, registrationId, OutcomePending, None, None)];
      order := order + [id];
      assert Distinct(order);
      assert requests == Within(requests, order);
      DropOldest();
    }

    /** The eviction loop at the end of `start`. */
    method DropOldest()
      requires Distinct(order) && requests == Within(requests, order)
      modifies this
      ensures order == Newest(old(order), limit)
      ensures requests == Within(old(requests), order)
    {
      hide Within; hide Newest; hide Distinct; hide IsRest;
      ghost var all, table := order, requests;
      WholeIsRest(all, limit);
      while |order| > limit
        invariant IsRest(order, all, limit)
        invariant requests == Within(table, order)
        decreases |order|
      {
        RestWithoutOldest(order, all, limit);
        WithoutOldest(table, order);
        var oldest := order[0];
        order := order[1..];
        requests := requests - {oldest};
      }
      RestIsNewest(order, all, limit);
    }

    method Finish(id: Uuid, outcome: Outcome, error: Option<ErrorCode>, result: Option<Summary>)
      requires Valid()
      modifies this
      ensures View() == FinishedAll(old(View()), {id}, outcome, error, result)
      ensures id in old(requests) && old(requests)[id].outcome == OutcomePending ==>
        requests == old(requests)[id := old(requests)[id].(outcome := outcome, error := error, result := result)]
      ensures id !in old(requests) || old(requests)[id].outcome != OutcomePending ==> requests == old(requests)
      ensures Valid() && order == old(order)
    {
      if id !in requests || requests[id].outcome != OutcomePending {
        return;
      }
      requests := requests[id := requests[id].(outcome := outcome, error := error, result := result)];
    }

    /** Newest first. */
    method Recent() returns (items: seq<Record>)
      requires Valid()
      ensures |items| == |order|
      ensures forall i :: 0 <= i < |items| ==>
        order[|order| - 1 - i] in requests && items[i] == requests[order[|order| - 1 - i]]
    {
      items := [];
      var n := |order|;
      while n > 0
        invariant 0 <= n <= |order| && |items| == |order| - n
        invariant forall i :: 0 <= i < |items| ==>
          order[|order| - 1 - i] in requests && items[i] == requests[order[|order| - 1 - i]]
      {
        n := n - 1;
        if order[n] in requests {
          items := items + [requests[order[n]]];
        }
      }
    }
  }
}
