/** The invocation broker as a state machine: which calls are pending, how each one ends, and
    which answers may still arrive late. */
module BrokerModel {
  import opened Common
  import opened Capabilities
  import opened RecentRequests
  import opened Sequences
  import opened Expiring

  datatype Limits = Limits(
    maxConcurrentRequests: nat,
    maxConcurrentRequestsPerRuntime: nat,
    browserRequestTimeoutMs: nat,
    recentRequests: nat)

  /** How a promise returned by `invoke` was settled. */
  datatype Verdict = Resolved(output: Summary) | Rejected(error: ErrorCode)

  datatype Pending = Pending(expectedKind: Kind, provider: Capability)

  datatype DownMessage = InvokeMessage(invocationId: Uuid) | CancelMessage(invocationId: Uuid)

  /** One call of `sender.send`, with the answer it gave. */
  datatype Outgoing = Outgoing(connectionId: Uuid, message: DownMessage, delivered: bool)

  /** `verdicts` records, for every invocation ever accepted, the calls made to its promise's
      `resolve` and `reject`; `outbox` records the messages handed to the sender. The tombstone
      table maps an invocation id to the connection that may still answer it. */
  datatype State = State(
    pending: map<Uuid, Pending>,
    active: map<Uuid, nat>,
    cancelled: seq<Entry<Uuid>>,
    history: History,
    verdicts: map<Uuid, seq<Verdict>>,
    outbox: seq<Outgoing>,
    clock: nat)

  const INITIAL := State(map[], map[], [], EMPTY_HISTORY, map[], [], 0)

  function TombstoneLimit(limits: Limits): (cap: nat)
    ensures cap >= 32 && cap >= 2 * limits.maxConcurrentRequests
    ensures cap == 32 || cap == 2 * limits.maxConcurrentRequests
  {
    if limits.maxConcurrentRequests * 2 > 32 then limits.maxConcurrentRequests * 2 else 32
  }

  function Connection(p: Pending): Uuid {
    p.provider.session.connectionId
  }

  /** The pending invocations that a connection owns. */
  function Owned(pending: map<Uuid, Pending>, connectionId: Uuid): set<Uuid> {
    set id | id in pending && Connection(pending[id]) == connectionId
  }

  function Connections(pending: map<Uuid, Pending>): set<Uuid> {
    set id | id in pending :: Connection(pending[id])
  }

  /** What the per-connection counters must say: no zero entries, exact numbers. */
  function Counts(pending: map<Uuid, Pending>): map<Uuid, nat> {
    map c | c in Connections(pending) :: |Owned(pending, c)|
  }

  function OutcomeFor(v: Verdict): Outcome {
    match v
    case Resolved(_) => OutcomeSuccess
    case Rejected(Cancelled) => OutcomeCancelled
    case Rejected(TimedOut) => OutcomeTimeout
    case Rejected(_) => OutcomeError
  }

  function ErrorOf(v: Verdict): Option<ErrorCode> {
    if v.Rejected? then Some(v.error) else None
  }

  function SummaryOf(v: Verdict): Option<Summary> {
    if v.Resolved? then Some(v.output) else None
  }

  /** The codes a browser may answer with, as the Bridge reports them. */
  function CodeFromBrowser(code: string): ErrorCode {
    if code == "INVOCATION_TIMEOUT" then TimedOut
    else if code == "INVOCATION_CANCELLED" then Cancelled
    else if code == "RATE_LIMITED" then ConcurrencyLimit
    else if code == "CONNECTION_CLOSED" || code == "SESSION_EXPIRED" then BrowserDisconnected
    else BrowserError
  }

  /** Every way an invocation ends: the ids leave the pending table, their promises get the verdict
      and their history records get the matching outcome. */
  function Settle(b: State, ids: set<Uuid>, v: Verdict): State {
    var rest := map id | id in b.pending && id !in ids :: b.pending[id];
    b.(pending := rest,
       active := Counts(rest),
       verdicts := map id | id in b.verdicts ::
         if id in b.pending && id in ids then b.verdicts[id] + [v] else b.verdicts[id],
       history := FinishedAll(b.history, ids * b.pending.Keys, OutcomeFor(v), ErrorOf(v), SummaryOf(v)))
  }

  function Refusal(b: State, limits: Limits, provider: Capability, aborted: bool): Option<ErrorCode> {
    if |b.pending| >= limits.maxConcurrentRequests then Some(ConcurrencyLimit)
    else if |Owned(b.pending, provider.session.connectionId)| >= limits.maxConcurrentRequestsPerRuntime then
      Some(ConcurrencyLimit)
    else if aborted then Some(Cancelled)
    else None
  }

  function Opened(b: State, limits: Limits, id: Uuid, kind: Kind, provider: Capability, sent: bool): State {
    var pending := b.pending[id := Pending(kind, provider)];
    b.(pending := pending,
       active := Counts(pending),
       verdicts := b.verdicts[id := []],
       history := Started(b.history, limits.recentRequests, id, provider.session.appId, kind, provider.registration.id),
       outbox := b.outbox + [Outgoing(provider.session.connectionId, InvokeMessage(id), sent)])
  }

  /** `invoke`: refused without a trace, or accepted; an accepted call whose message could not be
      sent ends at once. */
  function Invoked(b: State, limits: Limits, id: Uuid, kind: Kind, provider: Capability, aborted: bool,
                   sent: bool): State {
    if Refusal(b, limits, provider, aborted).Some? then b
    else if sent then Opened(b, limits, id, kind, provider, sent)
    else Settle(Opened(b, limits, id, kind, provider, sent), {id}, Rejected(BrowserDisconnected))
  }

  /** A late answer is accepted once, from the connection that owned the call, until it expires. */
  function Absorbs(b: State, now: nat, connectionId: Uuid, id: Uuid): bool {
    var found := Lookup(Live(b.cancelled, now), id);
    found.Some? && found.value.value == connectionId
  }

  function Absorbed(b: State, now: nat, connectionId: Uuid, id: Uuid): State {
    var live := Live(b.cancelled, now);
    b.(cancelled := if Absorbs(b, now, connectionId, id) then Without(live, id) else live, clock := now)
  }

  /** An answer from a browser: a result, an error or a cancellation. */
  function Answered(b: State, now: nat, connectionId: Uuid, id: Uuid, v: Verdict): State {
    if id !in b.pending then Absorbed(b, now, connectionId, id)
    else if Connection(b.pending[id]) != connectionId then b
    else Settle(b, {id}, v)
  }

  function Matched(b: State, now: nat, connectionId: Uuid, id: Uuid): bool {
    if id !in b.pending then Absorbs(b, now, connectionId, id)
    else Connection(b.pending[id]) == connectionId
  }

  /** The verdict that a result message brings about: a result of the wrong kind is an error. */
  function ResultVerdict(b: State, id: Uuid, output: Summary): Verdict {
    if id in b.pending && b.pending[id].expectedKind != output.kind then Rejected(InvalidMessage)
    else Resolved(output)
  }

  /** The Bridge gives up on a call by itself: first it leaves a tombstone and tells the browser. */
  function Buried(b: State, limits: Limits, now: nat, id: Uuid, sent: bool): State
    requires id in b.pending
  {
    var connectionId := Connection(b.pending[id]);
    var tombstone := Entry(id, now + limits.browserRequestTimeoutMs, connectionId);
    b.(cancelled := Inserted(b.cancelled, TombstoneLimit(limits), now, tombstone),
       outbox := b.outbox + [Outgoing(connectionId, CancelMessage(id), sent)],
       clock := now)
  }

  function Interrupted(b: State, limits: Limits, now: nat, id: Uuid, code: ErrorCode, sent: bool): State {
    if id in b.pending then Settle(Buried(b, limits, now, id, sent), {id}, Rejected(code)) else b
  }

  function FromOthers(connectionId: Uuid): Entry<Uuid> -> bool {
    (e: Entry<Uuid>) => e.value != connectionId
  }

  /** A connection is gone. */
  function Lost(b: State, connectionId: Uuid): State {
    Settle(b, Owned(b.pending, connectionId), Rejected(BrowserDisconnected))
      .(cancelled := Keep(b.cancelled, FromOthers(connectionId)))
  }

  /** The Bridge stops. */
  function Stopped(b: State): State {
    Settle(b, b.pending.Keys, Rejected(BrowserDisconnected)).(cancelled := [])
  }

  /** One atomic step. The booleans `sent` are the sender's answers. */
  datatype Event =
    | Invoke(id: Uuid, kind: Kind, provider: Capability, aborted: bool, sent: bool)
    | ResultMessage(connectionId: Uuid, id: Uuid, output: Summary)
    | ErrorMessage(connectionId: Uuid, id: Uuid, code: string)
    | CancelFromBrowser(connectionId: Uuid, id: Uuid)
    | TimerFired(id: Uuid, sent: bool)
    | SignalAborted(id: Uuid, sent: bool)
    | ConnectionLost(connectionId: Uuid)
    | Stop

  function Step(b: State, limits: Limits, now: nat, e: Event): State {
    match e
    case Invoke(id, kind, provider, aborted, sent) => Invoked(b, limits, id, kind, provider, aborted, sent)
    case ResultMessage(c, id, output) => Answered(b, now, c, id, ResultVerdict(b, id, output))
    case ErrorMessage(c, id, code) => Answered(b, now, c, id, Rejected(CodeFromBrowser(code)))
    case CancelFromBrowser(c, id) => Answered(b, now, c, id, Rejected(Cancelled))
    case TimerFired(id, sent) => Interrupted(b, limits, now, id, TimedOut, sent)
    case SignalAborted(id, sent) => Interrupted(b, limits, now, id, Cancelled, sent)
    case ConnectionLost(c) => Lost(b, c)
    case Stop => Stopped(b)
  }

  /** The clock does not run backwards and `randomUUID` does not repeat itself. */
  ghost predicate Possible(b: State, now: nat, e: Event) {
    && b.clock <= now
    && (e.Invoke? ==> e.id !in b.verdicts)
  }

  // ----- The invariant -----

  /** A promise is either still open or settled, never both and never twice. */
  ghost predicate SettledOnce(b: State) {
    && b.pending.Keys <= b.verdicts.Keys
    && forall id :: id in b.verdicts ==> |b.verdicts[id]| == (if id in b.pending then 0 else 1)
  }

  ghost predicate WithinLimits(b: State, limits: Limits) {
    && |b.pending| <= limits.maxConcurrentRequests
    && forall c :: |Owned(b.pending, c)| <= limits.maxConcurrentRequestsPerRuntime
  }

  ghost predicate Tombstones(b: State, limits: Limits) {
    && InOrder(b.cancelled)
    && |b.cancelled| <= TombstoneLimit(limits)
    && forall t :: t in b.cancelled ==>
      && t.key in b.verdicts && t.key !in b.pending
      && t.expiresAt <= b.clock + limits.browserRequestTimeoutMs
  }

  /** The record is about this call. */
  predicate Names(r: Record, p: Pending) {
    && r.appId == p.provider.session.appId && r.kind == p.expectedKind
    && r.registrationId == p.provider.registration.id
  }

  /** A retained record is pending exactly when the call is, and otherwise tells its verdict. */
  ghost predicate Mirrors(b: State, limits: Limits) {
    && Consistent(b.history, limits.recentRequests)
    && forall id :: id in b.history.requests ==>
      && id in b.verdicts
      && var r := b.history.requests[id];
      && (r.outcome == OutcomePending <==> id in b.pending)
      && (id in b.pending ==> Names(r, b.pending[id]))
      && (id !in b.pending && |b.verdicts[id]| == 1 ==>
            && r.outcome == OutcomeFor(b.verdicts[id][0])
            && r.error == ErrorOf(b.verdicts[id][0])
            && r.result == SummaryOf(b.verdicts[id][0]))
  }

  ghost predicate Inv(b: State, limits: Limits) {
    && b.active == Counts(b.pending)
    && SettledOnce(b)
    && WithinLimits(b, limits)
    && Tombstones(b, limits)
    && Mirrors(b, limits)
  }
}
