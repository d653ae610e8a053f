/** What becomes of a call, from the moment the browser takes it to the verdict of its promise, with
    everything else that the Bridge and the browser do in between. */
module CallOutcomes {
  import opened Common
  import opened RecentRequests
  import opened BrokerModel
  import opened BrokerLaws
  import opened TwoParty
  import opened Executor

  // ----- What the browser says -----

  /** A running call that ends leaves, and is the last thing that the browser said, in the words that
      fit its ending; two kinds of ending leave nothing. */
  lemma EndingIsAnswered(s: System, limits: Limits, id: Uuid, ending: Ending)
    requires id in s.active && s.reachable
    ensures var after := Next(s, limits, HandlerEnds(id, ending));
      && after.active == s.active - {id} && after.broker == s.broker && after.down == s.down
      && match ending
         case Value(output, size) =>
           after.up == s.up + [if size <= s.messageLimit then ResultUp(id, output) else ErrorUp(id, "HANDLER_ERROR")]
         case Failure(size) => after.up == if size <= s.messageLimit then s.up + [ErrorUp(id, "HANDLER_ERROR")] else s.up
         case Deadline => after.up == s.up + [ErrorUp(id, "INVOCATION_TIMEOUT")]
         case TimeoutError(size) =>
           after.up == if size <= s.messageLimit then s.up + [ErrorUp(id, "INVOCATION_TIMEOUT")] else s.up
         case CancelledError(size) =>
           after.up == if size <= s.messageLimit then s.up + [ErrorUp(id, "INVOCATION_CANCELLED")] else s.up
         case ClosedError => after.up == s.up
    ensures var after := Next(s, limits, HandlerEnds(id, ending)); after.up == s.up ==> id in after.silent
  {
  }

  // ----- What the broker makes of it -----

  /** The verdict that an answer from the browser stands for, when the call expects `kind`. */
  ghost predicate Means(m: UpMessage, kind: Kind, v: Verdict) {
    match m
    case ResultUp(_, output) => v == if output.kind == kind then Resolved(output) else Rejected(InvalidMessage)
    case ErrorUp(_, code) =>
      && v.Rejected?
      && (code == "INVOCATION_TIMEOUT" ==> v.error == TimedOut)
      && (code == "INVOCATION_CANCELLED" ==> v.error == Cancelled)
      && (code == "RATE_LIMITED" ==> v.error == ConcurrencyLimit)
      && (code == "CONNECTION_CLOSED" || code == "SESSION_EXPIRED" ==> v.error == BrowserDisconnected)
      && (code !in {"INVOCATION_TIMEOUT", "INVOCATION_CANCELLED", "RATE_LIMITED", "CONNECTION_CLOSED", "SESSION_EXPIRED"} ==>
            v.error == BrowserError)
  }

  /** The first thing that the browser has said about the call and the Bridge has not heard yet. */
  ghost predicate AnsweredBy(up: seq<UpMessage>, id: Uuid, m: UpMessage) {
    && m.invocationId == id
    && exists i :: 0 <= i < |up| && up[i] == m && forall j :: 0 <= j < i ==> up[j].invocationId != id
  }

  /** The call is held for this connection, as it was called. */
  predicate Holding(s: System, id: Uuid, p: Pending) {
    id in s.broker.pending && s.broker.pending[id] == p && p.provider.session.connectionId == s.connection
  }

  ghost predicate HasVerdict(s: System, id: Uuid, v: Verdict) {
    id !in s.broker.pending && id in s.broker.verdicts && s.broker.verdicts[id] == [v]
  }

  /** The Bridge gives the call up by itself: its timer, its caller, its connection, or the end. */
  predicate Abandons(a: Action, connection: Uuid, id: Uuid) {
    && a.BridgeStep?
    && match a.event
       case TimerFired(i, _) => i == id
       case SignalAborted(i, _) => i == id
       case ConnectionLost(c) => c == connection
       case Stop => true
       case _ => false
  }

  lemma HeldIsOwned(s: System, id: Uuid, p: Pending)
    requires Holding(s, id, p)
    ensures id in Owned(s.broker.pending, s.connection)
  {
  }

  /** What one step does to a held call: nothing, unless it gives the call up or hears its answer. */
  lemma HeldOn(s: System, limits: Limits, a: Action, id: Uuid, p: Pending)
    requires WireInv(s, limits) && Enabled(s, a) && Holding(s, id, p) && !Abandons(a, s.connection, id)
    requires a.DeliverUp? ==> s.up[0].invocationId != id
    ensures Holding(Next(s, limits, a), id, p)
  {
    hide WireInv; hide Inv; hide Step; hide Emitted; hide Next;
    WireKnows(s, limits);
    NextOnBroker(s, limits, a);
    match a
    case BridgeStep(now, e, _) => CallEndsExactlyWhenAddressed(s.broker, limits, now, e, id);
    case DeliverUp(now) =>
      CallEndsExactlyWhenAddressed(s.broker, limits, now, EventOf(s.connection, s.up[0]), id);
    case _ =>
  }

  lemma HeardSettles(s: System, limits: Limits, now: nat, id: Uuid, p: Pending, v: Verdict)
    requires WireInv(s, limits) && Enabled(s, DeliverUp(now)) && Holding(s, id, p)
    requires s.up[0].invocationId == id && Means(s.up[0], p.expectedKind, v)
    ensures HasVerdict(Next(s, limits, DeliverUp(now)), id, v)
  {
    hide WireInv; hide Inv; hide Step; hide Emitted; hide Next;
    WireKnows(s, limits);
    NextOnBroker(s, limits, DeliverUp(now));
    match s.up[0]
    case ResultUp(_, output) => AnswersSettle(s.broker, limits, now, id, output, "");
    case ErrorUp(_, code) => AnswersSettle(s.broker, limits, now, id, Summary(Tool, 0, false), code);
  }

  lemma SettledStays(s: System, limits: Limits, a: Action, id: Uuid, v: Verdict)
    requires WireInv(s, limits) && Enabled(s, a) && HasVerdict(s, id, v)
    ensures HasVerdict(Next(s, limits, a), id, v)
  {
    hide WireInv; hide Inv; hide Step; hide Emitted; hide Next;
    WireKnows(s, limits);
    NextOnBroker(s, limits, a);
    match a
    case BridgeStep(now, e, _) => VerdictIsFinal(s.broker, limits, now, e, id);
    case DeliverUp(now) => VerdictIsFinal(s.broker, limits, now, EventOf(s.connection, s.up[0]), id);
    case _ =>
  }

  /** Answers are heard one at a time from the front, and new ones come last. */
  lemma UpAfter(s: System, limits: Limits, a: Action)
    requires Enabled(s, a)
    ensures var after := Next(s, limits, a);
      if a.DeliverUp? then after.up == s.up[1..]
      else after.up == s.up || (|after.up| == |s.up| + 1 && after.up[..|s.up|] == s.up)
  {
    hide Step; hide Emitted; hide Possible; hide GivesUp;
  }

  lemma StillAnsweredBy(up: seq<UpMessage>, later: seq<UpMessage>, id: Uuid, m: UpMessage)
    requires AnsweredBy(up, id, m)
    requires later == up || (|later| == |up| + 1 && later[..|up|] == up) || (up[0].invocationId != id && later == up[1..])
    ensures AnsweredBy(later, id, m)
  {
    var i :| 0 <= i < |up| && up[i] == m && forall j :: 0 <= j < i ==> up[j].invocationId != id;
    if later == up[1..] && up[0].invocationId != id {
      assert later[i - 1] == m && forall j :: 0 <= j < i - 1 ==> later[j] == up[j + 1];
    } else {
      assert later[..|up|] == up;
      assert forall j :: 0 <= j <= i ==> later[j] == later[..|up|][j];
    }
  }

  /** The call waits for this answer, or has got the verdict that it stands for. */
  ghost predicate Concluding(s: System, id: Uuid, p: Pending, m: UpMessage, v: Verdict) {
    (Holding(s, id, p) && AnsweredBy(s.up, id, m)) || HasVerdict(s, id, v)
  }

  lemma FirstAnswer(up: seq<UpMessage>, id: Uuid, m: UpMessage)
    requires AnsweredBy(up, id, m)
    ensures up != [] && (up[0].invocationId == id ==> up[0] == m)
  {
  }

  lemma StepConcludes(s: System, limits: Limits, a: Action, id: Uuid, p: Pending, m: UpMessage, v: Verdict)
    requires WireInv(s, limits) && Enabled(s, a) && !Abandons(a, s.connection, id)
    requires Concluding(s, id, p, m, v) && Means(m, p.expectedKind, v)
    ensures Concluding(Next(s, limits, a), id, p, m, v)
  {
    hide WireInv; hide Next; hide Enabled; hide Means; hide Abandons; hide Holding; hide HasVerdict; hide AnsweredBy;
    if HasVerdict(s, id, v) {
      SettledStays(s, limits, a, id, v);
    } else {
      FirstAnswer(s.up, id, m);
      UpAfter(s, limits, a);
      if a.DeliverUp? && s.up[0].invocationId == id {
        HeardSettles(s, limits, a.now, id, p, v);
      } else {
        HeldOn(s, limits, a, id, p);
        StillAnsweredBy(s.up, Next(s, limits, a).up, id, m);
      }
    }
  }

  // ----- Whole runs -----

  /** The Bridge does not give the call up during the run. */
  ghost predicate KeepsWaiting(run: seq<Action>, connection: Uuid, id: Uuid) {
    forall i :: 0 <= i < |run| ==> !Abandons(run[i], connection, id)
  }

  /** Once the browser has answered, nothing but the Bridge giving up can change what becomes of the
      call: in every run it waits for that answer to be heard, or has exactly the verdict that the
      answer stands for. */
  lemma {:induction false} AnswerIsHeard(s: System, limits: Limits, run: seq<Action>, id: Uuid, p: Pending,
                                         m: UpMessage, v: Verdict)
    requires WireInv(s, limits) && EnabledRun(s, limits, run) && KeepsWaiting(run, s.connection, id)
    requires Concluding(s, id, p, m, v) && Means(m, p.expectedKind, v)
    ensures Concluding(AfterRun(s, limits, run), id, p, m, v)
    decreases |run|
  {
    hide WireInv; hide Next; hide Enabled; hide Means; hide Abandons; hide Concluding;
    if run != [] {
      StepConcludes(s, limits, run[0], id, p, m, v);
      NextKeepsInv(s, limits, run[0]);
      NextOnBroker(s, limits, run[0]);
      AnswerIsHeard(Next(s, limits, run[0]), limits, run[1..], id, p, m, v);
    }
  }

  /** The browser runs the call and the Bridge waits for it. */
  ghost predicate Running(s: System, id: Uuid, p: Pending) {
    Holding(s, id, p) && id in s.active && s.reachable
  }

  /** Neither end of the connection stops the call: it has not ended, and the browser has not left. */
  ghost predicate LetsRun(run: seq<Action>, connection: Uuid, id: Uuid) {
    && KeepsWaiting(run, connection, id)
    && forall i :: 0 <= i < |run| ==> run[i] != BrowserCloses && !(run[i].HandlerEnds? && run[i].id == id)
  }

  lemma StepRunsOn(s: System, limits: Limits, a: Action, id: Uuid, p: Pending)
    requires WireInv(s, limits) && Enabled(s, a) && Running(s, id, p)
    requires !Abandons(a, s.connection, id) && a != BrowserCloses && !(a.HandlerEnds? && a.id == id)
    ensures Running(Next(s, limits, a), id, p)
  {
    hide Inv; hide Step; hide Emitted; hide Claimed; hide Guarded; hide SentOnce; hide InvokeIds; hide CancelIds;
    hide Possible; hide GivesUp; hide Holding; hide Abandons;
    RunningIsUnanswered(s, limits, id, p);
    HeldOn(s, limits, a, id, p);
    if a.DeliverDown? && s.down[0].message.InvokeMessage? {
      DeliveredInvoke(s, limits, a.registered, a.already);
    }
  }

  /** A running call has not been answered, and no cancel for it is next on the wire. */
  lemma RunningIsUnanswered(s: System, limits: Limits, id: Uuid, p: Pending)
    requires WireInv(s, limits) && Running(s, id, p)
    ensures id !in UpIds(s.up) && (s.up != [] ==> s.up[0].invocationId != id)
    ensures s.down != [] ==> s.down[0].message != CancelMessage(id)
  {
    hide Inv; hide Claimed; hide Guarded; hide SentOnce; hide InvokeIds;
    HeldIsOwned(s, id, p);
    assert s.up != [] ==> s.up[0] in s.up;
  }

  lemma {:induction false} RunsOn(s: System, limits: Limits, run: seq<Action>, id: Uuid, p: Pending)
    requires WireInv(s, limits) && EnabledRun(s, limits, run) && Running(s, id, p) && LetsRun(run, s.connection, id)
    ensures Running(AfterRun(s, limits, run), id, p)
    decreases |run|
  {
    hide WireInv; hide Next; hide Enabled; hide Abandons; hide Running;
    if run != [] {
      StepRunsOn(s, limits, run[0], id, p);
      NextKeepsInv(s, limits, run[0]);
      NextOnBroker(s, limits, run[0]);
      RunsOn(Next(s, limits, run[0]), limits, run[1..], id, p);
    }
  }

  lemma EndingIsHeldFor(s: System, limits: Limits, id: Uuid, p: Pending, ending: Ending, m: UpMessage)
    requires WireInv(s, limits) && Running(s, id, p) && m.invocationId == id
    requires Next(s, limits, HandlerEnds(id, ending)).up == s.up + [m]
    ensures var after := Next(s, limits, HandlerEnds(id, ending)); Holding(after, id, p) && AnsweredBy(after.up, id, m)
  {
    hide WireInv; hide UpIds; hide Concluded;
    RunningIsUnanswered(s, limits, id, p);
    var up := s.up + [m];
    forall j | 0 <= j < |s.up| ensures up[j].invocationId != id {
      NotAmong(s.up, id, j);
    }
    assert up[|s.up|] == m;
  }

  lemma NotAmong(up: seq<UpMessage>, id: Uuid, j: nat)
    requires id !in UpIds(up) && j < |up|
    ensures up[j].invocationId != id
  {
    assert up[j] in up;
  }

  lemma DeliveredCallRuns(s: System, limits: Limits, id: Uuid, p: Pending, already: Option<Ending>)
    requires WireInv(s, limits) && s.down != [] && s.down[0].message == InvokeMessage(id)
    requires Holding(s, id, p) && s.reachable
    ensures Running(Next(s, limits, DeliverDown(true, already)), id, p)
  {
    hide WireInv; hide Inv; hide Delivered;
    DeliveredInvoke(s, limits, true, already);
  }

  lemma {:induction false} LimitStays(s: System, limits: Limits, run: seq<Action>)
    requires EnabledRun(s, limits, run)
    ensures AfterRun(s, limits, run).messageLimit == s.messageLimit
    decreases |run|
  {
    hide Enabled; hide Step; hide Emitted;
    if run != [] {
      LimitStays(Next(s, limits, run[0]), limits, run[1..]);
    }
  }

  /** The round trip of a call. An `invoke` is next on the wire, and its registration is known to the
      browser. Whatever else both parties do before and after the handler ends, as long as the
      Bridge does not give the call up: the answer that fits the ending waits to be heard, or the call's
      promise has got exactly the verdict that fits it; and a call whose ending is not reported waits. */
  lemma CallRoundTrip(s: System, limits: Limits, id: Uuid, p: Pending, already: Option<Ending>, before: seq<Action>,
                      ending: Ending, after: seq<Action>)
    requires WireInv(s, limits) && s.down != [] && s.down[0].message == InvokeMessage(id)
    requires Holding(s, id, p) && s.reachable
    requires var started := Next(s, limits, DeliverDown(true, already));
      EnabledRun(started, limits, before) && LetsRun(before, s.connection, id)
    requires var started := Next(s, limits, DeliverDown(true, already));
      var ended := Next(AfterRun(started, limits, before), limits, HandlerEnds(id, ending));
      EnabledRun(ended, limits, after) && KeepsWaiting(after, s.connection, id)
    ensures var started := Next(s, limits, DeliverDown(true, already));
      var ended := Next(AfterRun(started, limits, before), limits, HandlerEnds(id, ending));
      var t := AfterRun(ended, limits, after);
      match ending
      case Value(output, size) =>
        if size > s.messageLimit then Concluding(t, id, p, ErrorUp(id, "HANDLER_ERROR"), Rejected(BrowserError))
        else if output.kind != p.expectedKind then Concluding(t, id, p, ResultUp(id, output), Rejected(InvalidMessage))
        else Concluding(t, id, p, ResultUp(id, output), Resolved(output))
      case Failure(size) =>
        if size <= s.messageLimit then Concluding(t, id, p, ErrorUp(id, "HANDLER_ERROR"), Rejected(BrowserError))
        else Holding(t, id, p)
      case Deadline => Concluding(t, id, p, ErrorUp(id, "INVOCATION_TIMEOUT"), Rejected(TimedOut))
      case TimeoutError(size) =>
        if size <= s.messageLimit then Concluding(t, id, p, ErrorUp(id, "INVOCATION_TIMEOUT"), Rejected(TimedOut))
        else Holding(t, id, p)
      case CancelledError(size) =>
        if size <= s.messageLimit then Concluding(t, id, p, ErrorUp(id, "INVOCATION_CANCELLED"), Rejected(Cancelled))
        else Holding(t, id, p)
      case ClosedError => Holding(t, id, p)
  {
    hide WireInv; hide Next; hide EnabledRun; hide AfterRun; hide KeepsWaiting; hide LetsRun; hide Running; hide Concluding;
    var started := Next(s, limits, DeliverDown(true, already));
    DeliveredCallRuns(s, limits, id, p, already);
    NextKeepsInv(s, limits, DeliverDown(true, already));
    LimitOfStep(s, limits, DeliverDown(true, already));
    var running := AfterRun(started, limits, before);
    RunsOn(started, limits, before, id, p);
    RunKeepsWireInv(started, limits, before);
    LimitStays(started, limits, before);
    ConnectionStays(started, limits, before);
    EndingIsAnswered(running, limits, id, ending) by {
      RunningMeans(running, id, p);
    }
    match ending
    case Value(output, size) =>
      if size > s.messageLimit {
        Concludes(running, limits, id, p, ending, ErrorUp(id, "HANDLER_ERROR"), Rejected(BrowserError), after);
      } else if output.kind != p.expectedKind {
        Concludes(running, limits, id, p, ending, ResultUp(id, output), Rejected(InvalidMessage), after);
      } else {
        Concludes(running, limits, id, p, ending, ResultUp(id, output), Resolved(output), after);
      }
    case Failure(size) =>
      if size <= s.messageLimit {
        Concludes(running, limits, id, p, ending, ErrorUp(id, "HANDLER_ERROR"), Rejected(BrowserError), after);
      } else {
        Waits(running, limits, id, p, ending, after);
      }
    case Deadline =>
      Concludes(running, limits, id, p, ending, ErrorUp(id, "INVOCATION_TIMEOUT"), Rejected(TimedOut), after);
    case TimeoutError(size) =>
      if size <= s.messageLimit {
        Concludes(running, limits, id, p, ending, ErrorUp(id, "INVOCATION_TIMEOUT"), Rejected(TimedOut), after);
      } else {
        Waits(running, limits, id, p, ending, after);
      }
    case CancelledError(size) =>
      if size <= s.messageLimit {
        Concludes(running, limits, id, p, ending, ErrorUp(id, "INVOCATION_CANCELLED"), Rejected(Cancelled), after);
      } else {
        Waits(running, limits, id, p, ending, after);
      }
    case ClosedError => Waits(running, limits, id, p, ending, after);
  }

  lemma RunningMeans(s: System, id: Uuid, p: Pending)
    requires Running(s, id, p)
    ensures id in s.active && s.reachable && p.provider.session.connectionId == s.connection
  {
  }

  /** From the moment a running call is answered. */
  lemma Concludes(s: System, limits: Limits, id: Uuid, p: Pending, ending: Ending, m: UpMessage, v: Verdict,
                  after: seq<Action>)
    requires WireInv(s, limits) && Running(s, id, p) && m.invocationId == id && Means(m, p.expectedKind, v)
    requires var ended := Next(s, limits, HandlerEnds(id, ending));
      ended.up == s.up + [m] && EnabledRun(ended, limits, after) && KeepsWaiting(after, s.connection, id)
    ensures Concluding(AfterRun(Next(s, limits, HandlerEnds(id, ending)), limits, after), id, p, m, v)
  {
    hide WireInv; hide Next; hide EnabledRun; hide AfterRun; hide KeepsWaiting; hide Running; hide Means; hide Holding;
    hide AnsweredBy; hide HasVerdict;
    RunningMeans(s, id, p);
    EndingIsHeldFor(s, limits, id, p, ending, m);
    NextKeepsInv(s, limits, HandlerEnds(id, ending));
    LimitOfStep(s, limits, HandlerEnds(id, ending));
    AnswerIsHeard(Next(s, limits, HandlerEnds(id, ending)), limits, after, id, p, m, v);
  }

  /** From the moment a running call ends without being answered. */
  lemma Waits(s: System, limits: Limits, id: Uuid, p: Pending, ending: Ending, after: seq<Action>)
    requires WireInv(s, limits) && Running(s, id, p)
    requires var ended := Next(s, limits, HandlerEnds(id, ending));
      id in ended.silent && EnabledRun(ended, limits, after) && KeepsWaiting(after, s.connection, id)
    ensures Holding(AfterRun(Next(s, limits, HandlerEnds(id, ending)), limits, after), id, p)
  {
    hide WireInv; hide Next; hide EnabledRun; hide AfterRun; hide KeepsWaiting; hide Holding; hide Running;
    var a := HandlerEnds(id, ending);
    RunningMeans(s, id, p);
    NextKeepsInv(s, limits, a);
    LimitOfStep(s, limits, a);
    HeldOn(s, limits, a, id, p) by {
      RunningHolds(s, id, p);
    }
    UnreportedCallWaits(Next(s, limits, a), limits, after, id, p);
  }

  lemma RunningHolds(s: System, id: Uuid, p: Pending)
    requires Running(s, id, p)
    ensures Holding(s, id, p)
  {
  }

  /** Once everything that the browser has said is heard, nothing is left to wait for. */
  lemma HeardOut(s: System, id: Uuid, p: Pending, m: UpMessage, v: Verdict)
    requires Concluding(s, id, p, m, v) && s.up == []
    ensures id !in s.broker.pending && id in s.broker.verdicts && s.broker.verdicts[id] == [v]
  {
  }

  /** A call whose registration the browser does not know is answered at once, and rejected. */
  lemma UnknownRegistrationRejects(s: System, limits: Limits, id: Uuid, p: Pending, already: Option<Ending>,
                                   after: seq<Action>)
    requires WireInv(s, limits) && s.down != [] && s.down[0].message == InvokeMessage(id)
    requires Holding(s, id, p) && s.reachable
    requires EnabledRun(Next(s, limits, DeliverDown(false, already)), limits, after) && KeepsWaiting(after, s.connection, id)
    ensures var m := ErrorUp(id, "REGISTRATION_NOT_FOUND");
      && Next(s, limits, DeliverDown(false, already)).up == s.up + [m]
      && id !in Next(s, limits, DeliverDown(false, already)).active
      && Concluding(AfterRun(Next(s, limits, DeliverDown(false, already)), limits, after), id, p, m, Rejected(BrowserError))
  {
    hide WireInv; hide Delivered; hide EnabledRun; hide AfterRun; hide KeepsWaiting; hide Emitted; hide Step;
    var next := Next(s, limits, DeliverDown(false, already));
    DeliveredInvoke(s, limits, false, already);
    NextKeepsInv(s, limits, DeliverDown(false, already));
    NewToBrowser(s, limits, id);
    assert next.up[|s.up|] == ErrorUp(id, "REGISTRATION_NOT_FOUND");
    forall j | 0 <= j < |s.up| ensures next.up[j].invocationId != id {
      NotAmong(s.up, id, j);
    }
    AnswerIsHeard(next, limits, after, id, p, ErrorUp(id, "REGISTRATION_NOT_FOUND"), Rejected(BrowserError));
  }

  lemma NewToBrowser(s: System, limits: Limits, id: Uuid)
    requires WireInv(s, limits) && s.down != [] && s.down[0].message == InvokeMessage(id)
    ensures id !in s.seen && id !in UpIds(s.up) && id !in s.active
  {
    hide Inv; hide Claimed; hide Guarded; hide InvokeIds; hide CancelIds; hide UpIds; hide Owned;
  }

  // ----- Calls that the Bridge gives up -----

  function GiveUp(id: Uuid, timedOut: bool, sent: bool): Event {
    if timedOut then TimerFired(id, sent) else SignalAborted(id, sent)
  }

  /** The Bridge gives up a call: the promise is rejected at once, with a timeout or as cancelled, and
      the browser is told. Whatever the browser still answers, in any later run, changes nothing. */
  lemma GivingUpIsFinal(s: System, limits: Limits, now: nat, id: Uuid, p: Pending, timedOut: bool, sent: bool,
                        stillOpen: bool, after: seq<Action>)
    requires WireInv(s, limits) && Holding(s, id, p)
    requires Enabled(s, BridgeStep(now, GiveUp(id, timedOut, sent), stillOpen))
    requires EnabledRun(Next(s, limits, BridgeStep(now, GiveUp(id, timedOut, sent), stillOpen)), limits, after)
    ensures var next := Next(s, limits, BridgeStep(now, GiveUp(id, timedOut, sent), stillOpen));
      var t := AfterRun(next, limits, after);
      && id !in t.broker.pending && id in t.broker.verdicts
      && t.broker.verdicts[id] == [Rejected(if timedOut then TimedOut else Cancelled)]
      && (sent ==> |next.down| == |s.down| + 1 && next.down[|s.down|].message == CancelMessage(id))
  {
    hide WireInv; hide Inv; hide Step; hide Emitted; hide EnabledRun; hide AfterRun; hide Owned; hide Possible;
    var a := BridgeStep(now, GiveUp(id, timedOut, sent), stillOpen);
    WireKnows(s, limits);
    EnabledIsPossible(s, a);
    NextOnBroker(s, limits, a);
    CallEndsExactlyWhenAddressed(s.broker, limits, now, GiveUp(id, timedOut, sent), id);
    EmittedBy(s, limits, now, GiveUp(id, timedOut, sent));
    NextKeepsInv(s, limits, a);
    SettledForever(Next(s, limits, a), limits, after, id, Rejected(if timedOut then TimedOut else Cancelled));
  }

  lemma EnabledIsPossible(s: System, a: Action)
    requires a.BridgeStep? && Enabled(s, a)
    ensures Possible(s.broker, a.now, a.event)
  {
  }

  lemma {:induction false} SettledForever(s: System, limits: Limits, run: seq<Action>, id: Uuid, v: Verdict)
    requires WireInv(s, limits) && EnabledRun(s, limits, run) && HasVerdict(s, id, v)
    ensures HasVerdict(AfterRun(s, limits, run), id, v)
    decreases |run|
  {
    hide WireInv; hide Next; hide Enabled; hide HasVerdict;
    if run != [] {
      SettledStays(s, limits, run[0], id, v);
      NextKeepsInv(s, limits, run[0]);
      SettledForever(Next(s, limits, run[0]), limits, run[1..], id, v);
    }
  }

  /** A `cancel` that arrives stops its call, and is answered with what became of it. */
  lemma CancelIsAnswered(s: System, limits: Limits, registered: bool, id: Uuid, already: Option<Ending>)
    requires s.down != [] && s.down[0].message == CancelMessage(id) && s.reachable
    ensures var after := Next(s, limits, DeliverDown(registered, already));
      && after.active == s.active - {id} && after.broker == s.broker && after.down == s.down[1..]
      && (id !in s.active ==> after.up == s.up + [ErrorUp(id, "INVOCATION_NOT_FOUND")])
      && (id in s.active && already.None? ==> after.up == s.up + [ErrorUp(id, "INVOCATION_CANCELLED")])
      && (id in s.active && already.Some? && already.value.Value? ==>
            after.up == s.up + [if already.value.size <= s.messageLimit then ResultUp(id, already.value.output)
                                else ErrorUp(id, "HANDLER_ERROR")])
  {
    assert id !in s.active ==> s.active - {id} == s.active;
  }

  /** An ending that is not reported leaves the call waiting, until the Bridge gives it up. */
  lemma {:induction false} UnreportedCallWaits(s: System, limits: Limits, run: seq<Action>, id: Uuid, p: Pending)
    requires WireInv(s, limits) && EnabledRun(s, limits, run) && KeepsWaiting(run, s.connection, id)
    requires Holding(s, id, p) && id in s.silent
    ensures Holding(AfterRun(s, limits, run), id, p) && id in AfterRun(s, limits, run).silent
    decreases |run|
  {
    hide WireInv; hide Next; hide Enabled; hide Abandons; hide Holding; hide Owned;
    if run != [] {
      HeldIsOwned(s, id, p);
      SilentIsUnanswered(s, limits, run[0], id);
      HeldOn(s, limits, run[0], id, p);
      SilentUntilGivenUp(s, limits, run[0], id);
      NextKeepsInv(s, limits, run[0]);
      NextOnBroker(s, limits, run[0]);
      UnreportedCallWaits(Next(s, limits, run[0]), limits, run[1..], id, p);
    }
  }

  lemma SilentIsUnanswered(s: System, limits: Limits, a: Action, id: Uuid)
    requires WireInv(s, limits) && Enabled(s, a) && id in s.silent
    ensures a.DeliverUp? ==> s.up[0].invocationId != id
  {
    hide Inv; hide Claimed; hide Guarded; hide SentOnce; hide InvokeIds; hide CancelIds; hide Owned;
    hide Possible; hide GivesUp;
    assert s.up != [] ==> s.up[0] in s.up;
  }

  lemma LimitOfStep(s: System, limits: Limits, a: Action)
    requires Enabled(s, a)
    ensures Next(s, limits, a).messageLimit == s.messageLimit && Next(s, limits, a).connection == s.connection
  {
    hide Step; hide Emitted; hide Possible; hide GivesUp;
  }
}
