/** What messages and calls bring about in the whole Bridge, told in terms of its tables. */
module GatewayOutcomes {
  import opened Common
  import opened Capabilities
  import opened Expiring
  import opened RecentRequests
  import opened Resolution
  import opened RegistryOutcomes
  import opened GatewayModel
  import opened GatewayLaws
  import opened GatewayRuns
  import opened GatewayTheorems
  import opened GatewayConnections
  import opened GatewayWire
  import B = BrokerModel
  import BL = BrokerLaws
  import BO = BrokerOutcomes
  import R = RegistryModel
  import T = Tokens
  import Negotiation
  import Names
  import Base64

  // ----- Registering -----

  /** Only the registry, the clock and the ids drawn may differ. */
  predicate OnlyRegistry(b: Bridge, after: Bridge) {
    && after.sockets == b.sockets && after.broker == b.broker && after.pairing == b.pairing && after.resume == b.resume
  }

  lemma InSessionStep(b: Bridge, k: Config, now: nat, c: Uuid, m: Message, draw: Draw)
    requires c in b.sockets && b.sockets[c].session.Some? && !m.Malformed? && !m.Connect?
      && !(m.FromBridge? && m.handshake)
    requires ClaimedSession(m).Some? ==> ClaimedSession(m).value == b.sockets[c].session.value.sessionId
    ensures Step(b, k, now, Receive(c, m, draw)) ==
      InSession(Ticked(b, now, Ids(draw)), k, c, b.sockets[c].session.value, m)
  {
    hide InSession; hide Connected;
  }

  /** A live session sends `register`. If nothing speaks against the registration, it is in the registry
      afterwards, as this session's, under its own exposed name; otherwise nothing has changed. */
  lemma RegisterOutcome(b: Bridge, k: Config, now: nat, c: Uuid, x: Registration, draw: Draw)
    requires Inv(b, k) && c in b.sockets && b.sockets[c].session.Some?
    ensures var session := b.sockets[c].session.value;
      var after := Step(b, k, now, Receive(c, Register(session.sessionId, x), draw));
      && OnlyRegistry(b, after)
      && if Registrable(b.registry, k.registry.limits, c, x) then
           && At(after.registry, Place(c, x.id)) && SameElsewhere(b.registry, after.registry, Place(c, x.id))
           && IsExposedAs(CapabilityAt(after.registry, Place(c, x.id)), k.registry.fingerprint, session, x)
         else after.registry == b.registry
  {
    hide Inv; hide Step; hide R.Registered; hide R.Inv; hide Registrable; hide IsExposedAs; hide SameElsewhere;
    var session := b.sockets[c].session.value;
    InSessionStep(b, k, now, c, Register(session.sessionId, x), draw);
    RegistryIsSound(b, k);
    RegistrationOutcome(b.registry, k.registry, c, x);
    SessionsAreSockets(b, k, c);
  }

  /** And `unregister` makes it unknown again, or changes nothing. */
  lemma UnregisterOutcome(b: Bridge, k: Config, now: nat, c: Uuid, id: string, draw: Draw)
    requires Inv(b, k) && c in b.sockets && b.sockets[c].session.Some?
    ensures var after := Step(b, k, now, Receive(c, Unregister(b.sockets[c].session.value.sessionId, id), draw));
      && OnlyRegistry(b, after)
      && if c in b.registry.registrations && id in b.registry.registrations[c] then
           !At(after.registry, Place(c, id)) && SameElsewhere(b.registry, after.registry, Place(c, id))
         else after.registry == b.registry
  {
    hide Inv; hide Step; hide R.Unregistered; hide R.Inv; hide SameElsewhere;
    InSessionStep(b, k, now, c, Unregister(b.sockets[c].session.value.sessionId, id), draw);
    RegistryIsSound(b, k);
    UnregistrationOutcome(b.registry, k.registry, c, id);
  }

  // ----- Messages that are not for this session -----

  /** A message that names another session, or does not belong in a session at all, has its socket shut and
      changes nothing else. */
  lemma ForeignMessageShuts(b: Bridge, k: Config, now: nat, c: Uuid, m: Message, draw: Draw, sid: Uuid)
    requires c in b.sockets && b.sockets[c].session.Some? && sid != b.sockets[c].session.value.sessionId
    requires || m.Malformed? || m.Connect? || (m.FromBridge? && m.handshake)
             || (m.Register? && m.sessionId == sid) || (m.Unregister? && m.sessionId == sid)
             || (m.ResultOf? && m.sessionId == sid) || (m.CancelOf? && m.sessionId == sid)
             || (m.Heartbeat? && m.sessionId == sid) || (m.ErrorOf? && m.session == Some(sid))
             || (m.Disconnect? && m.session == Some(sid)) || (m.FromBridge? && m.session == Some(sid))
    ensures Step(b, k, now, Receive(c, m, draw)) ==
      b.(clock := now, used := b.used + Ids(draw), sockets := b.sockets[c := b.sockets[c].(open := false)])
  {
    hide Connected; hide InSession;
  }

  /** A heartbeat, an error that names no call, and a message that only the Bridge sends change nothing. */
  lemma IdleMessageChangesNothing(b: Bridge, k: Config, now: nat, c: Uuid, m: Message, draw: Draw)
    requires c in b.sockets && b.sockets[c].session.Some?
    requires var sid := b.sockets[c].session.value.sessionId;
      || m == Heartbeat(sid) || m == FromBridge(Some(sid), false)
      || (m.ErrorOf? && m.invocation == None && (m.session == None || m.session == Some(sid)))
    ensures Step(b, k, now, Receive(c, m, draw)) == b.(clock := now, used := b.used + Ids(draw))
  {
    hide Connected; hide B.Step; hide R.Registered; hide R.Unregistered; hide T.Revoked;
  }

  /** Leaving with the wish to come back shuts the socket and keeps the session, its registrations, its
      calls and its grant. */
  lemma LeavingToResume(b: Bridge, k: Config, now: nat, c: Uuid, claimed: Option<Uuid>, draw: Draw)
    requires c in b.sockets && b.sockets[c].session.Some?
    requires claimed.Some? ==> claimed.value == b.sockets[c].session.value.sessionId
    ensures Step(b, k, now, Receive(c, Disconnect(claimed, true), draw)) ==
      b.(clock := now, used := b.used + Ids(draw), sockets := b.sockets[c := b.sockets[c].(open := false)])
  {
    hide T.Revoked;
  }

  // ----- Calling -----

  /** The capability is what this target asks for. */
  predicate Serves(target: Target, cap: Capability) {
    match target
    case ByName(kind, name) => cap.registration.kind == kind && cap.exposedName == name
    case ByUri(uri) => cap.registration.kind == Resource && cap.exposedUri == Some(uri)
  }

  /** The entry at `p` serves the target, and no other connection has one that does. */
  ghost predicate SoleProvider(r: R.Registry, target: Target, p: Place) {
    && At(r, p) && Serves(target, CapabilityAt(r, p))
    && forall q :: At(r, q) && Serves(target, CapabilityAt(r, q)) ==> q.connectionId == p.connectionId
  }

  lemma SoleMeansOnly(r: R.Registry, target: Target, p: Place)
    ensures SoleProvider(r, target, p) <==> IsOnly(r, target, p)
  {
    if SoleProvider(r, target, p) {
      assert Provides(r, target)(Place(p.connectionId, p.id));
    }
    if IsOnly(r, target, p) {
      forall q | At(r, q) && Serves(target, CapabilityAt(r, q)) ensures q.connectionId == p.connectionId {
        assert Provides(r, target)(Place(q.connectionId, q.id));
        assert Offers(r, target, q.connectionId);
      }
    }
  }

  /** A target that resolves does so to one capability only. */
  lemma OnlyOne(r: R.Registry, config: R.Config, target: Target, p: Place)
    requires R.Inv(r, config) && IsOnly(r, target, p)
    ensures Resolves(r, target) && Resolved(r, target) == CapabilityAt(r, p)
  {
    hide R.Inv;
    forall q | IsOnly(r, target, q) ensures q == p {
      assert Place(q.connectionId, q.id) == q && Provides(r, target)(q);
      assert Place(p.connectionId, p.id) == p && Provides(r, target)(p);
      assert Offers(r, target, q.connectionId);
      OfferedOncePerConnection(r, config, target, p, q);
    }
  }

  lemma SoleResolves(r: R.Registry, config: R.Config, target: Target, p: Place)
    requires R.Inv(r, config) && SoleProvider(r, target, p)
    ensures Resolves(r, target) && Resolved(r, target) == CapabilityAt(r, p)
    ensures KindOf(target) == CapabilityAt(r, p).registration.kind
    ensures CapabilityAt(r, p).session.connectionId == p.connectionId
  {
    hide R.Inv; hide Resolves; hide Resolved; hide IsOnly;
    SoleMeansOnly(r, target, p);
    OnlyOne(r, config, target, p);
    EntriesAreExposed(r, config, p);
    SessionsFit(r, config, p.connectionId);
  }

  lemma SessionsFit(r: R.Registry, config: R.Config, c: Uuid)
    requires R.Inv(r, config) && c in r.sessions
    ensures r.sessions[c].connectionId == c
  {
    hide R.Sound; hide R.Tallied; hide R.DistinctRuntimes;
  }

  lemma ResolvesMeans(r: R.Registry, target: Target)
    ensures Resolves(r, target) <==> exists p :: SoleProvider(r, target, p)
  {
    hide IsOnly; hide SoleProvider;
    if Resolves(r, target) {
      var p :| IsOnly(r, target, p);
      SoleMeansOnly(r, target, p);
    }
    if p :| SoleProvider(r, target, p) {
      SoleMeansOnly(r, target, p);
    }
  }

  /** What a call that has been accepted looks like: held for the provider, with the kind of what was
      registered, and sent to the provider's connection. */
  ghost predicate IsCarriedOut(b: B.State, after: B.State, id: Uuid, cap: Capability, sent: bool) {
    && after.outbox == b.outbox + [B.Outgoing(cap.session.connectionId, B.InvokeMessage(id), sent)]
    && after.pending == (if sent then b.pending[id := B.Pending(cap.registration.kind, cap)] else b.pending)
    && after.verdicts == b.verdicts[id := if sent then [] else [B.Rejected(BrowserDisconnected)]]
  }

  /** A target with one provider: the call is accepted exactly if there is room and the caller is still
      there, and then goes to that provider and expects its kind. */
  lemma CallOutcome(b: Bridge, k: Config, now: nat, target: Target, p: Place, id: Uuid, aborted: bool, sent: bool)
    requires Inv(b, k) && Possible(b, now, Call(target, id, aborted, sent)) && SoleProvider(b.registry, target, p)
    ensures var after := Step(b, k, now, Call(target, id, aborted, sent));
      && (id in after.broker.verdicts <==> BO.HasRoom(b.broker, k.broker, p.connectionId) && !aborted)
      && CapabilityAt(b.registry, p).session.connectionId == p.connectionId
      && (id in after.broker.verdicts ==> IsCarriedOut(b.broker, after.broker, id, CapabilityAt(b.registry, p), sent))
      && (id !in after.broker.verdicts ==> after.broker == b.broker)
  {
    hide Inv; hide Step; hide B.Step; hide SoleProvider; hide Resolves; hide Resolved; hide R.Inv; hide B.Inv;
    hide BO.HasRoom;
    RegistryIsSound(b, k);
    SoleResolves(b.registry, k.registry, target, p);
    StepOnBroker(b, k, now, Call(target, id, aborted, sent));
    IdsAreNew(b, k, id);
    ClockIsBehind(b, k);
    BO.CallIsAcceptedExactlyWhen(b.broker, k.broker, now, id, KindOf(target), Resolved(b.registry, target), aborted, sent);
  }

  /** A target without a provider, or with several, reaches nobody. */
  lemma NoSoleProvider(b: Bridge, k: Config, now: nat, target: Target, id: Uuid, aborted: bool, sent: bool)
    requires Inv(b, k) && Possible(b, now, Call(target, id, aborted, sent))
    requires forall p :: !SoleProvider(b.registry, target, p)
    ensures Step(b, k, now, Call(target, id, aborted, sent)).broker == b.broker && id !in b.broker.verdicts
  {
    hide Inv; hide SoleProvider; hide Resolves; hide Resolved; hide B.Step;
    ResolvesMeans(b.registry, target);
    IdsAreNew(b, k, id);
  }

  /** The target has one provider, there is room for a call to it, and the caller is still there. */
  ghost predicate MayCall(r: R.Registry, b: B.State, limits: B.Limits, target: Target, aborted: bool) {
    !aborted && exists p :: SoleProvider(r, target, p) && BO.HasRoom(b, limits, p.connectionId)
  }

  ghost predicate GoesToProvider(r: R.Registry, b: B.State, after: B.State, target: Target, id: Uuid, sent: bool) {
    exists p :: SoleProvider(r, target, p) && IsCarriedOut(b, after, id, CapabilityAt(r, p), sent)
  }

  lemma CallAnswers(b: Bridge, k: Config, now: nat, target: Target, id: Uuid, aborted: bool, sent: bool)
    requires Inv(b, k) && Possible(b, now, Call(target, id, aborted, sent))
    ensures var after := Step(b, k, now, Call(target, id, aborted, sent)).broker;
      && (Resolves(b.registry, target) && B.Refusal(b.broker, k.broker, Resolved(b.registry, target), aborted).None? <==>
            MayCall(b.registry, b.broker, k.broker, target, aborted))
      && (if MayCall(b.registry, b.broker, k.broker, target, aborted)
          then GoesToProvider(b.registry, b.broker, after, target, id, sent) else after == b.broker)
  {
    hide Inv; hide Step; hide SoleProvider; hide Resolves; hide Resolved; hide B.Refusal; hide BO.HasRoom; hide R.Inv;
    hide IsCarriedOut;
    ResolvesMeans(b.registry, target);
    RegistryIsSound(b, k);
    IdsAreNew(b, k, id);
    if p :| SoleProvider(b.registry, target, p) {
      forall q | SoleProvider(b.registry, target, q) ensures q.connectionId == p.connectionId {
        SoleIsUnique(b.registry, target, p, q);
      }
      SoleResolves(b.registry, k.registry, target, p);
      BO.RoomMeans(b.broker, k.broker, Resolved(b.registry, target), aborted);
      CallOutcome(b, k, now, target, p, id, aborted, sent);
    } else {
      NoSoleProvider(b, k, now, target, id, aborted, sent);
    }
  }

  lemma SoleIsUnique(r: R.Registry, target: Target, p: Place, q: Place)
    requires SoleProvider(r, target, p) && SoleProvider(r, target, q)
    ensures q.connectionId == p.connectionId
  {
  }

  /** An answer from the browser that a call was made to settles it, with a verdict that its kind decides. */
  lemma AnswerOutcome(b: Bridge, k: Config, now: nat, c: Uuid, id: Uuid, output: Summary, code: string, draw: Draw)
    requires Inv(b, k) && b.clock <= now && c in b.sockets && b.sockets[c].session.Some?
    requires id in b.broker.pending && b.broker.pending[id].provider.session.connectionId == c
    requires FreshDraw(b, draw)
    ensures var sid := b.sockets[c].session.value.sessionId;
      var good := Step(b, k, now, Receive(c, ResultOf(sid, id, output), draw)).broker;
      var bad := Step(b, k, now, Receive(c, ErrorOf(Some(sid), Some(id), code), draw)).broker;
      var cancelled := Step(b, k, now, Receive(c, CancelOf(sid, id), draw)).broker;
      && id !in cancelled.pending && id in cancelled.verdicts && cancelled.verdicts[id] == [B.Rejected(Cancelled)]
      && id !in good.pending && id in good.verdicts && id !in bad.pending && id in bad.verdicts
      && good.verdicts[id] == [if output.kind == b.broker.pending[id].expectedKind then B.Resolved(output)
                               else B.Rejected(InvalidMessage)]
      && (code == "INVOCATION_TIMEOUT" ==> bad.verdicts[id] == [B.Rejected(TimedOut)])
      && (code == "INVOCATION_CANCELLED" ==> bad.verdicts[id] == [B.Rejected(Cancelled)])
      && (code == "HANDLER_ERROR" || code == "REGISTRATION_NOT_FOUND" ==> bad.verdicts[id] == [B.Rejected(BrowserError)])
  {
    hide Inv; hide Step; hide B.Step; hide B.Inv;
    var sid := b.sockets[c].session.value.sessionId;
    var at := Ticked(b, now, Ids(draw));
    AnswerStep(b, k, now, c, ResultOf(sid, id, output), draw);
    AnswerStep(b, k, now, c, ErrorOf(Some(sid), Some(id), code), draw);
    AnswerStep(b, k, now, c, CancelOf(sid, id), draw);
    ClockIsBehind(b, k);
    BL.AnswersSettle(b.broker, k.broker, now, id, output, code);
  }

  lemma AnswerStep(b: Bridge, k: Config, now: nat, c: Uuid, m: Message, draw: Draw)
    requires c in b.sockets && b.sockets[c].session.Some?
    requires ClaimedSession(m) == Some(b.sockets[c].session.value.sessionId)
    ensures var after := Step(b, k, now, Receive(c, m, draw)).broker;
      && (m.ResultOf? ==>
            after == B.Step(b.broker, k.broker, now, B.ResultMessage(c, m.invocationId, m.output)))
      && (m.ErrorOf? && m.invocation.Some? ==>
            after == B.Step(b.broker, k.broker, now, B.ErrorMessage(c, m.invocation.value, m.code)))
      && (m.CancelOf? ==> after == B.Step(b.broker, k.broker, now, B.CancelFromBrowser(c, m.invocationId)))
  {
    hide Step; hide B.Step; hide R.Registered; hide R.Unregistered; hide T.Revoked;
    if m.ResultOf? || m.ErrorOf? || m.CancelOf? {
      InSessionStep(b, k, now, c, m, draw);
    }
  }

  /** The round trip of a call through the Bridge. Whatever else happens after it was sent: if it is
      still waiting, a result of the provider's own kind, sent by the provider's browser, settles it with
      exactly that result. */
  lemma CallRoundTrip(b: Bridge, k: Config, calledAt: nat, target: Target, p: Place, id: Uuid, run: seq<Timed>,
                      now: nat, output: Summary, draw: Draw)
    requires Inv(b, k) && Possible(b, calledAt, Call(target, id, false, true)) && SoleProvider(b.registry, target, p)
    requires BO.HasRoom(b.broker, k.broker, p.connectionId) && output.kind == CapabilityAt(b.registry, p).registration.kind
    requires var made := Step(b, k, calledAt, Call(target, id, false, true));
      && PossibleRun(made, k, run)
      && var before := After(made, k, run);
         before.clock <= now && FreshDraw(before, draw) && id in before.broker.pending
    ensures var before := After(Step(b, k, calledAt, Call(target, id, false, true)), k, run);
      var c := p.connectionId;
      && before.broker.pending[id] == B.Pending(CapabilityAt(b.registry, p).registration.kind, CapabilityAt(b.registry, p))
      && c in before.sockets && before.sockets[c].session.Some?
      && var after := Step(before, k, now, Receive(c, ResultOf(before.sockets[c].session.value.sessionId, id, output), draw));
         id in after.broker.verdicts && after.broker.verdicts[id] == [B.Resolved(output)]
  {
    hide Inv; hide Step; hide Possible; hide SoleProvider; hide BO.HasRoom; hide PossibleRun; hide After; hide B.Inv;
    hide FreshDraw;
    var a := Call(target, id, false, true);
    var made := Step(b, k, calledAt, a);
    CallOutcome(b, k, calledAt, target, p, id, false, true);
    StepKeepsInv(b, k, calledAt, a);
    RunKeepsInv(made, k, run);
    var before := After(made, k, run);
    BridgeRunsAreBrokerRuns(made, k, run);
    ClockIsBehind(made, k);
    BO.HeldIsUnchanged(made.broker, k.broker, BrokerTrace(made, k, run), id);
    SoundStatesAgree(before, k);
    SessionsAreSockets(before, k, p.connectionId);
    AnswerOutcome(before, k, now, p.connectionId, id, output, "", draw);
  }

  /** A call that is given up, by its own timer or because its caller has gone: the promise is rejected,
      the provider's browser is told, and its late answer is waited for. */
  lemma GiveUpOutcome(b: Bridge, k: Config, now: nat, id: Uuid, sent: bool, timedOut: bool)
    requires Inv(b, k) && b.clock <= now && id in b.broker.pending
    ensures var after := Step(b, k, now, if timedOut then CallTimer(id, sent) else CallAborted(id, sent));
      var c := b.broker.pending[id].provider.session.connectionId;
      && after.sockets == b.sockets && after.registry == b.registry
      && after.broker.pending == b.broker.pending - {id} && id in after.broker.verdicts
      && after.broker.verdicts[id] == [B.Rejected(if timedOut then TimedOut else Cancelled)]
      && after.broker.outbox == b.broker.outbox + [B.Outgoing(c, B.CancelMessage(id), sent)]
      && Entry(id, now + k.broker.browserRequestTimeoutMs, c) in after.broker.cancelled
  {
    hide Inv; hide B.Step; hide B.Inv;
    ClockIsBehind(b, k);
    BO.GivingUpTellsTheBrowser(b.broker, k.broker, now, id, sent, timedOut);
  }

  /** Stopping ends every call and shuts every socket; sessions go with their sockets' close events. */
  lemma StopOutcome(b: Bridge, k: Config, now: nat)
    requires Inv(b, k)
    ensures var after := Step(b, k, now, Stop);
      && after.sockets.Keys == b.sockets.Keys
      && (forall c :: c in b.sockets ==> after.sockets[c] == b.sockets[c].(open := false))
      && after.registry == b.registry && after.broker.pending == map[] && after.broker.cancelled == []
      && forall id :: id in b.broker.pending ==>
           id in after.broker.verdicts && after.broker.verdicts[id] == [B.Rejected(BrowserDisconnected)]
  {
    hide Inv; hide B.Step; hide B.Inv;
    ClockIsBehind(b, k);
    BO.StoppingEndsEverything(b.broker, k.broker, now);
    BrokerFacts(b, k);
  }

  /** While a request waits for the operator, any message shuts its socket and changes nothing else; so does
      any first message other than `connect`. */
  lemma UntimelyMessageShuts(b: Bridge, k: Config, now: nat, c: Uuid, m: Message, draw: Draw)
    requires c in b.sockets && b.sockets[c].session.None? && (b.sockets[c].approval.Some? || !m.Connect?)
    ensures Step(b, k, now, Receive(c, m, draw)) ==
      b.(clock := now, used := b.used + Ids(draw), sockets := b.sockets[c := b.sockets[c].(open := false)])
  {
    hide Connected; hide InSession;
  }

  // ----- From a name to its provider -----

  /** What a client asks for when it wants `x` of this session: its exposed name, or its exposed address. */
  function TargetFor(fp: string -> string, session: Session, x: Registration): Target {
    if x.kind == Resource then
      ByUri("browsermcp://app-" + fp(session.appId) + "-" + fp(session.origin) + "/" + Base64.EncodeUrl(x.uri))
    else
      ByName(x.kind, Names.SafeName(session.appId, 20) + "_" + fp(session.appId) + "_" + fp(session.origin) + "__"
                     + Names.SafeName(x.name, 70))
  }

  lemma ServedBy(cap: Capability, fp: string -> string, session: Session, x: Registration)
    requires IsExposedAs(cap, fp, session, x)
    ensures Serves(TargetFor(fp, session, x), cap)
  {
    hide Names.SafeName; hide Base64.EncodeUrl;
  }

  /** A registration that was taken in is what its name or address leads to, unless another connection
      offers the same. */
  lemma RegisteredIsFound(b: Bridge, k: Config, now: nat, c: Uuid, x: Registration, draw: Draw)
    requires Inv(b, k) && c in b.sockets && b.sockets[c].session.Some?
    requires Registrable(b.registry, k.registry.limits, c, x)
    requires forall q :: At(b.registry, q) && q.connectionId != c ==>
      !Serves(TargetFor(k.registry.fingerprint, b.sockets[c].session.value, x), CapabilityAt(b.registry, q))
    ensures var session := b.sockets[c].session.value;
      SoleProvider(Step(b, k, now, Receive(c, Register(session.sessionId, x), draw)).registry,
                   TargetFor(k.registry.fingerprint, session, x), Place(c, x.id))
  {
    hide Inv; hide Step; hide Registrable; hide IsExposedAs; hide TargetFor; hide Serves;
    RegisterOutcome(b, k, now, c, x, draw);
    var session := b.sockets[c].session.value;
    var after := Step(b, k, now, Receive(c, Register(session.sessionId, x), draw));
    ServedBy(CapabilityAt(after.registry, Place(c, x.id)), k.registry.fingerprint, session, x);
  }

  /** And once it is unregistered, the name or address leads nowhere. */
  lemma UnregisteredIsUnknown(b: Bridge, k: Config, now: nat, c: Uuid, id: string, target: Target, draw: Draw)
    requires Inv(b, k) && c in b.sockets && b.sockets[c].session.Some?
    requires SoleProvider(b.registry, target, Place(c, id))
    ensures var after := Step(b, k, now, Receive(c, Unregister(b.sockets[c].session.value.sessionId, id), draw));
      forall q :: At(after.registry, q) ==> !Serves(target, CapabilityAt(after.registry, q))
  {
    hide Inv; hide Step; hide R.Inv; hide Serves;
    UnregisterOutcome(b, k, now, c, id, draw);
    RegistryIsSound(b, k);
    var after := Step(b, k, now, Receive(c, Unregister(b.sockets[c].session.value.sessionId, id), draw));
    forall q | At(after.registry, q) && Serves(target, CapabilityAt(after.registry, q)) ensures false {
      ServingIsProviding(b.registry, target, q);
      ServingIsProviding(b.registry, target, Place(c, id));
      OfferedOncePerConnection(b.registry, k.registry, target, q, Place(c, id));
    }
  }

  lemma ServingIsProviding(r: R.Registry, target: Target, p: Place)
    ensures Provides(r, target)(p) <==> At(r, p) && Serves(target, CapabilityAt(r, p))
  {
  }

  // ----- The handshake, written out -----

  /** What origin, versions and capabilities have to be for a handshake to go on. */
  lemma WelcomeExactlyWhen(origin: string, h: Hello)
    ensures Welcome(origin, h) <==>
      && h.origin == Some(origin)
      && (h.version == "1.1.0" || h.version == "1.0.0")
      && ("1.1.0" in h.supportedVersions || "1.0.0" in h.supportedVersions)
      && {"tools", "resources", "prompts", "cancellation", "session-resume", "heartbeat"} <= h.capabilities
      && (h.auth.WithApproval? ==> "1.1.0" in h.supportedVersions)
  {
    hide Negotiation.Negotiate;
    Negotiation.NewerIsChosen(h.supportedVersions);
  }

  /** The operator can be asked on behalf of this browser: fewer than max(1, floor(max / 2)) requests are
      pending, fewer than three of them from its origin, and none for the same application instance. */
  ghost predicate RoomToAsk(b: Bridge, k: Config, origin: string, h: Hello) {
    var waiting := set d | d in b.sockets && b.sockets[d].approval.Some?;
    && |waiting| < (if k.maxBrowserConnections >= 4 then k.maxBrowserConnections / 2 else 1)
    && |set d | d in b.sockets && b.sockets[d].approval.Some? && b.sockets[d].origin == origin| < 3
    && forall d :: d in waiting && b.sockets[d].origin == origin ==>
         var a := b.sockets[d].approval.value;
         !(a.appId == h.appId && a.runtimeId == h.runtimeId && a.instanceId == h.instanceId)
  }

  /** A browser asks to be let in: its request is put before the operator with a deadline that lies one
      pairing lifetime ahead, or its socket is shut. Nothing else changes. */
  lemma AskOutcome(b: Bridge, k: Config, now: nat, c: Uuid, h: Hello, draw: Draw)
    requires c in b.sockets && b.sockets[c].session.None? && b.sockets[c].approval.None?
    requires Welcome(b.sockets[c].origin, h) && h.auth.WithApproval?
    ensures var a := Approval(draw.requestId, h.appId, h.runtimeId, h.instanceId, now + k.pairingTokenTtlMs);
      Step(b, k, now, Receive(c, Connect(h), draw)) ==
        b.(clock := now, used := b.used + Ids(draw),
           sockets := b.sockets[c := if RoomToAsk(b, k, b.sockets[c].origin, h) then b.sockets[c].(approval := Some(a))
                                     else b.sockets[c].(open := false)])
  {
    hide Welcome; hide Received; hide Resumed; hide Paired; hide MayAsk; hide RoomToAsk;
    var at := Ticked(b, now, Ids(draw));
    var a := Approval(draw.requestId, h.appId, h.runtimeId, h.instanceId, now + k.pairingTokenTtlMs);
    ReceiveStep(b, k, now, c, Connect(h), draw);
    ConnectStep(at, k, c, h, draw);
    RoomMeans(b, k, b.sockets[c].origin, h, a);
  }

  lemma RoomMeans(b: Bridge, k: Config, origin: string, h: Hello, a: Approval)
    requires a.appId == h.appId && a.runtimeId == h.runtimeId && a.instanceId == h.instanceId
    ensures RoomToAsk(b, k, origin, h) <==> MayAsk(b.sockets, k, origin, a)
  {
    assert Awaiting(b.sockets) == set d | d in b.sockets && b.sockets[d].approval.Some?;
    assert AwaitingAt(b.sockets, origin) ==
      set d | d in b.sockets && b.sockets[d].approval.Some? && b.sockets[d].origin == origin;
    if AlreadyAsked(b.sockets, origin, a) {
      var d :| d in AwaitingAt(b.sockets, origin) && SameApplicant(b.sockets[d].approval.value, a);
      assert b.sockets[d].approval.value.appId == h.appId;
    }
  }

  /** Asked and approved in time, on a socket that is still open: the browser has its session, exactly if
      its application instance has not been connected otherwise. */
  lemma ApprovalRoundTrip(b: Bridge, k: Config, askedAt: nat, c: Uuid, h: Hello, draw: Draw, now: nat, later: Draw)
    requires Inv(b, k) && Possible(b, askedAt, Receive(c, Connect(h), draw))
    requires c in b.sockets && b.sockets[c].session.None? && b.sockets[c].approval.None? && b.sockets[c].open
    requires Welcome(b.sockets[c].origin, h) && h.auth.WithApproval? && RoomToAsk(b, k, b.sockets[c].origin, h)
    requires askedAt <= now < askedAt + k.pairingTokenTtlMs
    requires FreshDraw(Step(b, k, askedAt, Receive(c, Connect(h), draw)), later)
    ensures var asked := Step(b, k, askedAt, Receive(c, Connect(h), draw));
      var after := Step(asked, k, now, Decide(draw.requestId, true, later));
      var origin := b.sockets[c].origin;
      && (c in after.registry.sessions <==> !Running(b.registry.sessions, origin, h))
      && (c in after.registry.sessions ==>
            after.registry.sessions[c] == Session(c, later.sessionId, origin, h.appId, h.runtimeId, h.instanceId))
  {
    hide Inv; hide Step; hide Welcome; hide RoomToAsk; hide NewDraw; hide Possible; hide FreshDraw; hide Decided;
    hide Running; hide Occupied;
    AskOutcome(b, k, askedAt, c, h, draw);
    StepKeepsInv(b, k, askedAt, Receive(c, Connect(h), draw));
    var asked := Step(b, k, askedAt, Receive(c, Connect(h), draw));
    DrawIsNew(asked, k, now, Ids(later), later);
    TickKeepsInv(asked, k, now, Ids(later));
    var at := Ticked(asked, now, Ids(later));
    DecideStep(asked, k, now, draw.requestId, true, later);
    ApprovalOutcome(at, k, c, true, later);
    DecideKeepsInv(at, k, draw.requestId, true, later);
    SessionsAreSockets(Decided(at, k, draw.requestId, true, later), k, c);
    SameInstance(b.registry.sessions, b.sockets[c].origin, h, asked.sockets[c].approval.value);
  }

  lemma DecideStep(b: Bridge, k: Config, now: nat, requestId: Uuid, approve: bool, draw: Draw)
    ensures Step(b, k, now, Decide(requestId, approve, draw)) ==
      Decided(Ticked(b, now, Ids(draw)), k, requestId, approve, draw)
  {
    hide Decided;
  }

  lemma SameInstance(sessions: map<Uuid, Session>, origin: string, h: Hello, a: Approval)
    requires a.appId == h.appId && a.instanceId == h.instanceId
    ensures Running(sessions, origin, h) <==> Occupied(sessions, origin, a)
  {
    if Running(sessions, origin, h) {
      var d :|
        d in sessions && sessions[d].origin == origin && sessions[d].appId == h.appId && sessions[d].instanceId == h.instanceId;
      assert sessions[d].appId == a.appId;
    }
    if Occupied(sessions, origin, a) {
      var d :|
        d in sessions && sessions[d].origin == origin && sessions[d].appId == a.appId && sessions[d].instanceId == a.instanceId;
      assert sessions[d].appId == h.appId;
    }
  }
}
