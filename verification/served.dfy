/**
  Calls that are with a service: how one call id gets to a recorder, and whether the client of its service stays in
  the call.

  A known call never comes to ring or wait again, and a service gets it from there (Flows). From one step to the next
  the client of a service stays in the call, unless it strays (Serves): because the callee of its ring hung up its
  socket, or because the step gives the client another call. The proofs go handler by handler, and follow one call id
  at a time. Most handlers do nothing to the service of a call and to who is in it (Calm), or take out of the call
  only sockets whose callID they overwrite (Takes).
 */
module ServedCalls {
  import opened Options
  import opened Exchange
  import opened CallInvariants
  import opened OneCallPerLine

  // ---- A call rings or waits once ----

  /** What can happen to call id: once known it does not come to ring or wait, and a service gets it from there. */
  ghost predicate Flows(s: State, s': State, id: CallId) {
    && (id in s.kind.v ==> id in s'.kind.v && (id in s'.rings.v ==> id in s.rings.v))
    && (id in s.kind.v && Queued(s'.pending.v, id) ==> Queued(s.pending.v, id))
    && (id in s'.svc.v ==> id in s.svc.v || Reachable(s, id))
  }

  /** Call id can still get a service: it rings, waits, or is new. */
  predicate Reachable(s: State, id: CallId) {
    id in s.rings.v || Queued(s.pending.v, id) || id !in s.kind.v
  }

  /** Call id is known and in no table that a timer, or a service, would find it in. */
  predicate Nowhere(s: State, id: CallId) {
    !Reachable(s, id) && id !in s.svc.v
  }

  lemma {:induction false} RouteFlows(s: State, s1: State, r: Ring, k: CallId, vm: Voicemail, why: Reason, id: CallId)
    requires Flows(s, s1, id) && Reachable(s, k)
    ensures Flows(s, RouteLocalOr(s1, r, k, vm, why), id) && Flows(s, RouteLocal(s1, r.caller, r.mailbox, k, vm), id)
    ensures Flows(s, RecordOrFail(s1, r.caller, r.mailbox, k, vm), id)
  {}

  lemma {:induction false} EndFlows(s: State, s1: State, c: Sock, k: CallId, why: Reason, id: CallId)
    requires Flows(s, s1, id)
    ensures Flows(s, End(s1, c, k, why), id) && Flows(s, EndOthers(s1, c, k, why), id)
      && Flows(s, LeaveService(s1, c, k), id)
    ensures Flows(s, CloseLeg(s1, c, k, why), id) && Flows(s, EndService(s1, k), id)
  {
    hide Freed, Others;
  }

  lemma {:induction false} InboundFlows(s: State, s1: State, leg: Leg, k: CallId, vm: Voicemail, m: PeerMsg, id: CallId)
    requires Flows(s, s1, id)
    ensures Flows(s, RouteInboundOr(s1, leg, k, vm, m), id) && Flows(s, RouteInbound(s1, leg, k), id)
    ensures forall why :: Flows(s, Refuse(s1, k, why), id)
  {}

  lemma {:induction false} UnqueuedFlows(s: State, s1: State, k: CallId, id: CallId)
    requires Flows(s, s1, id)
    ensures Flows(s, s1.(pending := Cell(Unqueued(s1.pending.v, k))), id)
  {
    assert Queued(Unqueued(s1.pending.v, k), id) ==> Queued(s1.pending.v, id);
  }

  lemma {:induction false} TakenFlows(s: State, k: CallId, callOf: map<Sock, CallId>, id: CallId)
    ensures Flows(s, s.(rings := Cell(s.rings.v - {k}), callOf := Cell(callOf)), id)
    ensures Flows(s, s.(callOf := Cell(callOf)), id) && Flows(s, s, id)
  {}

  lemma {:induction false} LastFlows(s: State, n: Number, id: CallId)
    ensures Flows(s, s.(pending := Cell(s.pending.v - {n})), id)
  {}

  lemma {:induction false} HangupInFlows(s: State, s0: State, c: Sock, k: CallId, vm: Voicemail, id: CallId)
    requires s0 == s.(callOf := s0.callOf)
    ensures Flows(s, HangupIn(s0, c, k, vm), id)
  {
    hide RouteLocalOr, End, EndOthers, EndService, CloseLeg, RouteInboundOr, Freed, Unqueued, Flows;
    var s1 := s0.(rings := Cell(s0.rings.v - {k}));
    TakenFlows(s, k, s0.callOf.v, id);
    if k in s.rings.v {
      RouteFlows(s, s1, s.rings.v[k], k, vm, Declined, id);
      EndFlows(s, s1, s.rings.v[k].callee, k, HungUp, id);
    } else {
      EndFlows(s, s0, c, k, HungUp, id);
      UnqueuedFlows(s, s0, k, id);
      if Declinable(s0, c, k) {
        var s2 := s0.(callOf := Cell(Freed(s0.callOf.v, c, k)));
        TakenFlows(s, k, s2.callOf.v, id);
        InboundFlows(s, s2, Quiet(s.inLegs.v[k]), k, vm, Bye(Declined), id);
      }
    }
  }

  lemma {:induction false} HangupFlows(s: State, c: Sock, vm: Voicemail, id: CallId)
    ensures Flows(s, Hangup(s, c, vm), id)
  {
    hide Flows, HangupIn;
    TakenFlows(s, 0, s.callOf.v, id);
    if c in s.callOf.v {
      HangupInFlows(s, s.(callOf := Cell(s.callOf.v - {c})), c, s.callOf.v[c], vm, id);
    }
  }

  lemma {:induction false} DeclineFlows(s: State, c: Sock, asked: Option<CallId>, vm: Voicemail, id: CallId)
    ensures Flows(s, Decline(s, c, asked, vm), id)
  {
    hide Flows, Hangup, RouteLocalOr, Freed;
    TakenFlows(s, 0, s.callOf.v, id);
    if asked.Some? || c in s.callOf.v {
      var k := if asked.Some? then asked.value else s.callOf.v[c];
      var s1 := s.(rings := Cell(s.rings.v - {k}));
      TakenFlows(s, k, s.callOf.v, id);
      TakenFlows(s, k, Freed(s.callOf.v, c, k), id);
      if k in s.rings.v {
        RouteFlows(s, s1.(callOf := Cell(Freed(s.callOf.v, c, k))), s.rings.v[k], k, vm, Declined, id);
      }
      HangupFlows(s1, c, vm, id);
      FlowsTrans(s, s1, Hangup(s1, c, vm), id);
    }
  }

  /** Flows goes on as long as the first step leaves the kinds alone. */
  lemma {:induction false} FlowsTrans(s: State, s1: State, s2: State, id: CallId)
    requires Flows(s, s1, id) && Flows(s1, s2, id) && s1.kind == s.kind
    ensures Flows(s, s2, id)
  {}

  lemma {:induction false} DisconnectFlows(s: State, c: Sock, vm: Voicemail, id: CallId)
    ensures Flows(s, Disconnect(s, c, vm), id)
  {
    hide Flows, LeaveCall;
    TakenFlows(s, 0, s.callOf.v, id);
    if c in s.userOf.v && c in s.callOf.v {
      var s1 := s.(callOf := Cell(s.callOf.v - {c}));
      TakenFlows(s, 0, s1.callOf.v, id);
      LeaveCallFlows(s, s1, c, s.callOf.v[c], vm, id);
      UnlistFlows(s, LeaveCall(s1, c, s.callOf.v[c], vm), c, s.userOf.v[c], id);
    }
    UnlistFlows(s, s, c, if c in s.userOf.v then s.userOf.v[c] else 0, id);
  }

  lemma {:induction false} UnlistFlows(s: State, s1: State, c: Sock, n: Number, id: CallId)
    requires Flows(s, s1, id)
    ensures Flows(s, Unlist(s1, c, n), id) && Flows(s, s1.(gone := Cell(s1.gone.v + {c})), id)
  {}

  lemma {:induction false} LeaveCallFlows(s: State, s1: State, c: Sock, k: CallId, vm: Voicemail, id: CallId)
    requires s1 == s.(callOf := s1.callOf)
    ensures Flows(s, LeaveCall(s1, c, k, vm), id)
  {
    hide Flows, LeaveRing, LeaveService, EndOthers, CloseLeg, Unqueued;
    TakenFlows(s, 0, s1.callOf.v, id);
    EndFlows(s, s1, c, k, Disconnected, id);
    var s2 := CloseLeg(s1, c, k, Disconnected);
    var s3 := s2.(pending := Cell(Unqueued(s2.pending.v, k)));
    UnqueuedFlows(s, s2, k, id);
    CloseLegFrame(s1, c, k, Disconnected);
    LeaveRingFlows(s, s3, c, k, vm, id);
    var s4 := LeaveRing(s3, c, k, vm);
    EndFlows(s, s4, c, k, Disconnected, id);
    EndFlows(s, LeaveService(s4, c, k), c, k, Disconnected, id);
  }

  lemma {:induction false} LeaveRingFlows(s: State, s1: State, c: Sock, k: CallId, vm: Voicemail, id: CallId)
    requires Flows(s, s1, id) && s1.rings == s.rings
    ensures Flows(s, LeaveRing(s1, c, k, vm), id)
  {
    hide RouteLocalOr, End, Online;
    if k in s1.rings.v {
      var s2 := s1.(rings := Cell(s1.rings.v - {k}));
      assert Flows(s, s2, id);
      hide Flows;
      RouteFlows(s, s2, s1.rings.v[k], k, vm, Disconnected, id);
      EndFlows(s, s2, s1.rings.v[k].callee, k, Disconnected, id);
    }
  }

  lemma {:induction false} TimeoutFlows(s: State, k: CallId, vm: Voicemail, id: CallId)
    ensures Flows(s, RingTimeout(s, k, vm), id) && Flows(s, InboundTimeout(s, k, vm), id)
  {
    hide Flows, RouteLocalOr, RouteInboundOr, End, Online;
    TakenFlows(s, k, s.callOf.v, id);
    if k in s.rings.v {
      var s1 := s.(rings := Cell(s.rings.v - {k}));
      EndFlows(s, s1, s.rings.v[k].callee, k, NoAnswer, id);
      RouteFlows(s, End(s1, s.rings.v[k].callee, k, NoAnswer), s.rings.v[k], k, vm, NoAnswer, id);
    }
    if k in s.inLegs.v && s.inLegs.v[k].callee.Some? {
      var b := s.inLegs.v[k].callee.value;
      EndFlows(s, s, b, k, NoAnswer, id);
      InboundFlows(s, End(s, b, k, NoAnswer), Quiet(s.inLegs.v[k]), k, vm, Bye(NoAnswer), id);
    }
  }

  lemma {:induction false} ExpireFlows(s: State, n: Number, vm: Voicemail, id: CallId)
    ensures Flows(s, Expire(s, n, vm), id)
  {
    hide Flows, RouteLocalOr, RouteInboundOr, Online, Queued;
    TakenFlows(s, 0, s.callOf.v, id);
    LastFlows(s, n, id);
    if n in s.pending.v {
      var p := s.pending.v[n];
      var s1 := s.(pending := Cell(s.pending.v - {n}));
      if p.Waiting? {
        QueuedThere(s.pending.v, n);
        RouteFlows(s, s1, Ring(p.caller, p.caller, n), p.id, vm, NoAnswer, id);
      } else if p.id in s.inLegs.v {
        InboundFlows(s, s1, s.inLegs.v[p.id], p.id, vm, Bye(NoAnswer), id);
      }
    }
  }

  lemma {:induction false} QueuedThere(pending: map<Number, Pending>, n: Number)
    requires n in pending
    ensures Queued(pending, pending[n].id)
  {}

  lemma {:induction false} CallFlows(s: State, c: Sock, n: Number, k: CallId, k2: CallId, line: Line, vm: Voicemail,
                                     id: CallId)
    requires k !in s.kind.v && k2 !in s.kind.v
    ensures Flows(s, Call(s, c, n, k, k2, line, vm), id)
  {
    hide RecordOrFail, Flows;
    var s1 := s.(kind := Cell(s.kind.v[k := Local(c, n)]));
    var s2 := s.(kind := Cell(s.kind.v[k := Local(c, n)][k2 := Local(c, n)]), pending := Cell(s.pending.v - {n}),
                 callOf := Cell(s.callOf.v - {c}));
    ToldFlows(s, c, n, k, k2, id);
    if c in s.userOf.v && n in s.clients.v {
      OnlineFlows(s, c, n, k, k2, line, vm, id);
      hide Call;
    } else if c in s.userOf.v && line == Push(true) {
      PushedFlows(s, c, n, k, k2, vm, id);
      hide Call;
    } else {
      RouteFlows(s, s1, Ring(c, c, n), k, vm, NoAnswer, id);
      RouteFlows(s, s2, Ring(c, c, n), k2, vm, NoAnswer, id);
    }
  }

  lemma {:induction false} ToldFlows(s: State, c: Sock, n: Number, k: CallId, k2: CallId, id: CallId)
    ensures forall m :: Flows(s, Told(s, c, m), id)
    ensures Flows(s, s.(kind := Cell(s.kind.v[k := Local(c, n)])), id)
    ensures Flows(s, s.(kind := Cell(s.kind.v[k := Local(c, n)][k2 := Local(c, n)]), pending := Cell(s.pending.v - {n}),
                        callOf := Cell(s.callOf.v - {c})), id)
  {}

  lemma {:induction false} OnlineFlows(s: State, c: Sock, n: Number, k: CallId, k2: CallId, line: Line, vm: Voicemail,
                                       id: CallId)
    requires k !in s.kind.v && c in s.userOf.v && n in s.clients.v
    ensures Flows(s, Call(s, c, n, k, k2, line, vm), id)
  {
    hide RecordOrFail;
  }

  lemma {:induction false} PushedFlows(s: State, c: Sock, n: Number, k: CallId, k2: CallId, vm: Voicemail, id: CallId)
    requires k !in s.kind.v && c in s.userOf.v && n !in s.clients.v
    ensures Flows(s, Call(s, c, n, k, k2, Push(true), vm), id)
  {
    hide RecordOrFail;
  }

  lemma {:induction false} RegisterFlows(s: State, c: Sock, n: Number, id: CallId)
    ensures Flows(s, Register(s, c, n), id)
  {}

  lemma {:induction false} InviteFlows(s: State, st: Stream, k: CallId, n: Number, host: Hosting, line: Line,
                                       vm: Voicemail, id: CallId)
    requires k !in s.kind.v
    ensures Flows(s, InInvite(s, st, k, n, host, line, vm), id)
  {
    if host.NotHosted? && n !in s.clients.v {
      OfflineInviteFlows(s, st, k, n, line, vm, id);
    } else {
      hide RouteInbound, RouteInboundOr;
    }
  }

  lemma {:induction false} OfflineInviteFlows(s: State, st: Stream, k: CallId, n: Number, line: Line, vm: Voicemail,
                                              id: CallId)
    requires k !in s.kind.v && n !in s.clients.v
    ensures Flows(s, InInvite(s, st, k, n, NotHosted, line, vm), id)
  {
    hide RouteInbound, RouteInboundOr, Refuse, Flows;
    var s1 := s.(kind := Cell(s.kind.v[k := Incoming(n, st)]));
    var s2 := s1.(streams := Cell(Put(s.streams.v, st, [k])));
    var s3 := s1.(pending := Cell(s.pending.v - {n}));
    InvitedFlows(s, st, k, n, id);
    InboundFlows(s, s1, Blank(st, n), k, vm, Busy(Unavailable), id);
    InboundFlows(s, s2, Blank(st, n), k, vm, Busy(Unavailable), id);
    InboundFlows(s, s3, Blank(st, n), k, vm, Busy(Unavailable), id);
    if line == Push(true) {
      WokenInviteFlows(s, st, k, n, vm, id);
    }
  }

  lemma {:induction false} WokenInviteFlows(s: State, st: Stream, k: CallId, n: Number, vm: Voicemail, id: CallId)
    requires k !in s.kind.v && n !in s.clients.v
    ensures Flows(s, InInvite(s, st, k, n, NotHosted, Push(true), vm), id)
  {
    hide RouteInbound, RouteInboundOr, Refuse;
  }

  lemma {:induction false} InvitedFlows(s: State, st: Stream, k: CallId, n: Number, id: CallId)
    ensures var s1 := s.(kind := Cell(s.kind.v[k := Incoming(n, st)]));
            && Flows(s, s1, id) && Flows(s, s1.(streams := Cell(Put(s.streams.v, st, [k]))), id)
            && Flows(s, s1.(pending := Cell(s.pending.v - {n})), id)
  {}

  lemma {:induction false} EndLegFlows(s: State, k: CallId, why: Reason, id: CallId)
    requires k in s.inLegs.v
    ensures Flows(s, EndLeg(s, k, why), id) && EndLeg(s, k, why).kind == s.kind
  {}

  lemma {:induction false} CleanUpFlows(s: State, k: CallId, id: CallId)
    ensures Flows(s, CleanUp(s, k), id) && CleanUp(s, k).kind == s.kind
  {
    hide EndLeg, Unqueued, Flows;
    TakenFlows(s, 0, s.callOf.v, id);
    if k in s.inLegs.v {
      EndLegFlows(s, k, Disconnected, id);
      UnqueuedFlows(s, EndLeg(s, k, Disconnected), k, id);
    } else {
      UnqueuedFlows(s, s, k, id);
    }
  }

  lemma {:induction false} CleanUpsFlows(s: State, ids: seq<CallId>, id: CallId)
    ensures Flows(s, CleanUps(s, ids), id)
    decreases |ids|
  {
    hide CleanUp, Flows;
    TakenFlows(s, 0, s.callOf.v, id);
    if ids != [] {
      CleanUpFlows(s, ids[0], id);
      CleanUpsFlows(CleanUp(s, ids[0]), ids[1..], id);
      FlowsTrans(s, CleanUp(s, ids[0]), CleanUps(s, ids), id);
    }
  }

  lemma {:induction false} ByeFlows(s: State, k: CallId, why: Reason, st: Stream, id: CallId)
    ensures Flows(s, InBye(s, k, why), id) && Flows(s, InEnd(s, st), id)
  {
    hide EndLeg, CleanUps, Unqueued, Flows;
    TakenFlows(s, 0, s.callOf.v, id);
    UnqueuedFlows(s, s, k, id);
    if k in s.inLegs.v {
      EndLegFlows(s, k, why, id);
    }
    if st in s.streams.v {
      CleanUpsFlows(s, s.streams.v[st], id);
      StreamsFlow(s, CleanUps(s, s.streams.v[st]), st, id);
    }
  }

  lemma {:induction false} StreamsFlow(s: State, s1: State, st: Stream, id: CallId)
    requires Flows(s, s1, id)
    ensures Flows(s, s1.(streams := Cell(s1.streams.v - {st})), id)
  {}

  lemma {:induction false} PlainFlows(s: State, e: Event, id: CallId)
    requires Possible(s, e)
    requires e.EServiceCall? || e.EPlaceCross? || e.EAnswer? || e.ELocalIce? || e.EInboundSelfEnd? || e.ELocalSelfEnd?
             || e.EStreamOpen? || e.EInIce? || e.EOutEvent? || e.EOutEnd?
    ensures Flows(s, Step(s, e), id)
  {
    hide Others, Freed, OnLeg;
  }

  lemma {:induction false} StepFlows(s: State, e: Event, id: CallId)
    requires Possible(s, e)
    ensures Flows(s, Step(s, e), id)
  {
    hide Flows;
    hide Register, Disconnect, Call, Hangup, Decline, RingTimeout, Expire, InboundTimeout, InInvite, InBye, InEnd;
    match e
    case ERegister(c, n) => RegisterFlows(s, c, n, id);
    case EDisconnect(c, vm) => DisconnectFlows(s, c, vm, id);
    case ECall(c, n, k, k2, line, vm) => CallFlows(s, c, n, k, k2, line, vm, id);
    case EHangup(c, vm) => HangupFlows(s, c, vm, id);
    case EDecline(c, asked, vm) => DeclineFlows(s, c, asked, vm, id);
    case ERingTimeout(k, vm) => TimeoutFlows(s, k, vm, id);
    case EExpire(n, vm) => ExpireFlows(s, n, vm, id);
    case EInboundTimeout(k, vm) => TimeoutFlows(s, k, vm, id);
    case EInInvite(st, k, n, host, line, vm) => InviteFlows(s, st, k, n, host, line, vm, id);
    case EInBye(k, why) => ByeFlows(s, k, why, 0, id);
    case EInEnd(st) => ByeFlows(s, 0, HungUp, st, id);
    case _ => PlainFlows(s, e, id);
  }

  // ---- Who is with a service ----

  /** Call id is with a service, and the client of that service is in the call. */
  predicate Attended(s: State, id: CallId) {
    id in s.svc.v && In(s.callOf.v, s.svc.v[id], id)
  }

  /** Nobody but its client is in a call that is with a service. */
  ghost predicate Alone(s: State, id: CallId) {
    id in s.svc.v ==> forall c | In(s.callOf.v, c, id) :: c == s.svc.v[id]
  }

  /** The callee hangs up its socket while it rings: its caller is recorded, and put out of the call all the same. */
  predicate Deserted(s: State, e: Event, id: CallId) {
    e.EDisconnect? && id in s.rings.v && s.rings.v[id].callee == e.c && In(s.callOf.v, e.c, id)
  }

  /** The step takes the client of a service out of its call. */
  predicate Strays(s: State, e: Event, id: CallId) {
    Deserted(s, e, id) || (id in s.svc.v && Overwrites(s, e, s.svc.v[id]))
  }

  /** From s to s' the client of call id stays in the call, unless it was out of it, or strays now. */
  ghost predicate Serves(s: State, s': State, id: CallId, strays: bool) {
    && Alone(s', id)
    && (id in s'.svc.v ==> (Attended(s', id) <==> !strays && (id in s.svc.v ==> Attended(s, id))))
  }

  /** Nothing changes about the service of call id, and about who is in the call. */
  ghost predicate Calm(s: State, s': State, id: CallId) {
    && (id in s'.svc.v <==> id in s.svc.v) && (id in s.svc.v ==> s'.svc.v[id] == s.svc.v[id])
    && forall c :: In(s'.callOf.v, c, id) <==> In(s.callOf.v, c, id)
  }

  lemma {:induction false} CalmServes(s: State, s': State, id: CallId)
    requires Calm(s, s', id) && Alone(s, id)
    ensures Serves(s, s', id, false)
  {}

  lemma {:induction false} CalmTrans(s: State, s1: State, s2: State, id: CallId)
    requires Calm(s, s1, id) && Calm(s1, s2, id)
    ensures Calm(s, s2, id)
  {}

  lemma {:induction false} UnservedServes(s: State, s': State, id: CallId, strays: bool)
    requires id !in s'.svc.v
    ensures Serves(s, s', id, strays)
  {}

  // ---- Parts of handlers ----

  lemma {:induction false} RouteCalm(s: State, r: Ring, k: CallId, vm: Voicemail, why: Reason, id: CallId)
    requires k != id && !In(s.callOf.v, r.caller, id)
    ensures Calm(s, RouteLocalOr(s, r, k, vm, why), id)
  {}

  lemma {:induction false} EndCalm(s: State, c: Sock, k: CallId, why: Reason, id: CallId)
    requires k != id
    ensures Calm(s, End(s, c, k, why), id) && Calm(s, EndOthers(s, c, k, why), id)
    ensures Calm(s, LeaveService(s, c, k), id) && Calm(s, EndService(s, k), id)
  {}

  lemma {:induction false} LegCalm(s: State, c: Sock, k: CallId, why: Reason, id: CallId)
    ensures Calm(s, CloseLeg(s, c, k, why), id) && Calm(s, s.(pending := Cell(Unqueued(s.pending.v, k))), id)
    ensures CloseLeg(s, c, k, why).rings == s.rings && CloseLeg(s, c, k, why).callOf == s.callOf
  {
    hide Unqueued;
  }

  lemma {:induction false} InboundCalm(s: State, leg: Leg, k: CallId, vm: Voicemail, m: PeerMsg, id: CallId)
    ensures Calm(s, RouteInboundOr(s, leg, k, vm, m), id)
  {}

  /** A caller that is routed is alone in the call. */
  lemma {:induction false} RouteServes(s: State, s1: State, r: Ring, k: CallId, vm: Voicemail, why: Reason)
    requires k !in s.svc.v && k !in s1.svc.v && forall c | In(s1.callOf.v, c, k) :: c == r.caller
    ensures Serves(s, RouteLocalOr(s1, r, k, vm, why), k, false)
  {
    var s' := RouteLocalOr(s1, r, k, vm, why);
    forall c | In(s'.callOf.v, c, k) ensures c == r.caller {
      assert c != r.caller ==> In(s1.callOf.v, c, k);
    }
    assert k in s'.svc.v ==> s'.svc.v[k] == r.caller && In(s'.callOf.v, r.caller, k);
  }

  /** Only the two parties of a ring are in its call. */
  lemma {:induction false} RingParties(s: State, k: CallId, c: Sock)
    requires Inv(s) && k in s.rings.v && In(s.callOf.v, c, k)
    ensures c == s.rings.v[k].caller || c == s.rings.v[k].callee
    ensures k !in s.svc.v
  {}

  lemma {:induction false} RingUnserved(s: State, k: CallId)
    requires Inv(s) && k in s.rings.v
    ensures k !in s.svc.v
  {}

  /** A ring is taken and its callee let go; its caller is recorded or told. */
  lemma {:induction false} TakenServes(s: State, s2: State, k: CallId, vm: Voicemail, why: Reason, id: CallId)
    requires Inv(s) && Lines(s) && Alone(s, id) && k in s.rings.v
    requires s2 == s.(rings := Cell(s.rings.v - {k}), told := s2.told,
                      callOf := Cell(Freed(s.callOf.v, s.rings.v[k].callee, k)))
    ensures Serves(s, s2, id, false) && Serves(s, RouteLocalOr(s2, s.rings.v[k], k, vm, why), id, false)
  {
    var r := s.rings.v[k];
    if id == k {
      RingUnserved(s, k);
      forall c | In(s2.callOf.v, c, k) ensures c == r.caller { RingParties(s, k, c); }
      hide Inv, Lines;
      RouteServes(s, s2, r, k, vm, why);
    } else {
      RingersIn(s, k, id);
      hide Inv, Lines;
      FreedCalm(s, s2, r.callee, k, id);
      CalmServes(s, s2, id);
      RouteCalm(s2, r, k, vm, why, id);
      CalmTrans(s, s2, RouteLocalOr(s2, r, k, vm, why), id);
      CalmServes(s, RouteLocalOr(s2, r, k, vm, why), id);
    }
  }

  lemma {:induction false} FreedCalm(s: State, s2: State, c: Sock, k: CallId, id: CallId)
    requires id != k && s2.svc == s.svc && s2.callOf == Cell(Freed(s.callOf.v, c, k))
    ensures Calm(s, s2, id)
  {}

  // ---- Each handler ----

  lemma {:induction false} HangupServes(s: State, c: Sock, vm: Voicemail, id: CallId)
    requires Inv(s) && Lines(s) && Alone(s, id)
    ensures Serves(s, Hangup(s, c, vm), id, false)
  {
    hide Inv, Lines, Serves, HangupIn, Alone;
    if c in s.userOf.v && c in s.callOf.v {
      var k := s.callOf.v[c];
      var s1 := s.(callOf := Cell(s.callOf.v - {c}));
      if k in s.rings.v && s.rings.v[k].callee == c {
        var s2 := s1.(rings := Cell(s.rings.v - {k}));
        TakenServes(s, s2, k, vm, Declined, id);
        HangupIsRoute(s1, c, k, vm);
      } else if id == k {
        HangupEnds(s, c, vm);
        UnservedServes(s, Hangup(s, c, vm), id, false);
      } else {
        HangupCalm(s, c, vm, id);
        CalmServes(s, Hangup(s, c, vm), id);
      }
    } else {
      CalmServes(s, s, id);
    }
  }

  lemma {:induction false} HangupIsRoute(s1: State, c: Sock, k: CallId, vm: Voicemail)
    requires k in s1.rings.v && s1.rings.v[k].callee == c
    ensures HangupIn(s1, c, k, vm) == RouteLocalOr(s1.(rings := Cell(s1.rings.v - {k})), s1.rings.v[k], k, vm, Declined)
  {
    hide RouteLocalOr;
  }

  /** Whoever hangs up, if it is not a callee that rings, leaves no service behind. */
  lemma {:induction false} HangupEnds(s: State, c: Sock, vm: Voicemail)
    requires Inv(s) && c in s.userOf.v && c in s.callOf.v
    requires s.callOf.v[c] in s.rings.v ==> s.rings.v[s.callOf.v[c]].callee != c
    ensures s.callOf.v[c] !in Hangup(s, c, vm).svc.v
  {
    var k := s.callOf.v[c];
    ServedPlace(s, k);
    hide Inv, RouteLocalOr, Others, Freed, Unqueued;
  }

  /** A call with a service is nowhere else. */
  lemma {:induction false} ServedPlace(s: State, k: CallId)
    requires Inv(s)
    ensures k in s.svc.v ==> k !in s.rings.v && k !in s.inLegs.v && k !in s.outLegs.v && !Queued(s.pending.v, k)
  {}

  lemma {:induction false} HangupCalm(s: State, c: Sock, vm: Voicemail, id: CallId)
    requires c in s.userOf.v && c in s.callOf.v && s.callOf.v[c] != id
    requires s.callOf.v[c] in s.rings.v ==> s.rings.v[s.callOf.v[c]].callee != c
    ensures Calm(s, Hangup(s, c, vm), id)
  {
    hide Calm, RouteLocalOr, RouteInboundOr, End, EndOthers, EndService, CloseLeg, Unqueued;
    var k := s.callOf.v[c];
    var s1 := s.(callOf := Cell(s.callOf.v - {c}));
    LeavingCalm(s, s1, c, id);
    LeavingCalm(s, s1.(rings := Cell(s.rings.v - {k})), c, id);
    if k in s.rings.v {
      var s2 := s1.(rings := Cell(s.rings.v - {k}));
      EndCalm(s2, s.rings.v[k].callee, k, HungUp, id);
      CalmTrans(s, s2, Hangup(s, c, vm), id);
    } else if Declinable(s1, c, k) {
      var s2 := s1.(callOf := Cell(Freed(s1.callOf.v, c, k)));
      FreedCalm(s1, s2, c, k, id);
      CalmTrans(s, s1, s2, id);
      InboundCalm(s2, Quiet(s.inLegs.v[k]), k, vm, Bye(Declined), id);
      CalmTrans(s, s2, Hangup(s, c, vm), id);
    } else {
      LegCalm(s1, c, k, HungUp, id);
      EndCalm(s1, c, k, HungUp, id);
      CalmTrans(s, s1, Hangup(s, c, vm), id);
    }
  }

  lemma {:induction false} LeavingCalm(s: State, s1: State, c: Sock, id: CallId)
    requires c in s.callOf.v && s.callOf.v[c] != id && s1.callOf == Cell(s.callOf.v - {c}) && s1.svc == s.svc
    ensures Calm(s, s1, id)
  {}

  lemma {:induction false} DeclineServes(s: State, c: Sock, asked: Option<CallId>, vm: Voicemail, id: CallId)
    requires Inv(s) && Lines(s) && Alone(s, id)
    ensures Serves(s, Decline(s, c, asked, vm), id, false)
  {
    hide Inv, Serves, Hangup, RouteLocalOr, Alone, LineOk;
    if c in s.userOf.v && (asked.Some? || c in s.callOf.v) {
      var k := if asked.Some? then asked.value else s.callOf.v[c];
      var s1 := s.(rings := Cell(s.rings.v - {k}));
      if k in s.rings.v && s.rings.v[k].callee == c {
        TakenServes(s, s1.(callOf := Cell(Freed(s.callOf.v, c, k))), k, vm, Declined, id);
      } else {
        TakingKeeps(s, k);
        forall x ensures LineOk(s1, x) {
          assert LineOk(s, x);
          TakeSteady(s, k, x);
          SteadyKeeps(s, s1, x);
        }
        SameAlone(s, s1, id);
        HangupServes(s1, c, vm, id);
        SameServes(s, s1, Hangup(s1, c, vm), id);
      }
    } else {
      CalmServes(s, s, id);
    }
  }

  lemma {:induction false} SameAlone(s: State, s1: State, id: CallId)
    requires Alone(s, id) && s1.svc == s.svc && s1.callOf == s.callOf
    ensures Alone(s1, id)
  {}

  lemma {:induction false} SameServes(s: State, s1: State, s': State, id: CallId)
    requires Serves(s1, s', id, false) && s1.svc == s.svc && s1.callOf == s.callOf
    ensures Serves(s, s', id, false)
  {}

  lemma {:induction false} TimeoutServes(s: State, k: CallId, vm: Voicemail, id: CallId)
    requires Inv(s) && Lines(s) && Alone(s, id)
    ensures Serves(s, RingTimeout(s, k, vm), id, false)
  {
    hide Inv, Lines, Serves, RouteLocalOr, Online, Alone;
    if k in s.rings.v {
      var s1 := s.(rings := Cell(s.rings.v - {k}));
      TakenServes(s, End(s1, s.rings.v[k].callee, k, NoAnswer), k, vm, NoAnswer, id);
    } else {
      CalmServes(s, s, id);
    }
  }

  lemma {:induction false} ExpireServes(s: State, n: Number, vm: Voicemail, id: CallId)
    requires Inv(s) && Lines(s) && Alone(s, id)
    ensures Serves(s, Expire(s, n, vm), id, false)
  {
    hide Inv, Lines, Serves, RouteLocalOr, RouteInboundOr, Online, Alone, Calm, LineOk;
    var s1 := s.(pending := Cell(s.pending.v - {n}));
    SameCalm(s, s1, id);
    SameCalm(s, s, id);
    CalmServes(s, s, id);
    CalmServes(s, s1, id);
    if n in s.pending.v {
      var p := s.pending.v[n];
      QueuedFacts(s, n);
      if p.Remote? {
        if p.id in s.inLegs.v {
          InboundCalm(s1, s.inLegs.v[p.id], p.id, vm, Bye(NoAnswer), id);
          CalmTrans(s, s1, Expire(s, n, vm), id);
          CalmServes(s, Expire(s, n, vm), id);
        }
      } else if p.id == id {
        forall c | In(s.callOf.v, c, id) ensures c == p.caller { QueuedParty(s, n, c); }
        RouteServes(s, s1, Ring(p.caller, p.caller, n), id, vm, NoAnswer);
      } else {
        LinesAt(s, p.id);
        QueuedHeld(s, n);
        RouteCalm(s1, Ring(p.caller, p.caller, n), p.id, vm, NoAnswer, id);
        CalmTrans(s, s1, RouteLocalOr(s1, Ring(p.caller, p.caller, n), p.id, vm, NoAnswer), id);
        CalmServes(s, RouteLocalOr(s1, Ring(p.caller, p.caller, n), p.id, vm, NoAnswer), id);
      }
    }
  }

  lemma {:induction false} LinesAt(s: State, id: CallId)
    requires Lines(s)
    ensures LineOk(s, id)
  {}

  lemma {:induction false} SameCalm(s: State, s1: State, id: CallId)
    requires s1.svc == s.svc && s1.callOf == s.callOf
    ensures Calm(s, s1, id)
  {}

  lemma {:induction false} QueuedParty(s: State, n: Number, c: Sock)
    requires Inv(s) && n in s.pending.v && s.pending.v[n].Waiting? && In(s.callOf.v, c, s.pending.v[n].id)
    ensures c == s.pending.v[n].caller
  {}

  lemma {:induction false} DisconnectServes(s: State, c: Sock, vm: Voicemail, id: CallId)
    requires Inv(s) && Lines(s) && Alone(s, id)
    ensures Serves(s, Disconnect(s, c, vm), id, Deserted(s, EDisconnect(c, vm), id))
  {
    hide Inv, Lines, Serves, LeaveCall, Alone, Calm;
    if c in s.userOf.v && c in s.callOf.v {
      var k := s.callOf.v[c];
      var s1 := s.(callOf := Cell(s.callOf.v - {c}));
      var s2 := LeaveCall(s1, c, k, vm);
      UnlistCalm(s2, c, s.userOf.v[c], id);
      if id != k {
        LeaveCallCalm(s, s1, c, vm, id);
        CalmTrans(s, s2, Disconnect(s, c, vm), id);
        CalmServes(s, Disconnect(s, c, vm), id);
      } else if Deserted(s, EDisconnect(c, vm), id) {
        DesertionStrays(s, c, vm);
        UnlistServes(s, s2, c, s.userOf.v[c], id, true);
      } else {
        LeaveCallEnds(s, c, vm);
        UnlistServes(s, s2, c, s.userOf.v[c], id, false);
      }
    } else {
      BusyRegistered(s, c);
      UnlistCalm(s, c, if c in s.userOf.v then s.userOf.v[c] else 0, id);
      CalmServes(s, Disconnect(s, c, vm), id);
    }
  }

  lemma {:induction false} BusyRegistered(s: State, c: Sock)
    requires Inv(s)
    ensures c in s.callOf.v ==> c in s.userOf.v
  {}

  lemma {:induction false} UnlistCalm(s: State, c: Sock, n: Number, id: CallId)
    ensures Calm(s, Unlist(s, c, n), id) && Calm(s, s.(gone := Cell(s.gone.v + {c})), id)
  {}

  lemma {:induction false} UnlistServes(s: State, s2: State, c: Sock, n: Number, id: CallId, strays: bool)
    requires Serves(s, s2, id, strays)
    ensures Serves(s, Unlist(s2, c, n), id, strays)
  {}

  lemma {:induction false} LeaveCallCalm(s: State, s1: State, c: Sock, vm: Voicemail, id: CallId)
    requires Lines(s) && c in s.callOf.v && s.callOf.v[c] != id && s1 == s.(callOf := Cell(s.callOf.v - {c}))
    ensures Calm(s, LeaveCall(s1, c, s.callOf.v[c], vm), id)
  {
    hide Calm, LeaveRing, LeaveService, EndOthers, CloseLeg, Unqueued, Lines;
    var k := s.callOf.v[c];
    LeavingCalm(s, s1, c, id);
    RingersIn(s, k, id);
    LegCalm(s1, c, k, Disconnected, id);
    var s2 := CloseLeg(s1, c, k, Disconnected);
    LegCalm(s2, c, k, Disconnected, id);
    var s3 := s2.(pending := Cell(Unqueued(s2.pending.v, k)));
    CalmTrans(s, s1, s2, id);
    CalmTrans(s, s2, s3, id);
    LeaveRingCalm(s3, c, k, vm, id);
    var s4 := LeaveRing(s3, c, k, vm);
    CalmTrans(s, s3, s4, id);
    EndCalm(s4, c, k, Disconnected, id);
    var s5 := LeaveService(s4, c, k);
    CalmTrans(s, s4, s5, id);
    EndCalm(s5, c, k, Disconnected, id);
    CalmTrans(s, s5, EndOthers(s5, c, k, Disconnected), id);
  }

  lemma {:induction false} LeaveRingCalm(s: State, c: Sock, k: CallId, vm: Voicemail, id: CallId)
    requires k != id && (k in s.rings.v ==> !In(s.callOf.v, s.rings.v[k].caller, id))
    ensures Calm(s, LeaveRing(s, c, k, vm), id)
  {
    hide RouteLocalOr, End, Online, Calm;
    SameCalm(s, s, id);
    if k in s.rings.v {
      var s1 := s.(rings := Cell(s.rings.v - {k}));
      SameCalm(s, s1, id);
      RouteCalm(s1, s.rings.v[k], k, vm, Disconnected, id);
      EndCalm(s1, s.rings.v[k].callee, k, Disconnected, id);
      CalmTrans(s, s1, LeaveRing(s, c, k, vm), id);
    }
  }

  /** Whoever leaves its call, if it is not a callee that rings, leaves no service behind. */
  lemma {:induction false} LeaveCallEnds(s: State, c: Sock, vm: Voicemail)
    requires Inv(s) && c in s.callOf.v && Alone(s, s.callOf.v[c]) && !Deserted(s, EDisconnect(c, vm), s.callOf.v[c])
    ensures var k := s.callOf.v[c];
            Serves(s, LeaveCall(s.(callOf := Cell(s.callOf.v - {c})), c, k, vm), k, false)
  {
    var k := s.callOf.v[c];
    ServedPlace(s, k);
    assert In(s.callOf.v, c, k);
    assert k in s.svc.v ==> s.svc.v[k] == c;
    hide Inv, RouteLocalOr, Others, Unqueued, Alone;
    LegCalm(s.(callOf := Cell(s.callOf.v - {c})), c, k, Disconnected, k);
    hide CloseLeg, Calm;
    LeftUnserved(s, c, vm);
    UnservedServes(s, LeaveCall(s.(callOf := Cell(s.callOf.v - {c})), c, k, vm), k, false);
  }

  lemma {:induction false} LeftUnserved(s: State, c: Sock, vm: Voicemail)
    requires c in s.callOf.v && !Deserted(s, EDisconnect(c, vm), s.callOf.v[c])
    requires s.callOf.v[c] in s.svc.v ==> s.svc.v[s.callOf.v[c]] == c && s.callOf.v[c] !in s.rings.v
    ensures s.callOf.v[c] !in LeaveCall(s.(callOf := Cell(s.callOf.v - {c})), c, s.callOf.v[c], vm).svc.v
  {
    hide RouteLocalOr, Others, Unqueued, Freed;
  }

  /** The deserted caller is recorded or not, and in no case in the call. */
  lemma {:induction false} DesertionStrays(s: State, c: Sock, vm: Voicemail)
    requires Inv(s) && Lines(s) && c in s.callOf.v && Deserted(s, EDisconnect(c, vm), s.callOf.v[c])
    ensures var k := s.callOf.v[c];
            Serves(s, LeaveCall(s.(callOf := Cell(s.callOf.v - {c})), c, k, vm), k, true)
  {
    var k := s.callOf.v[c];
    var r := s.rings.v[k];
    RingUnserved(s, k);
    RingFacts(s, k);
    assert LineOk(s, k);
    forall x | In(s.callOf.v, x, k) ensures x == r.caller || x == c { RingParties(s, k, x); }
    RingPlace(s, k);
    hide Inv, Lines, LineOk;
    DesertedLeaves(s, c, vm);
  }

  lemma {:induction false} RingPlace(s: State, k: CallId)
    requires Inv(s) && k in s.rings.v
    ensures k !in s.outLegs.v && k !in s.inLegs.v && !Queued(s.pending.v, k)
  {}

  lemma {:induction false} DesertedLeaves(s: State, c: Sock, vm: Voicemail)
    requires c in s.callOf.v && s.callOf.v[c] in s.rings.v
    requires var k := s.callOf.v[c]; var r := s.rings.v[k];
             && k !in s.svc.v && k !in s.outLegs.v && k !in s.inLegs.v && r.callee == c && r.caller != c
             && forall x | In(s.callOf.v, x, k) :: x == r.caller || x == c
    ensures var k := s.callOf.v[c]; var r := s.rings.v[k];
            var s' := LeaveCall(s.(callOf := Cell(s.callOf.v - {c})), c, k, vm);
            && Serves(s, s', k, true) && (k in s'.svc.v <==> vm.Works? && Online(s, r.caller))
            && (k in s'.svc.v ==>
                  && s'.svc.v[k] == r.caller
                  && s'.told.v[(r.caller, Connected(k))] > s.told.v[(r.caller, Connected(k))]
                  && s'.told.v[(r.caller, Ended(k, Disconnected))] > s.told.v[(r.caller, Ended(k, Disconnected))])
  {
    var k := s.callOf.v[c];
    var r := s.rings.v[k];
    var s1 := s.(callOf := Cell(s.callOf.v - {c}), pending := Cell(Unqueued(s.pending.v, k)));
    assert LeaveCall(s.(callOf := Cell(s.callOf.v - {c})), c, k, vm)
        == EndOthers(LeaveService(LeaveRing(s1, c, k, vm), c, k), c, k, Disconnected);
    hide LeaveCall, Unqueued;
    var s2 := s1.(rings := Cell(s.rings.v - {k}));
    var s3 := LeaveRing(s1, c, k, vm);
    assert Online(s1, r.caller) == Online(s, r.caller) == Online(s2, r.caller);
    RoutedOr(s2, r, k, vm);
    assert s3 == if Online(s, r.caller) then RouteLocalOr(s2, r, k, vm, Disconnected) else s2;
    hide LeaveRing, RouteLocalOr;
    assert LeaveService(s3, c, k) == s3;
    hide LeaveService;
    forall y | In(s3.callOf.v, y, k) ensures y == r.caller || y == c {
      assert y != r.caller ==> In(s2.callOf.v, y, k);
      assert In(s2.callOf.v, y, k) ==> In(s.callOf.v, y, k);
    }
    OthersGo(s3, r.caller, c, k);
  }

  lemma {:induction false} RoutedOr(s: State, r: Ring, k: CallId, vm: Voicemail)
    requires k !in s.svc.v
    ensures var s' := RouteLocalOr(s, r, k, vm, Disconnected);
            && s'.clients == s.clients && s'.userOf == s.userOf
            && (k in s'.svc.v <==> vm.Works? && Online(s, r.caller)) && (k in s'.svc.v ==> s'.svc.v[k] == r.caller)
            && (k in s'.svc.v ==> In(s'.callOf.v, r.caller, k)
                                  && s'.told.v[(r.caller, Connected(k))] == s.told.v[(r.caller, Connected(k))] + 1
                                  && s'.told.v[(r.caller, Ended(k, Disconnected))]
                                     == s.told.v[(r.caller, Ended(k, Disconnected))])
            && forall x | In(s'.callOf.v, x, k) :: x == r.caller || In(s.callOf.v, x, k)
  {}

  /** A listed socket in the call is told that the call has ended, and put out of it. */
  lemma {:induction false} OthersGo(s: State, x: Sock, c: Sock, k: CallId)
    requires x != c && forall y | In(s.callOf.v, y, k) :: y == x || y == c
    ensures var s' := EndOthers(s, c, k, Disconnected);
            && s'.svc == s.svc && s'.told.v[(x, Connected(k))] == s.told.v[(x, Connected(k))]
            && (In(s.callOf.v, x, k) && Online(s, x) ==>
                  !In(s'.callOf.v, x, k)
                    && s'.told.v[(x, Ended(k, Disconnected))] > s.told.v[(x, Ended(k, Disconnected))])
            && forall y | In(s'.callOf.v, y, k) :: In(s.callOf.v, y, k)
  {
    if In(s.callOf.v, x, k) && Online(s, x) {
      assert x in s.clients.v.Values by { assert s.clients.v[s.userOf.v[x]] == x; }
      assert x in Others(s, c, k);
    }
  }

  // ---- Handlers that overwrite a callID ----

  /** For call id the step does no more than take overwritten sockets out of it. */
  ghost predicate Takes(s: State, e: Event, s': State, id: CallId) {
    && (id in s'.svc.v <==> id in s.svc.v) && (id in s.svc.v ==> s'.svc.v[id] == s.svc.v[id])
    && forall x :: In(s'.callOf.v, x, id) <==> In(s.callOf.v, x, id) && !Overwrites(s, e, x)
  }

  lemma {:induction false} TakesServes(s: State, e: Event, s': State, id: CallId)
    requires Takes(s, e, s', id) && Alone(s, id) && !e.EDisconnect?
    ensures Serves(s, s', id, Strays(s, e, id))
  {
    hide Overwrites;
  }

  /** Nobody is in a call that is new. */
  lemma {:induction false} NewCall(s: State, k: CallId)
    requires Inv(s) && k !in s.kind.v
    ensures k !in s.svc.v && forall c :: !In(s.callOf.v, c, k)
  {}

  lemma {:induction false} RegisterServes(s: State, c: Sock, n: Number, id: CallId)
    requires Inv(s) && Lines(s) && Alone(s, id)
    ensures Serves(s, Register(s, c, n), id, Strays(s, ERegister(c, n), id))
  {
    if n in s.pending.v {
      var p := s.pending.v[n];
      QueuedFacts(s, n);
      LinesAt(s, p.id);
      QueuedHeld(s, n);
      hide Inv, Lines, LineOk;
      if p.id == id {
        RegisterSvc(s, c, n);
        hide Register;
        UnservedServes(s, Register(s, c, n), id, Strays(s, ERegister(c, n), id));
      } else {
        DeliverTakes(s, c, n, id);
        TakesServes(s, ERegister(c, n), Register(s, c, n), id);
      }
    } else {
      hide Inv, Lines, LineOk;
      ListTakes(s, c, n, id);
      TakesServes(s, ERegister(c, n), Register(s, c, n), id);
    }
  }

  lemma {:induction false} RegisterSvc(s: State, c: Sock, n: Number)
    ensures Register(s, c, n).svc == s.svc
  {}

  lemma {:induction false} ListTakes(s: State, c: Sock, n: Number, id: CallId)
    requires n !in s.pending.v
    ensures Takes(s, ERegister(c, n), Register(s, c, n), id)
  {}

  lemma {:induction false} DeliverTakes(s: State, c: Sock, n: Number, id: CallId)
    requires n in s.pending.v && s.pending.v[n].id != id
    requires s.pending.v[n].Waiting? ==> In(s.callOf.v, s.pending.v[n].caller, s.pending.v[n].id)
    ensures Takes(s, ERegister(c, n), Register(s, c, n), id)
  {}

  lemma {:induction false} CallServes(s: State, c: Sock, n: Number, k: CallId, k2: CallId, line: Line, vm: Voicemail,
                                      id: CallId)
    requires Inv(s) && Alone(s, id) && k !in s.kind.v && k2 !in s.kind.v && k != k2
    ensures Serves(s, Call(s, c, n, k, k2, line, vm), id, Strays(s, ECall(c, n, k, k2, line, vm), id))
  {
    if id == k || id == k2 {
      NewCall(s, k);
      NewCall(s, k2);
      hide Inv;
      NewCallServes(s, c, n, k, k2, line, vm, id);
    } else {
      hide Inv;
      CallTaking(s, c, n, k, k2, line, vm, id);
      TakesServes(s, ECall(c, n, k, k2, line, vm), Call(s, c, n, k, k2, line, vm), id);
    }
  }

  lemma {:induction false} CallTaking(s: State, c: Sock, n: Number, k: CallId, k2: CallId, line: Line, vm: Voicemail,
                                      id: CallId)
    requires id != k && id != k2
    ensures Takes(s, ECall(c, n, k, k2, line, vm), Call(s, c, n, k, k2, line, vm), id)
  {}

  lemma {:induction false} NewCallServes(s: State, c: Sock, n: Number, k: CallId, k2: CallId, line: Line, vm: Voicemail,
                                         id: CallId)
    requires id !in s.svc.v && (forall x :: !In(s.callOf.v, x, id)) && k != k2
    ensures Serves(s, Call(s, c, n, k, k2, line, vm), id, Strays(s, ECall(c, n, k, k2, line, vm), id))
  {
    hide RecordOrFail;
    var s1 := s.(kind := Cell(s.kind.v[k := Local(c, n)]));
    var s2 := s.(kind := Cell(s.kind.v[k := Local(c, n)][k2 := Local(c, n)]), pending := Cell(s.pending.v - {n}),
                 callOf := Cell(s.callOf.v - {c}));
    assert forall x :: In(s2.callOf.v, x, id) ==> In(s.callOf.v, x, id);
    RecordServes(s, s1, c, n, k, vm, id);
    RecordServes(s, s2, c, n, k2, vm, id);
  }

  lemma {:induction false} RecordServes(s: State, s1: State, c: Sock, n: Number, k: CallId, vm: Voicemail, id: CallId)
    requires id !in s.svc.v && id !in s1.svc.v && (forall x :: !In(s1.callOf.v, x, id))
    ensures Serves(s, RecordOrFail(s1, c, n, k, vm), id, false)
  {
    var s' := RecordOrFail(s1, c, n, k, vm);
    forall x | In(s'.callOf.v, x, id) ensures x == c && id == k {
      assert !In(s1.callOf.v, x, id);
    }
    assert id in s'.svc.v ==> id == k && s'.svc.v[k] == c && In(s'.callOf.v, c, k);
  }

  lemma {:induction false} PlaceServes(s: State, c: Sock, k: CallId, n: Number, accepts: bool, id: CallId)
    requires Inv(s) && Alone(s, id) && k !in s.kind.v
    ensures Serves(s, PlaceCross(s, c, k, n, accepts), id, Strays(s, EPlaceCross(c, k, n, accepts), id))
    ensures Serves(s, ServiceCall(s, c, k, accepts), id, Strays(s, EServiceCall(c, k, accepts), id))
  {
    NewCall(s, k);
    hide Inv;
    if id != k {
      PlaceTaking(s, c, k, n, accepts, id);
      TakesServes(s, EPlaceCross(c, k, n, accepts), PlaceCross(s, c, k, n, accepts), id);
      TakesServes(s, EServiceCall(c, k, accepts), ServiceCall(s, c, k, accepts), id);
    } else {
      NewPlaceServes(s, c, k, n, accepts);
      hide Serves, Strays;
    }
  }

  lemma {:induction false} NewPlaceServes(s: State, c: Sock, k: CallId, n: Number, accepts: bool)
    requires k !in s.svc.v && (forall x :: !In(s.callOf.v, x, k))
    ensures Serves(s, PlaceCross(s, c, k, n, accepts), k, Strays(s, EPlaceCross(c, k, n, accepts), k))
    ensures Serves(s, ServiceCall(s, c, k, accepts), k, Strays(s, EServiceCall(c, k, accepts), k))
  {
    var s' := ServiceCall(s, c, k, accepts);
    assert k !in PlaceCross(s, c, k, n, accepts).svc.v;
    forall x | In(s'.callOf.v, x, k) ensures x == c {
      assert !In(s.callOf.v, x, k);
    }
  }

  lemma {:induction false} PlaceTaking(s: State, c: Sock, k: CallId, n: Number, accepts: bool, id: CallId)
    requires id != k
    ensures Takes(s, EPlaceCross(c, k, n, accepts), PlaceCross(s, c, k, n, accepts), id)
    ensures Takes(s, EServiceCall(c, k, accepts), ServiceCall(s, c, k, accepts), id)
  {}

  lemma {:induction false} InviteServes(s: State, st: Stream, k: CallId, n: Number, host: Hosting, line: Line,
                                        vm: Voicemail, id: CallId)
    requires Inv(s) && Alone(s, id) && k !in s.kind.v
    ensures Serves(s, InInvite(s, st, k, n, host, line, vm), id, Strays(s, EInInvite(st, k, n, host, line, vm), id))
  {
    NewCall(s, k);
    hide Inv;
    InviteTaking(s, st, k, n, host, line, vm, id);
    hide InInvite;
    if id != k {
      TakesServes(s, EInInvite(st, k, n, host, line, vm), InInvite(s, st, k, n, host, line, vm), id);
    } else {
      UnservedServes(s, InInvite(s, st, k, n, host, line, vm), id, Strays(s, EInInvite(st, k, n, host, line, vm), id));
    }
  }

  lemma {:induction false} InviteTaking(s: State, st: Stream, k: CallId, n: Number, host: Hosting, line: Line,
                                        vm: Voicemail, id: CallId)
    ensures InInvite(s, st, k, n, host, line, vm).svc == s.svc
    ensures id != k ==> Takes(s, EInInvite(st, k, n, host, line, vm), InInvite(s, st, k, n, host, line, vm), id)
  {
    hide RouteInbound, RouteInboundOr, Refuse;
    InviteParts(s, st, k, n, vm);
  }

  /** Refusing an inbound call, or recording it, concerns no local socket. */
  lemma {:induction false} InviteParts(s: State, st: Stream, k: CallId, n: Number, vm: Voicemail)
    ensures var s1 := s.(kind := Cell(s.kind.v[k := Incoming(n, st)]));
            && (forall why :: Refuse(s1, k, why).svc == s.svc && Refuse(s1, k, why).callOf == s.callOf)
            && (forall why :: var s2 := Refuse(s1.(pending := Cell(s.pending.v - {n})), k, why);
                  s2.svc == s.svc && s2.callOf == s.callOf)
            && (forall leg, m :: var s2 := RouteInboundOr(s1, leg, k, vm, m); s2.svc == s.svc && s2.callOf == s.callOf)
            && (forall leg, kept :: var s2 := RouteInbound(s1.(streams := Cell(kept)), leg, k);
                  s2.svc == s.svc && s2.callOf == s.callOf)
  {}

  // ---- The rest ----

  /** A call with a service is local. */
  lemma {:induction false} ServedLocal(s: State, k: CallId)
    requires Inv(s)
    ensures k in s.svc.v ==> k in s.kind.v && s.kind.v[k].Local?
    ensures k in s.inLegs.v ==> k in s.kind.v && s.kind.v[k].Incoming?
    ensures k in s.readers.v ==> k in s.kind.v && s.kind.v[k].Outgoing?
  {}

  lemma {:induction false} PlainServes(s: State, e: Event, id: CallId)
    requires Inv(s) && Alone(s, id)
    requires e.EAnswer? || e.ELocalIce? || e.EInboundSelfEnd? || e.EStreamOpen? || e.EInIce?
    ensures Serves(s, Step(s, e), id, false)
  {
    hide Inv, Others, OnLeg;
    SameCalm(s, Step(s, e), id);
    CalmServes(s, Step(s, e), id);
  }

  lemma {:induction false} SelfEndServes(s: State, c: Sock, k: CallId, id: CallId)
    requires Alone(s, id)
    ensures Serves(s, LocalSelfEnd(s, c, k), id, false)
  {
    if id == k {
      UnservedServes(s, LocalSelfEnd(s, c, k), id, false);
    } else {
      assert Calm(s, LocalSelfEnd(s, c, k), id);
      CalmServes(s, LocalSelfEnd(s, c, k), id);
    }
  }

  lemma {:induction false} InboundTimeoutServes(s: State, k: CallId, vm: Voicemail, id: CallId)
    requires Inv(s) && Alone(s, id)
    ensures Serves(s, InboundTimeout(s, k, vm), id, false)
  {
    ServedLocal(s, id);
    ServedLocal(s, k);
    hide Inv, RouteInboundOr, End, Calm, Serves, Alone;
    SameCalm(s, s, id);
    CalmServes(s, s, id);
    if k in s.inLegs.v && s.inLegs.v[k].callee.Some? {
      var b := s.inLegs.v[k].callee.value;
      var s1 := End(s, b, k, NoAnswer);
      var s2 := RouteInboundOr(s1, Quiet(s.inLegs.v[k]), k, vm, Bye(NoAnswer));
      if id != k {
        EndCalm(s, b, k, NoAnswer, id);
        InboundCalm(s1, Quiet(s.inLegs.v[k]), k, vm, Bye(NoAnswer), id);
        CalmTrans(s, s1, s2, id);
        CalmServes(s, s2, id);
      } else {
        InboundSvc(s, b, s.inLegs.v[k], k, vm);
        UnservedServes(s, s2, id, false);
      }
    }
  }

  lemma {:induction false} InboundSvc(s: State, b: Sock, leg: Leg, k: CallId, vm: Voicemail)
    ensures RouteInboundOr(End(s, b, k, NoAnswer), Quiet(leg), k, vm, Bye(NoAnswer)).svc == s.svc
  {}

  lemma {:induction false} EndLegServes(s: State, k: CallId, why: Reason, id: CallId)
    requires Inv(s) && k in s.inLegs.v && Alone(s, id)
    ensures Serves(s, EndLeg(s, k, why), id, false) && EndLeg(s, k, why).svc == s.svc
    ensures id in s.svc.v ==> Calm(s, EndLeg(s, k, why), id)
  {
    ServedLocal(s, id);
    ServedLocal(s, k);
    hide Inv, Unqueued;
    if id in s.svc.v {
      assert Calm(s, EndLeg(s, k, why), id);
      CalmServes(s, EndLeg(s, k, why), id);
    } else {
      UnservedServes(s, EndLeg(s, k, why), id, false);
    }
  }

  lemma {:induction false} CleanUpServes(s: State, k: CallId, id: CallId)
    requires Inv(s) && Alone(s, id)
    ensures Alone(CleanUp(s, k), id) && CleanUp(s, k).svc == s.svc && (id in s.svc.v ==> Calm(s, CleanUp(s, k), id))
  {
    hide Inv, EndLeg, Unqueued;
    if k in s.inLegs.v {
      EndLegServes(s, k, Disconnected, id);
    }
  }

  lemma {:induction false} CleanUpsServes(s: State, ids: seq<CallId>, id: CallId)
    requires Inv(s) && Alone(s, id)
    ensures CleanUps(s, ids).svc == s.svc && (id in s.svc.v ==> Calm(s, CleanUps(s, ids), id))
    decreases |ids|
  {
    hide Inv, CleanUp, Alone, Calm;
    SameCalm(s, s, id);
    if ids != [] {
      CleanUpKeeps(s, ids[0]);
      CleanUpServes(s, ids[0], id);
      CleanUpsServes(CleanUp(s, ids[0]), ids[1..], id);
      if id in s.svc.v {
        CalmTrans(s, CleanUp(s, ids[0]), CleanUps(s, ids), id);
      }
    }
  }

  lemma {:induction false} ByeServes(s: State, k: CallId, why: Reason, st: Stream, id: CallId)
    requires Inv(s) && Alone(s, id)
    ensures Serves(s, InBye(s, k, why), id, false) && Serves(s, InEnd(s, st), id, false)
  {
    hide Inv, EndLeg, CleanUps, Unqueued, Calm, Serves, Alone;
    SameCalm(s, s, id);
    CalmServes(s, s, id);
    if k in s.inLegs.v {
      EndLegServes(s, k, why, id);
    } else {
      SameCalm(s, InBye(s, k, why), id);
      CalmServes(s, InBye(s, k, why), id);
    }
    if st in s.streams.v {
      CleanUpsServes(s, s.streams.v[st], id);
      var s1 := CleanUps(s, s.streams.v[st]);
      SameCalm(s1, InEnd(s, st), id);
      if id in s.svc.v {
        CalmTrans(s, s1, InEnd(s, st), id);
        CalmServes(s, InEnd(s, st), id);
      } else {
        UnservedServes(s, InEnd(s, st), id, false);
      }
    }
  }

  lemma {:induction false} OutServes(s: State, k: CallId, m: PeerMsg, eof: bool, id: CallId)
    requires Inv(s) && Alone(s, id)
    ensures Serves(s, OutEvent(s, k, m), id, false) && Serves(s, OutEnd(s, k, eof), id, false)
  {
    ServedLocal(s, id);
    ServedLocal(s, k);
    hide Inv;
    OutCalm(s, k, m, eof, id);
    hide OutEvent, OutEnd, Calm, Serves, Alone;
    if id in s.svc.v {
      CalmServes(s, OutEvent(s, k, m), id);
      CalmServes(s, OutEnd(s, k, eof), id);
    } else {
      UnservedServes(s, OutEvent(s, k, m), id, false);
      UnservedServes(s, OutEnd(s, k, eof), id, false);
    }
  }

  lemma {:induction false} OutCalm(s: State, k: CallId, m: PeerMsg, eof: bool, id: CallId)
    ensures OutEvent(s, k, m).svc == s.svc && OutEnd(s, k, eof).svc == s.svc
    ensures (k in s.readers.v && k == id) || Calm(s, OutEvent(s, k, m), id)
    ensures (k in s.readers.v && k == id) || Calm(s, OutEnd(s, k, eof), id)
  {}

  lemma {:induction false} ServiceStep(s: State, e: Event, id: CallId)
    requires Inv(s) && Possible(s, e) && Lines(s) && Alone(s, id)
    ensures Serves(s, Step(s, e), id, Strays(s, e, id))
  {
    if From(e).Some? {
      ClientServes(s, e, id);
    } else {
      InnerServes(s, e, id);
    }
  }

  lemma {:induction false} ClientServes(s: State, e: Event, id: CallId)
    requires Inv(s) && Possible(s, e) && Lines(s) && Alone(s, id) && From(e).Some?
    ensures Serves(s, Step(s, e), id, Strays(s, e, id))
  {
    DisconnectStrays(s, e, id);
    hide Inv, Lines, Alone, Serves, Strays;
    hide Register, Disconnect, Call, ServiceCall, PlaceCross, Answer, Hangup, Decline, LocalIce;
    match e
    case ERegister(c, n) => RegisterServes(s, c, n, id);
    case EDisconnect(c, vm) => DisconnectServes(s, c, vm, id);
    case ECall(c, n, k, k2, line, vm) => CallServes(s, c, n, k, k2, line, vm, id);
    case EServiceCall(c, k, accepts) => PlaceServes(s, c, k, 0, accepts, id);
    case EPlaceCross(c, k, n, reachable) => PlaceServes(s, c, k, n, reachable, id);
    case EAnswer(c, k, pick) => PlainServes(s, e, id);
    case EHangup(c, vm) => HangupServes(s, c, vm, id);
    case EDecline(c, asked, vm) => DeclineServes(s, c, asked, vm, id);
    case ELocalIce(c, k, cand) => PlainServes(s, e, id);
  }

  lemma {:induction false} DisconnectStrays(s: State, e: Event, id: CallId)
    ensures e.EDisconnect? ==> Strays(s, e, id) == Deserted(s, e, id)
    ensures e.EAnswer? || e.EHangup? || e.EDecline? || e.ELocalIce? || (From(e).None? && !e.EInInvite?) ==>
      !Strays(s, e, id)
  {}

  lemma {:induction false} InnerServes(s: State, e: Event, id: CallId)
    requires Inv(s) && Possible(s, e) && Lines(s) && Alone(s, id) && From(e).None?
    ensures Serves(s, Step(s, e), id, Strays(s, e, id))
  {
    DisconnectStrays(s, e, id);
    hide Inv, Lines, Alone, Serves, Strays;
    hide RingTimeout, Expire, InboundTimeout, InboundSelfEnd, LocalSelfEnd, StreamOpen, InInvite, InIce, InBye, InEnd,
         OutEvent, OutEnd;
    match e
    case ERingTimeout(k, vm) => TimeoutServes(s, k, vm, id);
    case EExpire(n, vm) => ExpireServes(s, n, vm, id);
    case EInboundTimeout(k, vm) => InboundTimeoutServes(s, k, vm, id);
    case EInboundSelfEnd(k) => PlainServes(s, e, id);
    case ELocalSelfEnd(c, k) => SelfEndServes(s, c, k, id);
    case EStreamOpen(st) => PlainServes(s, e, id);
    case EInInvite(st, k, n, host, line, vm) => InviteServes(s, st, k, n, host, line, vm, id);
    case EInIce(k, cand) => PlainServes(s, e, id);
    case EInBye(k, why) => ByeServes(s, k, why, 0, id);
    case EInEnd(st) => ByeServes(s, 0, HungUp, st, id);
    case EOutEvent(k, m) => OutServes(s, k, m, true, id);
    case EOutEnd(k, eof) => OutServes(s, k, Alerting, eof, id);
  }
}
