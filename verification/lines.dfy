/**
  One call per line: the tables and the sockets agree on who is in which call, and a socket that disconnects is
  forgotten.

  They need not agree: an end that is in one call already and places or is offered another has its callID
  overwritten, and the tables may go on naming it for the first call. A step keeps the agreement exactly when no table
  names a socket whose callID it overwrites; placing calls between idle ends only is one way to see to that. The
  proofs follow one call id at a time. A step either brings nothing new for that id (Steady), or leaves no table
  naming anybody for it (Bare).
 */
module OneCallPerLine {
  import opened Options
  import opened Exchange
  import opened CallInvariants

  predicate In(callOf: map<Sock, CallId>, c: Sock, id: CallId) {
    c in callOf && callOf[c] == id
  }

  /** Whoever the tables connect with call id is in call id. */
  ghost predicate LineOk(s: State, id: CallId) {
    && (id in s.rings.v ==> In(s.callOf.v, s.rings.v[id].caller, id) && In(s.callOf.v, s.rings.v[id].callee, id))
    && (forall n | n in s.pending.v && s.pending.v[n].Waiting? && s.pending.v[n].id == id ::
          In(s.callOf.v, s.pending.v[n].caller, id))
    && (id in s.outLegs.v && id in s.readers.v ==> In(s.callOf.v, s.readers.v[id], id))
    && (id in s.inLegs.v && s.inLegs.v[id].service.NoService? && s.inLegs.v[id].callee.Some? ==>
          In(s.callOf.v, s.inLegs.v[id].callee.value, id))
  }

  /** The tables have socket x in call id: it rings or is rung, waits, has an out-leg, or is the callee of an in-leg. */
  ghost predicate Names(s: State, id: CallId, x: Sock) {
    || (id in s.rings.v && (x == s.rings.v[id].caller || x == s.rings.v[id].callee))
    || (exists n :: n in s.pending.v && s.pending.v[n] == Waiting(id, x))
    || (id in s.outLegs.v && id in s.readers.v && x == s.readers.v[id])
    || (id in s.inLegs.v && s.inLegs.v[id].service.NoService? && s.inLegs.v[id].callee == Some(x))
  }

  /** The queued call reaches the socket that registers. */
  predicate Delivered(s: State, c: Sock, n: Number) {
    && n in s.pending.v
    && match s.pending.v[n]
       case Remote(id) => id in s.inLegs.v
       case Waiting(_, caller) => Online(s.(clients := Cell(s.clients.v[n := c]),
                                            userOf := Cell(s.userOf.v[c := n])), caller)
  }

  /** The step sets the callID of socket x to a call that is new to it. */
  predicate Overwrites(s: State, e: Event, x: Sock) {
    match e
    case ERegister(c, n) => x == c && Delivered(s, c, n)
    case ECall(c, n, _, _, line, vm) =>
      && c in s.userOf.v
      && if n in s.clients.v then x == c || x == s.clients.v[n]
         else x == c && (line.Push? || (line.NoPush? && Routed(s, c, vm)))
    case EServiceCall(c, _, accepts) => c in s.userOf.v && accepts && x == c
    case EPlaceCross(c, _, _, reachable) => c in s.userOf.v && reachable && x == c
    case EInInvite(_, _, n, host, _, _) => host.NotHosted? && n in s.clients.v && x == s.clients.v[n]
    case _ => false
  }

  /** What the tables hold of now once the step is done: a queue entry may be replaced, or taken out. */
  function Lasting(s: State, e: Event): State {
    match e
    case ERegister(_, n) => s.(pending := Cell(s.pending.v - {n}))
    case ECall(_, n, _, _, line, _) =>
      if n !in s.clients.v && line.Push? then s.(pending := Cell(s.pending.v - {n})) else s
    case _ => s
  }

  /** No table goes on naming, for its old call, a socket whose callID is overwritten. */
  ghost predicate Undisturbed(s: State, e: Event) {
    forall x | Overwrites(s, e, x) && x in s.callOf.v :: !Names(Lasting(s, e), s.callOf.v[x], x)
  }

  /** Calls are placed from, to and towards idle ends only. */
  predicate Courteous(s: State, e: Event) {
    match e
    case ERegister(c, n) => n in s.pending.v ==> c !in s.callOf.v
    case ECall(c, n, _, _, _, _) => c !in s.callOf.v && (n in s.clients.v ==> s.clients.v[n] !in s.callOf.v)
    case EServiceCall(c, _, _) => c !in s.callOf.v
    case EPlaceCross(c, _, _, _) => c !in s.callOf.v
    case EInInvite(_, _, n, _, _, _) => n in s.clients.v ==> s.clients.v[n] !in s.callOf.v
    case _ => true
  }

  /** Then no callID is overwritten at all. */
  lemma {:induction false} CourteousIsUndisturbed(s: State, e: Event)
    requires Courteous(s, e)
    ensures Undisturbed(s, e)
  {}

  /** Nothing new about call id in the tables, and whoever was in it still is. */
  ghost predicate Steady(s: State, s': State, id: CallId) {
    && (forall c | In(s.callOf.v, c, id) :: In(s'.callOf.v, c, id))
    && (id in s'.rings.v ==> id in s.rings.v && s'.rings.v[id] == s.rings.v[id])
    && (forall n | n in s'.pending.v && s'.pending.v[n].Waiting? && s'.pending.v[n].id == id ::
          n in s.pending.v && s.pending.v[n] == s'.pending.v[n])
    && (id in s'.outLegs.v && id in s'.readers.v ==>
       id in s.outLegs.v && id in s.readers.v && s'.readers.v[id] == s.readers.v[id])
    && (id in s'.inLegs.v && s'.inLegs.v[id].service.NoService? && s'.inLegs.v[id].callee.Some? ==>
          id in s.inLegs.v && s.inLegs.v[id].service.NoService? && s.inLegs.v[id].callee == s'.inLegs.v[id].callee)
  }

  /** The tables connect nobody with call id. */
  ghost predicate Bare(s: State, id: CallId) {
    && id !in s.rings.v && id !in s.outLegs.v
    && (forall n | n in s.pending.v && s.pending.v[n].Waiting? :: s.pending.v[n].id != id)
    && (id in s.inLegs.v ==> !s.inLegs.v[id].service.NoService? || s.inLegs.v[id].callee.None?)
  }

  lemma {:induction false} SteadyKeeps(s: State, s': State, id: CallId)
    requires LineOk(s, id) && Steady(s, s', id)
    ensures LineOk(s', id)
  {}

  lemma {:induction false} BareIsOk(s: State, id: CallId)
    requires Bare(s, id)
    ensures LineOk(s, id)
  {}

  // ---- Steps of one call leave the others alone ----

  lemma {:induction false} RouteLocalSteady(s: State, r: Ring, k: CallId, vm: Voicemail, why: Reason, id: CallId)
    requires k != id && !In(s.callOf.v, r.caller, id)
    ensures Steady(s, RouteLocalOr(s, r, k, vm, why), id)
  {}

  lemma {:induction false} RouteInboundSteady(s: State, leg: Leg, k: CallId, vm: Voicemail, m: PeerMsg, id: CallId)
    requires k != id
    ensures Steady(s, RouteInboundOr(s, leg, k, vm, m), id)
  {}

  lemma {:induction false} SteadyTrans(s: State, s1: State, s2: State, id: CallId)
    requires Steady(s, s1, id) && Steady(s1, s2, id)
    ensures Steady(s, s2, id)
  {}

  lemma {:induction false} EndSteady(s: State, c: Sock, k: CallId, why: Reason, id: CallId)
    requires k != id
    ensures Steady(s, End(s, c, k, why), id)
    ensures Steady(s, EndOthers(s, c, k, why), id)
    ensures Steady(s, LeaveService(s, c, k), id)
  {}

  lemma {:induction false} CloseLegSteady(s: State, c: Sock, k: CallId, why: Reason, id: CallId)
    requires k != id
    ensures Steady(s, CloseLeg(s, c, k, why), id)
  {}

  lemma {:induction false} HangupInSteady(s: State, c: Sock, k: CallId, vm: Voicemail, id: CallId)
    requires k != id && (k in s.rings.v ==> !In(s.callOf.v, s.rings.v[k].caller, id))
    ensures Steady(s, HangupIn(s, c, k, vm), id)
  {
    hide Steady, RouteLocalOr, RouteInboundOr, End, EndOthers, CloseLeg;
    if k in s.rings.v {
      var s1 := s.(rings := Cell(s.rings.v - {k}));
      TakeSteady(s, k, id);
      RouteLocalSteady(s1, s.rings.v[k], k, vm, Declined, id);
      EndSteady(s1, s.rings.v[k].callee, k, HungUp, id);
      SteadyTrans(s, s1, HangupIn(s, c, k, vm), id);
    } else if Declinable(s, c, k) {
      var s1 := s.(callOf := Cell(Freed(s.callOf.v, c, k)));
      FreedSteady(s, c, k, id);
      RouteInboundSteady(s1, Quiet(s.inLegs.v[k]), k, vm, Bye(Declined), id);
      SteadyTrans(s, s1, HangupIn(s, c, k, vm), id);
    } else {
      CloseLegSteady(s, c, k, HungUp, id);
      EndSteady(s, c, k, HungUp, id);
      LooseEnds(s, k, id);
    }
  }

  lemma {:induction false} TakeSteady(s: State, k: CallId, id: CallId)
    ensures Steady(s, s.(rings := Cell(s.rings.v - {k})), id)
  {}

  lemma {:induction false} FreedSteady(s: State, c: Sock, k: CallId, id: CallId)
    requires k != id
    ensures Steady(s, s.(callOf := Cell(Freed(s.callOf.v, c, k))), id)
  {}

  lemma {:induction false} LooseEnds(s: State, k: CallId, id: CallId)
    ensures Steady(s, s.(pending := Cell(Unqueued(s.pending.v, k))), id)
    ensures Steady(s, EndService(s, k), id)
  {}

  lemma {:induction false} LeaveCallSteady(s: State, c: Sock, k: CallId, vm: Voicemail, id: CallId)
    requires k != id && (k in s.rings.v ==> !In(s.callOf.v, s.rings.v[k].caller, id))
    ensures Steady(s, LeaveCall(s, c, k, vm), id)
  {
    hide Steady, LeaveRing, LeaveService, EndOthers, CloseLeg, Unqueued;
    var s1 := CloseLeg(s, c, k, Disconnected);
    CloseLegSteady(s, c, k, Disconnected, id);
    CloseLegFrame(s, c, k, Disconnected);
    var s2 := s1.(pending := Cell(Unqueued(s1.pending.v, k)));
    LooseEnds(s1, k, id);
    SteadyTrans(s, s1, s2, id);
    LeaveRingSteady(s2, c, k, vm, id);
    var s3 := LeaveRing(s2, c, k, vm);
    SteadyTrans(s, s2, s3, id);
    EndSteady(s3, c, k, Disconnected, id);
    var s4 := LeaveService(s3, c, k);
    SteadyTrans(s, s3, s4, id);
    EndSteady(s4, c, k, Disconnected, id);
    SteadyTrans(s, s4, LeaveCall(s, c, k, vm), id);
  }

  lemma {:induction false} CloseLegFrame(s: State, c: Sock, k: CallId, why: Reason)
    ensures var s' := CloseLeg(s, c, k, why); s'.rings == s.rings && s'.callOf == s.callOf && s'.pending == s.pending
  {}

  lemma {:induction false} LeaveRingSteady(s: State, c: Sock, k: CallId, vm: Voicemail, id: CallId)
    requires k != id && (k in s.rings.v ==> !In(s.callOf.v, s.rings.v[k].caller, id))
    ensures Steady(s, LeaveRing(s, c, k, vm), id)
  {
    hide Steady, RouteLocalOr, End, Online;
    if k in s.rings.v {
      var s1 := s.(rings := Cell(s.rings.v - {k}));
      TakeSteady(s, k, id);
      RouteLocalSteady(s1, s.rings.v[k], k, vm, Disconnected, id);
      EndSteady(s1, s.rings.v[k].callee, k, Disconnected, id);
      SteadyTrans(s, s1, LeaveRing(s, c, k, vm), id);
    }
    SteadySelf(s, id);
  }

  lemma {:induction false} SteadySelf(s: State, id: CallId)
    ensures Steady(s, s, id)
  {}

  // ---- Each handler keeps LineOk ----

  ghost predicate Lines(s: State) {
    forall id :: LineOk(s, id)
  }

  /** A call id is in one place only. */
  lemma {:induction false} OnePlace(s: State, k: CallId)
    requires Inv(s)
    ensures k in s.rings.v ==>
      k !in s.outLegs.v && k !in s.inLegs.v
      && forall n | n in s.pending.v && s.pending.v[n].Waiting? :: s.pending.v[n].id != k
    ensures k in s.outLegs.v ==>
      k !in s.inLegs.v && forall n | n in s.pending.v && s.pending.v[n].Waiting? :: s.pending.v[n].id != k
    ensures k in s.inLegs.v ==> forall n | n in s.pending.v && s.pending.v[n].Waiting? :: s.pending.v[n].id != k
    ensures forall n | n in s.pending.v && s.pending.v[n].Waiting? && s.pending.v[n].id == k :: k !in s.inLegs.v
    ensures k in s.svc.v ==> Bare(s, k)
    ensures k in s.attempts.v && k in s.kind.v && s.kind.v[k].Local? ==> Bare(s, k)
    ensures k in s.readers.v ==> Bare(s.(outLegs := Cell(s.outLegs.v - {k})), k)
    ensures k !in s.kind.v ==> Bare(s, k) && k !in s.inLegs.v
    ensures k in s.kind.v && s.kind.v[k].Local? ==> k !in s.outLegs.v && k !in s.inLegs.v
    ensures k in s.recorders.v && k in s.inLegs.v ==> !s.inLegs.v[k].service.NoService?
    ensures k in s.recorders.v ==> k !in s.outLegs.v
  {}

  /** Before c leaves call k: whoever else the in-leg of k could have. */
  predicate Own(s: State, c: Sock, k: CallId) {
    k in s.inLegs.v && s.inLegs.v[k].service.NoService? ==> s.inLegs.v[k].callee == Some(c)
  }

  lemma {:induction false} HangupInBares(s: State, c: Sock, k: CallId, vm: Voicemail)
    requires Inv(s) && Own(s, c, k)
    ensures Bare(HangupIn(s, c, k, vm), k)
  {
    hide Inv, Bare, Own, End, EndOthers, EndService, CloseLeg, RouteLocalOr, RouteInboundOr, Freed, Unqueued;
    var s' := HangupIn(s, c, k, vm);
    if k in s.rings.v {
      var s1 := s.(rings := Cell(s.rings.v - {k}));
      TakenBare(s, s1, k);
      RouteFrame(s1, s.rings.v[k], k, vm, Declined);
      EndFrame(s1, s.rings.v[k].callee, k, HungUp);
      BareFrame(s1, s', k);
    } else if Declinable(s, c, k) {
      OnePlace(s, k);
      RouteInboundBares(s.(callOf := Cell(Freed(s.callOf.v, c, k))), Quiet(s.inLegs.v[k]), k, vm, Bye(Declined));
    } else if OnLeg(s, c, k) {
      ClosedBares(s, c, k, HungUp);
    } else {
      EndFrame(s, c, k, HungUp);
      OtherBares(s, c, k);
      BareFrameIf(s, s', k);
    }
  }

  lemma {:induction false} BareFrameIf(s: State, s': State, k: CallId)
    ensures Bare(s, k) && SameTables(s, s') ==> Bare(s', k)
  {}

  lemma {:induction false} ClosedBares(s: State, c: Sock, k: CallId, why: Reason)
    requires Inv(s) && k !in s.rings.v && OnLeg(s, c, k)
    ensures Bare(CloseLeg(s, c, k, why), k)
  {
    OnePlace(s, k);
    hide Inv;
  }

  /** Neither ringing nor on the bridge: queued, with a service, or only its sockets know of it. */
  lemma {:induction false} OtherBares(s: State, c: Sock, k: CallId)
    requires Inv(s) && Own(s, c, k) && k !in s.rings.v && !OnLeg(s, c, k)
    ensures Bare(s.(pending := Cell(Unqueued(s.pending.v, k))), k)
    ensures !Queued(s.pending.v, k) ==> Bare(s, k) && (k in s.svc.v ==> Bare(EndService(s, k), k))
  {
    OnePlace(s, k);
    hide Inv;
  }

  /** Which tables a handler leaves alone. */
  predicate SameTables(s: State, s': State) {
    s'.rings == s.rings && s'.pending == s.pending && s'.outLegs == s.outLegs && s'.inLegs == s.inLegs
      && s'.readers == s.readers
  }

  lemma {:induction false} EndFrame(s: State, c: Sock, k: CallId, why: Reason)
    ensures SameTables(s, End(s, c, k, why))
    ensures SameTables(s, EndOthers(s, c, k, why))
    ensures SameTables(s, LeaveService(s, c, k))
  {}

  lemma {:induction false} RouteFrame(s: State, r: Ring, k: CallId, vm: Voicemail, why: Reason)
    ensures SameTables(s, RouteLocalOr(s, r, k, vm, why))
  {}

  lemma {:induction false} RouteInboundBares(s: State, leg: Leg, k: CallId, vm: Voicemail, m: PeerMsg)
    requires k !in s.rings.v && k !in s.outLegs.v
    requires forall n | n in s.pending.v && s.pending.v[n].Waiting? :: s.pending.v[n].id != k
    ensures Bare(RouteInboundOr(s, leg, k, vm, m), k)
  {}

  lemma {:induction false} LeaveCallBares(s: State, c: Sock, k: CallId, vm: Voicemail)
    requires Inv(s) && Own(s, c, k)
    ensures Bare(LeaveCall(s, c, k, vm), k)
  {
    OnePlace(s, k);
    hide Inv, LeaveRing, LeaveService, EndOthers;
    var s1 := CloseLeg(s, c, k, Disconnected);
    var s2 := s1.(pending := Cell(Unqueued(s1.pending.v, k)));
    LeaveRingFrame(s2, c, k, vm);
    var s3 := LeaveRing(s2, c, k, vm);
    EndFrame(s3, c, k, Disconnected);
    EndFrame(LeaveService(s3, c, k), c, k, Disconnected);
  }

  lemma {:induction false} LeaveRingFrame(s: State, c: Sock, k: CallId, vm: Voicemail)
    ensures SameTables(s.(rings := Cell(s.rings.v - {k})), LeaveRing(s, c, k, vm))
  {
    hide RouteLocalOr, End, Online;
    if k in s.rings.v {
      var s1 := s.(rings := Cell(s.rings.v - {k}));
      RouteFrame(s1, s.rings.v[k], k, vm, Disconnected);
      EndFrame(s1, s.rings.v[k].callee, k, Disconnected);
    } else {
      assert s.rings.v - {k} == s.rings.v;
    }
  }

  lemma {:induction false} HangupLines(s: State, c: Sock, vm: Voicemail, id: CallId)
    requires Inv(s) && Lines(s)
    ensures LineOk(Hangup(s, c, vm), id)
  {
    hide Inv, LineOk, Bare, Steady, HangupIn;
    assert LineOk(s, id);
    if c in s.userOf.v && c in s.callOf.v {
      var k := s.callOf.v[c];
      var s1 := s.(callOf := Cell(s.callOf.v - {c}));
      FreeingKeeps(s, s1.callOf.v);
      if id == k {
        Mine(s, c);
        HangupInBares(s1, c, k, vm);
        BareIsOk(HangupIn(s1, c, k, vm), k);
      } else {
        LeavingSteady(s, c, id);
        RingersIn(s, k, id);
        HangupInSteady(s1, c, k, vm, id);
        SteadyTrans(s, s1, HangupIn(s1, c, k, vm), id);
        SteadyKeeps(s, HangupIn(s1, c, k, vm), id);
      }
    }
  }

  lemma {:induction false} Mine(s: State, c: Sock)
    requires Inv(s) && c in s.callOf.v
    ensures Own(s, c, s.callOf.v[c])
  {}

  lemma {:induction false} LeavingSteady(s: State, c: Sock, id: CallId)
    requires c in s.callOf.v && s.callOf.v[c] != id
    ensures Steady(s, s.(callOf := Cell(s.callOf.v - {c})), id)
  {}

  /** The caller of a ring is in no other call. */
  lemma {:induction false} RingersIn(s: State, k: CallId, id: CallId)
    requires Lines(s) && k != id
    ensures k in s.rings.v ==> !In(s.callOf.v, s.rings.v[k].caller, id)
  {
    assert LineOk(s, k);
  }

  lemma {:induction false} DisconnectLines(s: State, c: Sock, vm: Voicemail, id: CallId)
    requires Inv(s) && Lines(s)
    ensures LineOk(Disconnect(s, c, vm), id)
  {
    hide Inv, LineOk, Bare, Steady, LeaveCall;
    assert LineOk(s, id);
    if c in s.userOf.v && c in s.callOf.v {
      var k := s.callOf.v[c];
      var s1 := s.(callOf := Cell(s.callOf.v - {c}));
      var s2 := LeaveCall(s1, c, k, vm);
      FreeingKeeps(s, s1.callOf.v);
      if id == k {
        Mine(s, c);
        LeaveCallBares(s1, c, k, vm);
        BareIsOk(s2, k);
      } else {
        LeavingSteady(s, c, id);
        RingersIn(s, k, id);
        LeaveCallSteady(s1, c, k, vm, id);
        SteadyTrans(s, s1, s2, id);
        SteadyKeeps(s, s2, id);
      }
      UnlistSteady(s2, c, s.userOf.v[c], id);
      SteadyKeeps(s2, Disconnect(s, c, vm), id);
    } else {
      UnlistSteady(s, c, if c in s.userOf.v then s.userOf.v[c] else 0, id);
      SteadyKeeps(s, Disconnect(s, c, vm), id);
    }
  }

  lemma {:induction false} UnlistSteady(s: State, c: Sock, n: Number, id: CallId)
    ensures Steady(s, Unlist(s, c, n), id)
    ensures Steady(s, s.(gone := Cell(s.gone.v + {c})), id)
  {}

  lemma {:induction false} DeclineLines(s: State, c: Sock, asked: Option<CallId>, vm: Voicemail, id: CallId)
    requires Inv(s) && Lines(s)
    ensures LineOk(Decline(s, c, asked, vm), id)
  {
    hide Inv, LineOk, Bare, Steady, Hangup, RouteLocalOr;
    assert LineOk(s, id);
    if c in s.userOf.v && (asked.Some? || c in s.callOf.v) {
      var k := if asked.Some? then asked.value else s.callOf.v[c];
      var s1 := s.(rings := Cell(s.rings.v - {k}));
      TakingKeeps(s, k);
      forall x ensures LineOk(s1, x) {
        assert LineOk(s, x);
        TakeSteady(s, k, x);
        SteadyKeeps(s, s1, x);
      }
      if k in s.rings.v && s.rings.v[k].callee == c {
        TakenLines(s, s1, s1.(callOf := Cell(Freed(s.callOf.v, c, k))), c, k, vm, Declined, id);
      } else {
        HangupLines(s1, c, vm, id);
      }
    }
  }

  /** A ring is taken, its callee let go, and its caller recorded or told. */
  lemma {:induction false} TakenLines(s: State, s1: State, s2: State, c: Sock, k: CallId, vm: Voicemail, why: Reason,
                                      id: CallId)
    requires Inv(s) && Lines(s) && k in s.rings.v && s1 == s.(rings := Cell(s.rings.v - {k}))
    requires s2 == s1.(callOf := Cell(Freed(s.callOf.v, c, k)), told := s2.told)
    ensures LineOk(s2, id)
    ensures LineOk(RouteLocalOr(s2, s.rings.v[k], k, vm, why), id)
  {
    hide Inv, LineOk, Bare, Steady, RouteLocalOr;
    var s3 := RouteLocalOr(s2, s.rings.v[k], k, vm, why);
    assert LineOk(s, id);
    if id == k {
      TakenBare(s, s2, k);
      RouteFrame(s2, s.rings.v[k], k, vm, why);
      BareFrame(s2, s3, k);
      BareIsOk(s3, k);
      BareIsOk(s2, k);
    } else {
      RingersIn(s, k, id);
      TakenSteady(s, s2, c, k, id);
      SteadyKeeps(s, s2, id);
      RouteLocalSteady(s2, s.rings.v[k], k, vm, why, id);
      SteadyKeeps(s2, s3, id);
    }
  }

  lemma {:induction false} TakenBare(s: State, s': State, k: CallId)
    requires Inv(s) && k in s.rings.v && s' == s.(rings := Cell(s.rings.v - {k}), callOf := s'.callOf, told := s'.told)
    ensures Bare(s', k)
  {
    OnePlace(s, k);
    hide Inv;
  }

  lemma {:induction false} BareFrame(s: State, s': State, k: CallId)
    requires Bare(s, k) && SameTables(s, s')
    ensures Bare(s', k)
  {}

  lemma {:induction false} TakenSteady(s: State, s': State, c: Sock, k: CallId, id: CallId)
    requires k != id
      && s' == s.(rings := Cell(s.rings.v - {k}), callOf := Cell(Freed(s.callOf.v, c, k)), told := s'.told)
    ensures Steady(s, s', id)
  {}

  lemma {:induction false} RingTimeoutLines(s: State, k: CallId, vm: Voicemail, id: CallId)
    requires Inv(s) && Lines(s)
    ensures LineOk(RingTimeout(s, k, vm), id)
  {
    hide Inv, LineOk, RouteLocalOr, Online;
    assert LineOk(s, id);
    if k in s.rings.v {
      var s1 := s.(rings := Cell(s.rings.v - {k}));
      TakenLines(s, s1, End(s1, s.rings.v[k].callee, k, NoAnswer), s.rings.v[k].callee, k, vm, NoAnswer, id);
    }
  }

  // ---- Handlers that overwrite a callID ----

  lemma {:induction false} NamedIn(s: State, id: CallId, x: Sock)
    requires LineOk(s, id) && Names(s, id, x)
    ensures In(s.callOf.v, x, id)
  {}

  /** Taking out of their calls sockets that nothing names. */
  lemma {:induction false} IdleLines(s: State, xs: set<Sock>, id: CallId)
    requires LineOk(s, id) && forall x | x in xs :: !Names(s, id, x)
    ensures LineOk(s.(callOf := Cell(s.callOf.v - xs)), id)
  {}

  /** The state as if the overwritten sockets were idle, and lapsed queue entries gone: as good for the rest. */
  lemma {:induction false} SpareLines(s: State, e: Event, xs: set<Sock>, id: CallId)
    requires LineOk(s, id) && Undisturbed(s, e) && forall x | x in xs :: Overwrites(s, e, x)
    ensures LineOk(Spare(s, e, xs), id)
  {
    hide Overwrites, LineOk, Names;
    var l := Lasting(s, e);
    LastingLines(s, e, id);
    forall x | x in xs ensures !Names(l, id, x) {
      if Names(l, id, x) {
        NamedIn(l, id, x);
      }
    }
    IdleLines(l, xs, id);
  }

  function Spare(s: State, e: Event, xs: set<Sock>): State {
    var l := Lasting(s, e);
    l.(callOf := Cell(l.callOf.v - xs))
  }

  lemma {:induction false} LastingLines(s: State, e: Event, id: CallId)
    requires LineOk(s, id)
    ensures LineOk(Lasting(s, e), id) && Lasting(s, e).callOf == s.callOf
  {}

  lemma {:induction false} SpareBare(s: State, e: Event, xs: set<Sock>, k: CallId)
    requires Bare(s, k)
    ensures Bare(Spare(s, e, xs), k) && Spare(s, e, xs).inLegs == s.inLegs && Spare(s, e, xs).readers == s.readers
    ensures Spare(s, e, xs).clients == s.clients && forall x | x in xs :: x !in Spare(s, e, xs).callOf.v
  {}

  lemma {:induction false} RegisterLines(s: State, c: Sock, n: Number, id: CallId)
    requires Inv(s) && Lines(s) && Undisturbed(s, ERegister(c, n))
    ensures LineOk(Register(s, c, n), id)
  {
    hide Inv, Deliver, Delivered, LineOk, Undisturbed;
    assert LineOk(s, id);
    var s1 := s.(clients := Cell(s.clients.v[n := c]), userOf := Cell(s.userOf.v[c := n]),
                 pending := Cell(s.pending.v - {n}),
                 told := Cell(s.told.v + multiset{(c, ClientMsg.Registered)}));
    if n in s.pending.v {
      QueuedFacts(s, n);
      QueuedPlace(s, n);
      assert LineOk(s, s.pending.v[n].id);
      if !Delivered(s, c, n) {
        UndeliveredLines(s, c, n, id);
      } else if s.pending.v[n] == Waiting(s.pending.v[n].id, c) {
        OwnCallLines(s, c, n, id);
      } else {
        DeliveredLines(s, c, n, id);
      }
    } else {
      ListedLines(s, c, n, id);
    }
  }

  lemma {:induction false} ListedLines(s: State, c: Sock, n: Number, id: CallId)
    requires LineOk(s, id) && n !in s.pending.v
    ensures LineOk(Register(s, c, n), id)
  {}

  lemma {:induction false} UndeliveredLines(s: State, c: Sock, n: Number, id: CallId)
    requires LineOk(s, id) && n in s.pending.v && !Delivered(s, c, n)
    ensures LineOk(Register(s, c, n), id)
  {}

  /** A line that calls itself while it is offline, and comes back on the same socket. */
  lemma {:induction false} OwnCallLines(s: State, c: Sock, n: Number, id: CallId)
    requires LineOk(s, id) && n in s.pending.v && s.pending.v[n] == Waiting(s.pending.v[n].id, c)
    requires LineOk(s, s.pending.v[n].id)
    ensures LineOk(Register(s, c, n), id)
  {
    assert In(s.callOf.v, c, s.pending.v[n].id);
  }

  lemma {:induction false} DeliveredLines(s: State, c: Sock, n: Number, id: CallId)
    requires Inv(s) && Lines(s) && Undisturbed(s, ERegister(c, n)) && Delivered(s, c, n)
    requires s.pending.v[n] != Waiting(s.pending.v[n].id, c)
    ensures LineOk(Register(s, c, n), id)
  {
    var k := s.pending.v[n].id;
    QueuedFacts(s, n);
    QueuedPlace(s, n);
    assert LineOk(s, id) && LineOk(s, k);
    hide Inv, Deliver, Delivered, LineOk, Lines;
    SpareLines(s, ERegister(c, n), {c}, id);
    SpareLines(s, ERegister(c, n), {c}, k);
    var p := s.pending.v[n];
    var s0 := Spare(s, ERegister(c, n), {c}).(pending := s.pending);
    var s1 := s0.(clients := Cell(s.clients.v[n := c]), userOf := Cell(s.userOf.v[c := n]),
                  pending := Cell(s.pending.v - {n}),
                  told := Cell(s.told.v + multiset{(c, ClientMsg.Registered)}));
    RequeuedLines(s, c, n, id);
    RequeuedLines(s, c, n, k);
    DeliverLines(s0, s1, n, c, id);
    SameDelivery(s1.(callOf := s.callOf), p, c);
  }

  lemma {:induction false} RequeuedLines(s: State, c: Sock, n: Number, id: CallId)
    requires LineOk(s, id) && LineOk(Spare(s, ERegister(c, n), {c}), id) && n in s.pending.v
    requires s.pending.v[n] != Waiting(s.pending.v[n].id, c)
    ensures LineOk(Spare(s, ERegister(c, n), {c}).(pending := s.pending), id)
  {
    var s0 := Spare(s, ERegister(c, n), {c});
    forall m | m in s.pending.v && s.pending.v[m].Waiting? && s.pending.v[m].id == id
      ensures In(s0.callOf.v, s.pending.v[m].caller, id)
    {
      if m != n {
        assert m in s0.pending.v && s0.pending.v[m] == s.pending.v[m];
      }
    }
  }

  lemma {:induction false} SameDelivery(s1: State, p: Pending, c: Sock)
    requires match p case Remote(id) => id in s1.inLegs.v case Waiting(_, caller) => Online(s1, caller)
    ensures Deliver(s1, p, c) == Deliver(s1.(callOf := Cell(s1.callOf.v - {c})), p, c)
  {
    var rest := s1.callOf.v - {c};
    match p
    case Remote(id) => assert s1.callOf.v[c := id] == rest[c := id];
    case Waiting(id, caller) => assert s1.callOf.v[caller := id][c := id] == rest[caller := id][c := id];
  }

  lemma {:induction false} QueuedPlace(s: State, n: Number)
    requires Inv(s) && n in s.pending.v
    ensures s.pending.v[n].Waiting? ==> s.pending.v[n].id !in s.outLegs.v && s.pending.v[n].id !in s.inLegs.v
    ensures s.pending.v[n].id !in s.outLegs.v
  {}

  lemma {:induction false} DeliverLines(s: State, s1: State, n: Number, c: Sock, id: CallId)
    requires n in s.pending.v && LineOk(s, id) && LineOk(s, s.pending.v[n].id) && c !in s.callOf.v
    requires s1 == s.(clients := s1.clients, userOf := s1.userOf, pending := Cell(s.pending.v - {n}), told := s1.told)
    requires forall m | m in s.pending.v && m != n :: s.pending.v[m].id != s.pending.v[n].id
    requires s.pending.v[n].id !in s.rings.v && s.pending.v[n].id !in s.outLegs.v
    requires s.pending.v[n].Waiting? ==> s.pending.v[n].id !in s.inLegs.v
    ensures LineOk(Deliver(s1, s.pending.v[n], c), id)
  {}

  /** A new call id is nowhere. */
  lemma {:induction false} FreshPlace(s: State, k: CallId)
    requires Inv(s) && k !in s.kind.v
    ensures Bare(s, k) && k !in s.inLegs.v && k !in s.readers.v
  {}

  lemma {:induction false} CallLines(s: State, c: Sock, n: Number, k: CallId, k2: CallId, line: Line, vm: Voicemail,
                                     id: CallId)
    requires Inv(s) && Lines(s) && k !in s.kind.v && k2 !in s.kind.v && k != k2
    requires (n in s.clients.v ==> s.clients.v[n] != c) && Undisturbed(s, ECall(c, n, k, k2, line, vm))
    ensures LineOk(Call(s, c, n, k, k2, line, vm), id)
  {
    var e := ECall(c, n, k, k2, line, vm);
    FreshPlace(s, k);
    FreshPlace(s, k2);
    hide Inv, RecordOrFail, LineOk, Bare, Undisturbed, Spare;
    assert LineOk(s, id);
    var xs := if n in s.clients.v then {c, s.clients.v[n]} else {c};
    SpareBare(s, e, xs, k);
    SpareBare(s, e, xs, k2);
    if c !in s.userOf.v || (n !in s.clients.v && line.Unknown?) {
      RefusedLines(s, c, n, k, k2, line, vm, id);
    } else if n !in s.clients.v && line.NoPush? && !Routed(s, c, vm) {
      NotRecordedLines(s, c, n, k, k2, vm, id);
    } else {
      SpareLines(s, e, xs, id);
      SameCall(s, c, n, k, k2, line, vm);
      hide Call;
      SpareCallLines(Spare(s, e, xs), c, n, k, k2, line, vm, id);
    }
  }

  lemma {:induction false} RefusedLines(s: State, c: Sock, n: Number, k: CallId, k2: CallId, line: Line, vm: Voicemail,
                                        id: CallId)
    requires LineOk(s, id) && (c !in s.userOf.v || (n !in s.clients.v && line.Unknown?))
    ensures LineOk(Call(s, c, n, k, k2, line, vm), id)
  {}

  lemma {:induction false} NotRecordedLines(s: State, c: Sock, n: Number, k: CallId, k2: CallId, vm: Voicemail,
                                            id: CallId)
    requires LineOk(s, id) && c in s.userOf.v && n !in s.clients.v && !Routed(s, c, vm)
    ensures LineOk(Call(s, c, n, k, k2, NoPush, vm), id)
  {}

  /** A call is placed from the spare state as from the state itself. */
  lemma {:induction false} SameCall(s: State, c: Sock, n: Number, k: CallId, k2: CallId, line: Line, vm: Voicemail)
    requires c in s.userOf.v && (n in s.clients.v || line.Push? || (line.NoPush? && Routed(s, c, vm)))
    ensures var xs := if n in s.clients.v then {c, s.clients.v[n]} else {c};
            Call(s, c, n, k, k2, line, vm) == Call(Spare(s, ECall(c, n, k, k2, line, vm), xs), c, n, k, k2, line, vm)
  {
    var rest := s.callOf.v - {c};
    if n in s.clients.v {
      var b := s.clients.v[n];
      assert s.callOf.v[c := k][b := k] == (s.callOf.v - {c, b})[c := k][b := k];
    } else {
      assert s.callOf.v[c := k] == rest[c := k] && rest - {c} == rest;
      var left := s.pending.v - {n};
      assert s.pending.v[n := Waiting(k, c)] == left[n := Waiting(k, c)] && left - {n} == left;
      if line.NoPush? {
        SameRecord(s.(kind := Cell(s.kind.v[k := Local(c, n)])), c, n, k, vm);
      }
    }
  }

  lemma {:induction false} SameRecord(s: State, c: Sock, n: Number, k: CallId, vm: Voicemail)
    requires Routed(s, c, vm)
    ensures RecordOrFail(s, c, n, k, vm) == RecordOrFail(s.(callOf := Cell(s.callOf.v - {c})), c, n, k, vm)
  {
    assert s.callOf.v[c := k] == (s.callOf.v - {c})[c := k];
  }

  lemma {:induction false} SpareCallLines(s: State, c: Sock, n: Number, k: CallId, k2: CallId, line: Line,
                                          vm: Voicemail,
                                          id: CallId)
    requires LineOk(s, id) && Bare(s, k) && Bare(s, k2) && k !in s.inLegs.v && k2 !in s.inLegs.v && c !in s.callOf.v
    requires n in s.clients.v ==> s.clients.v[n] != c && s.clients.v[n] !in s.callOf.v
    ensures LineOk(Call(s, c, n, k, k2, line, vm), id)
  {
    hide RecordOrFail, LineOk, Bare;
    if c in s.userOf.v && n in s.clients.v {
      CallOnlineLines(s, c, n, k, k2, line, vm, id);
      hide Call;
    } else if c in s.userOf.v && line.NoPush? {
      RecordLines(s, s.(kind := Cell(s.kind.v[k := Local(c, n)])), c, n, k, vm, id);
    } else if c in s.userOf.v && line == Push(false) {
      RecordLines(s, s.(kind := Cell(s.kind.v[k := Local(c, n)][k2 := Local(c, n)]), pending := Cell(s.pending.v - {n}),
                        callOf := Cell(s.callOf.v - {c})), c, n, k2, vm, id);
    } else {
      CallElseLines(s, c, n, k, k2, line, vm, id);
      hide Call;
    }
  }

  lemma {:induction false} CallElseLines(s: State, c: Sock, n: Number, k: CallId, k2: CallId, line: Line,
                                         vm: Voicemail, id: CallId)
    requires LineOk(s, id) && Bare(s, k) && k !in s.inLegs.v && c !in s.callOf.v
    requires c in s.userOf.v ==> n !in s.clients.v && (line.Unknown? || line == Push(true))
    ensures LineOk(Call(s, c, n, k, k2, line, vm), id)
  {
    hide RecordOrFail;
  }

  lemma {:induction false} CallOnlineLines(s: State, c: Sock, n: Number, k: CallId, k2: CallId, line: Line,
                                           vm: Voicemail, id: CallId)
    requires LineOk(s, id) && Bare(s, k) && k !in s.inLegs.v && c !in s.callOf.v && c in s.userOf.v
    requires n in s.clients.v && s.clients.v[n] != c && s.clients.v[n] !in s.callOf.v
    ensures LineOk(Call(s, c, n, k, k2, line, vm), id)
  {}

  lemma {:induction false} RecordLines(s: State, s1: State, c: Sock, n: Number, k: CallId, vm: Voicemail, id: CallId)
    requires LineOk(s, id) && Bare(s, k) && c !in s.callOf.v && k !in s.inLegs.v
    requires s1 == s.(kind := s1.kind, pending := s1.pending, callOf := s1.callOf)
    requires s1.pending == s.pending || s1.pending == Cell(s.pending.v - {n})
    requires s1.callOf == s.callOf || s1.callOf == Cell(s.callOf.v - {c})
    ensures LineOk(RecordOrFail(s1, c, n, k, vm), id)
  {}

  lemma {:induction false} PlaceLines(s: State, c: Sock, k: CallId, n: Number, reachable: bool, id: CallId)
    requires LineOk(s, id) && Bare(s, k) && k !in s.inLegs.v && k !in s.readers.v
    requires Undisturbed(s, EPlaceCross(c, k, n, reachable))
    ensures LineOk(PlaceCross(s, c, k, n, reachable), id)
  {
    hide LineOk, Bare, Undisturbed, PlaceCross, Spare;
    if c in s.userOf.v && reachable {
      var e := EPlaceCross(c, k, n, reachable);
      SpareLines(s, e, {c}, id);
      SpareBare(s, e, {c}, k);
      SparePlaceLines(Spare(s, e, {c}), c, k, n, reachable, id);
      SamePlace(s, c, k, n);
    } else {
      NotPlacedLines(s, c, k, n, reachable, id);
    }
  }

  lemma {:induction false} SamePlace(s: State, c: Sock, k: CallId, n: Number)
    ensures var e := EPlaceCross(c, k, n, true);
            c in s.userOf.v ==> PlaceCross(s, c, k, n, true) == PlaceCross(Spare(s, e, {c}), c, k, n, true)
    ensures c in s.userOf.v ==>
      ServiceCall(s, c, k, true) == ServiceCall(Spare(s, EServiceCall(c, k, true), {c}), c, k, true)
  {
    assert s.callOf.v[c := k] == (s.callOf.v - {c})[c := k];
  }

  lemma {:induction false} NotPlacedLines(s: State, c: Sock, k: CallId, n: Number, reachable: bool, id: CallId)
    requires LineOk(s, id)
    ensures c !in s.userOf.v || !reachable ==> LineOk(PlaceCross(s, c, k, n, reachable), id)
    ensures c !in s.userOf.v || !reachable ==> LineOk(ServiceCall(s, c, k, reachable), id)
  {}

  lemma {:induction false} SparePlaceLines(s: State, c: Sock, k: CallId, n: Number, reachable: bool, id: CallId)
    requires LineOk(s, id) && Bare(s, k) && k !in s.inLegs.v && k !in s.readers.v && c !in s.callOf.v
    ensures LineOk(PlaceCross(s, c, k, n, reachable), id)
  {}

  lemma {:induction false} ServiceCallLines(s: State, c: Sock, k: CallId, accepts: bool, id: CallId)
    requires LineOk(s, id) && Bare(s, k) && k !in s.inLegs.v && Undisturbed(s, EServiceCall(c, k, accepts))
    ensures LineOk(ServiceCall(s, c, k, accepts), id)
  {
    hide LineOk, Bare, Undisturbed, ServiceCall, Spare, PlaceCross;
    if c in s.userOf.v && accepts {
      var e := EServiceCall(c, k, accepts);
      SpareLines(s, e, {c}, id);
      SpareBare(s, e, {c}, k);
      SpareServiceLines(Spare(s, e, {c}), c, k, accepts, id);
      SamePlace(s, c, k, 0);
    } else {
      NotPlacedLines(s, c, k, 0, accepts, id);
    }
  }

  lemma {:induction false} SpareServiceLines(s: State, c: Sock, k: CallId, accepts: bool, id: CallId)
    requires LineOk(s, id) && Bare(s, k) && k !in s.inLegs.v && c !in s.callOf.v
    ensures LineOk(ServiceCall(s, c, k, accepts), id)
  {}

  lemma {:induction false} AnswerLines(s: State, c: Sock, k: CallId, pick: Sock, id: CallId)
    requires LineOk(s, id) && (k in s.inLegs.v && s.inLegs.v[k].service.NoService? ==> s.inLegs.v[k].callee.Some?)
    ensures LineOk(Answer(s, c, k, pick), id)
  {
    hide Others, Steady, LineOk;
    AnswerSteady(s, c, k, pick, id);
    SteadyKeeps(s, Answer(s, c, k, pick), id);
  }

  lemma {:induction false} AnswerSteady(s: State, c: Sock, k: CallId, pick: Sock, id: CallId)
    requires k in s.inLegs.v && s.inLegs.v[k].service.NoService? ==> s.inLegs.v[k].callee.Some?
    ensures Steady(s, Answer(s, c, k, pick), id)
  {
    hide Others;
  }

  lemma {:induction false} AnswerFacts(s: State, k: CallId)
    requires Inv(s) && k in s.offered.v
    ensures k in s.inLegs.v && s.inLegs.v[k].service.NoService? ==> s.inLegs.v[k].callee.Some?
  {}

  lemma {:induction false} LocalIceLines(s: State, c: Sock, k: CallId, cand: Candidate, id: CallId)
    requires Lines(s)
    ensures LineOk(LocalIce(s, c, k, cand), id)
  {
    assert LineOk(s, id);
    hide Others, OnLeg;
  }

  lemma {:induction false} ExpireLines(s: State, n: Number, vm: Voicemail, id: CallId)
    requires Inv(s) && Lines(s)
    ensures LineOk(Expire(s, n, vm), id)
  {
    hide Inv, RouteLocalOr, RouteInboundOr, Online, Steady, Bare, LineOk;
    assert LineOk(s, id);
    if n in s.pending.v {
      var p := s.pending.v[n];
      var s1 := s.(pending := Cell(s.pending.v - {n}));
      UnqueuedLines(s, n, id);
      assert LineOk(s, p.id);
      QueuedHeld(s, n);
      ExpiredBare(s, n);
      if p.Waiting? {
        ExpiredWaiting(s1, p, n, vm, id);
      } else if p.id in s.inLegs.v {
        ExpiredRemote(s1, p.id, vm, id);
      }
    }
  }

  lemma {:induction false} UnqueuedLines(s: State, n: Number, id: CallId)
    requires LineOk(s, id)
    ensures LineOk(s.(pending := Cell(s.pending.v - {n})), id)
  {}

  lemma {:induction false} QueuedHeld(s: State, n: Number)
    requires n in s.pending.v && LineOk(s, s.pending.v[n].id)
    ensures s.pending.v[n].Waiting? ==> In(s.callOf.v, s.pending.v[n].caller, s.pending.v[n].id)
  {}

  lemma {:induction false} ExpiredBare(s: State, n: Number)
    requires Inv(s) && n in s.pending.v
    ensures Bare(s.(pending := Cell(s.pending.v - {n})), s.pending.v[n].id)
  {
    QueuedFacts(s, n);
    QueuedPlace(s, n);
    hide Inv;
  }

  lemma {:induction false} ExpiredWaiting(s: State, p: Pending, n: Number, vm: Voicemail, id: CallId)
    requires p.Waiting? && LineOk(s, id) && Bare(s, p.id) && In(s.callOf.v, p.caller, p.id)
    ensures LineOk(RouteLocalOr(s, Ring(p.caller, p.caller, n), p.id, vm, NoAnswer), id)
  {
    hide LineOk, RouteLocalOr, Bare, Steady;
    var r := Ring(p.caller, p.caller, n);
    var s' := RouteLocalOr(s, r, p.id, vm, NoAnswer);
    if id == p.id {
      RouteFrame(s, r, p.id, vm, NoAnswer);
      BareFrame(s, s', id);
      BareIsOk(s', id);
    } else {
      RouteLocalSteady(s, r, p.id, vm, NoAnswer, id);
      SteadyKeeps(s, s', id);
    }
  }

  lemma {:induction false} ExpiredRemote(s: State, k: CallId, vm: Voicemail, id: CallId)
    requires k in s.inLegs.v && LineOk(s, id) && Bare(s, k)
    ensures LineOk(RouteInboundOr(s, s.inLegs.v[k], k, vm, Bye(NoAnswer)), id)
  {
    hide LineOk, RouteInboundOr, Steady;
    var s' := RouteInboundOr(s, s.inLegs.v[k], k, vm, Bye(NoAnswer));
    if id == k {
      RouteInboundBares(s, s.inLegs.v[k], k, vm, Bye(NoAnswer));
      BareIsOk(s', id);
    } else {
      RouteInboundSteady(s, s.inLegs.v[k], k, vm, Bye(NoAnswer), id);
      SteadyKeeps(s, s', id);
    }
  }

  lemma {:induction false} InboundTimeoutLines(s: State, k: CallId, vm: Voicemail, id: CallId)
    requires Inv(s) && Lines(s)
    ensures LineOk(InboundTimeout(s, k, vm), id)
  {
    hide Inv, RouteInboundOr, Steady, Bare, LineOk, End;
    assert LineOk(s, id);
    if k in s.inLegs.v && s.inLegs.v[k].callee.Some? {
      var s1 := End(s, s.inLegs.v[k].callee.value, k, NoAnswer);
      EndFrame(s, s.inLegs.v[k].callee.value, k, NoAnswer);
      var s' := RouteInboundOr(s1, Quiet(s.inLegs.v[k]), k, vm, Bye(NoAnswer));
      if id == k {
        LegOnly(s, k);
        RouteInboundBares(s1, Quiet(s.inLegs.v[k]), k, vm, Bye(NoAnswer));
        BareIsOk(s', id);
      } else {
        EndSteady(s, s.inLegs.v[k].callee.value, k, NoAnswer, id);
        RouteInboundSteady(s1, Quiet(s.inLegs.v[k]), k, vm, Bye(NoAnswer), id);
        SteadyTrans(s, s1, s', id);
        SteadyKeeps(s, s', id);
      }
    }
  }

  lemma {:induction false} LegOnly(s: State, k: CallId)
    requires Inv(s) && k in s.inLegs.v
    ensures k !in s.rings.v && k !in s.outLegs.v && k !in s.readers.v
    ensures forall n | n in s.pending.v && s.pending.v[n].Waiting? :: s.pending.v[n].id != k
  {}

  lemma {:induction false} InboundSelfEndLines(s: State, k: CallId, id: CallId)
    requires Inv(s) && Lines(s) && k in s.recorders.v
    ensures LineOk(InboundSelfEnd(s, k), id)
  {
    OnePlace(s, k);
    hide Inv;
    assert LineOk(s, id);
  }

  lemma {:induction false} LocalSelfEndLines(s: State, c: Sock, k: CallId, id: CallId)
    requires Inv(s) && Lines(s) && k in s.kind.v && s.kind.v[k].Local? && k in s.attempts.v
    ensures LineOk(LocalSelfEnd(s, c, k), id)
  {
    OnePlace(s, k);
    hide Inv;
    assert LineOk(s, id);
  }

  lemma {:induction false} InInviteLines(s: State, st: Stream, k: CallId, n: Number, host: Hosting, line: Line,
                                         vm: Voicemail, id: CallId)
    requires LineOk(s, id) && Bare(s, k) && k !in s.inLegs.v && Undisturbed(s, EInInvite(st, k, n, host, line, vm))
    ensures LineOk(InInvite(s, st, k, n, host, line, vm), id)
  {
    hide LineOk, Bare, Undisturbed, InInvite, Spare, Refuse;
    if host.NotHosted? && n in s.clients.v {
      var e := EInInvite(st, k, n, host, line, vm);
      var b := s.clients.v[n];
      SpareLines(s, e, {b}, id);
      SpareBare(s, e, {b}, k);
      OnlineInviteLines(Spare(s, e, {b}), st, k, n, host, line, vm, id);
      SameInvite(s, st, k, n, line, vm);
    } else if host.NotHosted? && !(line == Push(true)) {
      OfflineInviteLines(s, st, k, n, line, vm, id);
    } else if host.HostedHere? && !host.accepts {
      RefusedInvite(s, st, k, n, host, line, vm);
      RefuseLines(s.(kind := Cell(s.kind.v[k := Incoming(n, st)])), k, ServiceError, id);
    } else {
      OnlineInviteLines(s, st, k, n, host, line, vm, id);
    }
  }

  lemma {:induction false} RefusedInvite(s: State, st: Stream, k: CallId, n: Number, host: Hosting, line: Line,
                                         vm: Voicemail)
    requires host.HostedHere? && !host.accepts
    ensures InInvite(s, st, k, n, host, line, vm)
      == Refuse(s.(kind := Cell(s.kind.v[k := Incoming(n, st)])), k, ServiceError)
    ensures forall id :: LineOk(s, id) ==> LineOk(s.(kind := Cell(s.kind.v[k := Incoming(n, st)])), id)
  {
    hide Refuse;
  }

  lemma {:induction false} SameInvite(s: State, st: Stream, k: CallId, n: Number, line: Line, vm: Voicemail)
    requires n in s.clients.v
    ensures var e := EInInvite(st, k, n, NotHosted, line, vm);
            InInvite(s, st, k, n, NotHosted, line, vm)
            == InInvite(Spare(s, e, {s.clients.v[n]}), st, k, n, NotHosted, line, vm)
  {
    var b := s.clients.v[n];
    assert s.callOf.v[b := k] == (s.callOf.v - {b})[b := k];
  }

  lemma {:induction false} OnlineInviteLines(s: State, st: Stream, k: CallId, n: Number, host: Hosting, line: Line,
                                             vm: Voicemail, id: CallId)
    requires LineOk(s, id) && Bare(s, k) && k !in s.inLegs.v
    requires host.NotHosted? && n in s.clients.v ==> s.clients.v[n] !in s.callOf.v
    requires (host.HostedHere? && host.accepts) || (host.NotHosted? && (n in s.clients.v || line == Push(true)))
    ensures LineOk(InInvite(s, st, k, n, host, line, vm), id)
  {}

  lemma {:induction false} OfflineInviteLines(s: State, st: Stream, k: CallId, n: Number, line: Line, vm: Voicemail,
                                              id: CallId)
    requires LineOk(s, id) && Bare(s, k) && k !in s.inLegs.v && n !in s.clients.v && line != Push(true)
    ensures LineOk(InInvite(s, st, k, n, NotHosted, line, vm), id)
  {
    hide Refuse, RouteInbound, RouteInboundOr;
    var s1 := s.(kind := Cell(s.kind.v[k := Incoming(n, st)]));
    match line
    case Unknown => RefuseLines(s1, k, Unavailable, id);
    case Push(_) => RefuseLines(s1.(pending := Cell(s.pending.v - {n})), k, Unavailable, id);
    case NoPush =>
      NewRecorderLines(s1.(streams := Cell(Put(s.streams.v, st, [k]))), Blank(st, n), k, id);
      UnroutedLines(s1, Blank(st, n), k, vm, Busy(Unavailable), id);
  }

  lemma {:induction false} RefuseLines(s: State, k: CallId, why: Reason, id: CallId)
    requires LineOk(s, id) && k !in s.inLegs.v
    ensures LineOk(Refuse(s, k, why), id)
  {}

  lemma {:induction false} NewRecorderLines(s: State, leg: Leg, k: CallId, id: CallId)
    requires LineOk(s, id) && Bare(s, k)
    ensures LineOk(RouteInbound(s, leg, k), id)
  {}

  lemma {:induction false} UnroutedLines(s: State, leg: Leg, k: CallId, vm: Voicemail, m: PeerMsg, id: CallId)
    requires LineOk(s, id) && Bare(s, k)
    ensures !vm.Works? ==> LineOk(RouteInboundOr(s, leg, k, vm, m), id)
  {}

  lemma {:induction false} InIceLines(s: State, k: CallId, cand: Candidate, id: CallId)
    requires Lines(s)
    ensures LineOk(InIce(s, k, cand), id)
  {
    assert LineOk(s, id);
  }

  lemma {:induction false} EndLegLines(s: State, k: CallId, why: Reason, id: CallId)
    requires Inv(s) && LineOk(s, id) && k in s.inLegs.v
    ensures LineOk(EndLeg(s, k, why), id)
  {
    LegOnly(s, k);
    hide Inv;
  }

  lemma {:induction false} InByeLines(s: State, k: CallId, why: Reason, id: CallId)
    requires Inv(s) && Lines(s)
    ensures LineOk(InBye(s, k, why), id)
  {
    hide Inv, EndLeg;
    assert LineOk(s, id);
    if k in s.inLegs.v {
      EndLegLines(s, k, why, id);
    }
  }

  lemma {:induction false} CleanUpsLines(s: State, ids: seq<CallId>, id: CallId)
    requires Inv(s) && LineOk(s, id)
    ensures LineOk(CleanUps(s, ids), id)
    decreases |ids|
  {
    hide Inv, CleanUp, LineOk;
    if ids != [] {
      CleanUpKeeps(s, ids[0]);
      CleanUpLines(s, ids[0], id);
      CleanUpsLines(CleanUp(s, ids[0]), ids[1..], id);
    }
  }

  lemma {:induction false} CleanUpLines(s: State, k: CallId, id: CallId)
    requires Inv(s) && LineOk(s, id)
    ensures LineOk(CleanUp(s, k), id)
  {
    hide Inv, EndLeg;
    if k in s.inLegs.v {
      EndLegLines(s, k, Disconnected, id);
    }
  }

  lemma {:induction false} OutLines(s: State, k: CallId, m: PeerMsg, eof: bool, id: CallId)
    requires Inv(s) && Lines(s)
    ensures LineOk(OutEvent(s, k, m), id)
    ensures LineOk(OutEnd(s, k, eof), id)
  {
    OnePlace(s, k);
    hide Inv;
    assert LineOk(s, id);
  }

  // ---- Every step, every courteous run ----

  lemma {:induction false} ClientStepLines(s: State, e: Event, id: CallId)
    requires Inv(s) && Possible(s, e) && Lines(s) && Undisturbed(s, e) && From(e).Some?
    ensures LineOk(Step(s, e), id)
  {
    assert LineOk(s, id);
    hide Inv, LineOk, Bare, Undisturbed;
    hide Register, Disconnect, Call, ServiceCall, PlaceCross, Answer, Hangup, Decline, LocalIce;
    match e
    case ERegister(c, n) => RegisterLines(s, c, n, id);
    case EDisconnect(c, vm) => DisconnectLines(s, c, vm, id);
    case ECall(c, n, k, k2, line, vm) => CallLines(s, c, n, k, k2, line, vm, id);
    case EServiceCall(c, k, accepts) => FreshPlace(s, k); ServiceCallLines(s, c, k, accepts, id);
    case EPlaceCross(c, k, n, reachable) => FreshPlace(s, k); PlaceLines(s, c, k, n, reachable, id);
    case EAnswer(c, k, pick) => AnswerFacts(s, k); AnswerLines(s, c, k, pick, id);
    case EHangup(c, vm) => HangupLines(s, c, vm, id);
    case EDecline(c, asked, vm) => DeclineLines(s, c, asked, vm, id);
    case ELocalIce(c, k, cand) => LocalIceLines(s, c, k, cand, id);
  }

  lemma {:induction false} InnerStepLines(s: State, e: Event, id: CallId)
    requires Inv(s) && Possible(s, e) && Lines(s) && Undisturbed(s, e) && From(e).None?
    ensures LineOk(Step(s, e), id)
  {
    assert LineOk(s, id);
    hide Inv, LineOk, Bare, Undisturbed;
    hide RingTimeout, Expire, InboundTimeout, InboundSelfEnd, LocalSelfEnd, StreamOpen, InInvite, InIce, InBye, InEnd,
         OutEvent, OutEnd;
    match e
    case ERingTimeout(k, vm) => RingTimeoutLines(s, k, vm, id);
    case EExpire(n, vm) => ExpireLines(s, n, vm, id);
    case EInboundTimeout(k, vm) => InboundTimeoutLines(s, k, vm, id);
    case EInboundSelfEnd(k) => InboundSelfEndLines(s, k, id);
    case ELocalSelfEnd(c, k) => LocalSelfEndLines(s, c, k, id);
    case EStreamOpen(st) => StreamOpenLines(s, st, id);
    case EInInvite(st, k, n, host, line, vm) => FreshPlace(s, k); InInviteLines(s, st, k, n, host, line, vm, id);
    case EInIce(k, cand) => InIceLines(s, k, cand, id);
    case EInBye(k, why) => InByeLines(s, k, why, id);
    case EInEnd(st) => InEndLines(s, st, id);
    case EOutEvent(k, m) => OutLines(s, k, m, true, id);
    case EOutEnd(k, eof) => OutLines(s, k, Alerting, eof, id);
  }

  lemma {:induction false} StepLines(s: State, e: Event, id: CallId)
    requires Inv(s) && Possible(s, e) && Lines(s) && Undisturbed(s, e)
    ensures LineOk(Step(s, e), id)
  {
    hide Inv, Lines, LineOk, Undisturbed, Step, Possible;
    if From(e).Some? {
      ClientStepLines(s, e, id);
    } else {
      InnerStepLines(s, e, id);
    }
  }

  lemma {:induction false} StreamOpenLines(s: State, st: Stream, id: CallId)
    requires LineOk(s, id)
    ensures LineOk(StreamOpen(s, st), id)
  {}

  lemma {:induction false} InEndLines(s: State, st: Stream, id: CallId)
    requires Inv(s) && LineOk(s, id)
    ensures LineOk(InEnd(s, st), id)
  {
    hide Inv, CleanUps;
    if st in s.streams.v {
      CleanUpsLines(s, s.streams.v[st], id);
    }
  }

  /** A socket that is named for its call is not named for it only by the queue entry that goes. */
  lemma {:induction false} NamedOnce(s: State, e: Event, x: Sock)
    requires Inv(s) && Possible(s, e) && Overwrites(s, e, x) && x in s.callOf.v
    requires Names(Lasting(s, e), s.callOf.v[x], x)
    ensures s.callOf.v[x] in s.kind.v
    ensures e.ERegister? ==> s.pending.v[e.n].id != s.callOf.v[x]
  {
    var id := s.callOf.v[x];
    if e.ERegister? {
      QueuedFacts(s, e.n);
      QueuedPlace(s, e.n);
    }
  }

  /** The tables of l name sockets for call id only if those of s' do. */
  ghost predicate Retains(l: State, s': State, id: CallId) {
    && (id in l.rings.v ==> id in s'.rings.v && s'.rings.v[id] == l.rings.v[id])
    && (forall n | n in l.pending.v && l.pending.v[n].id == id ::
          n in s'.pending.v && s'.pending.v[n] == l.pending.v[n])
    && (id in l.outLegs.v && id in l.readers.v ==>
       id in s'.outLegs.v && id in s'.readers.v && s'.readers.v[id] == l.readers.v[id])
    && (id in l.inLegs.v ==> id in s'.inLegs.v && s'.inLegs.v[id] == l.inLegs.v[id])
  }

  lemma {:induction false} RetainedNames(l: State, s': State, id: CallId, x: Sock)
    requires Retains(l, s', id) && Names(l, id, x) && !In(s'.callOf.v, x, id)
    ensures !LineOk(s', id)
  {
    assert Names(s', id, x);
    if LineOk(s', id) {
      NamedIn(s', id, x);
    }
  }

  lemma {:induction false} RegisterTakes(s: State, c: Sock, n: Number, id: CallId)
    requires Delivered(s, c, n) && s.pending.v[n].id != id
    ensures Retains(Lasting(s, ERegister(c, n)), Register(s, c, n), id) && !In(Register(s, c, n).callOf.v, c, id)
  {}

  lemma {:induction false} CallTakes(s: State, c: Sock, n: Number, k: CallId, k2: CallId, line: Line, vm: Voicemail,
                                     x: Sock, id: CallId)
    requires id != k && id != k2 && Overwrites(s, ECall(c, n, k, k2, line, vm), x)
    ensures Retains(Lasting(s, ECall(c, n, k, k2, line, vm)), Call(s, c, n, k, k2, line, vm), id)
    ensures !In(Call(s, c, n, k, k2, line, vm).callOf.v, x, id)
  {}

  lemma {:induction false} PlaceTakes(s: State, c: Sock, k: CallId, n: Number, id: CallId)
    requires c in s.userOf.v && id != k
    ensures Retains(s, PlaceCross(s, c, k, n, true), id) && !In(PlaceCross(s, c, k, n, true).callOf.v, c, id)
    ensures Retains(s, ServiceCall(s, c, k, true), id) && !In(ServiceCall(s, c, k, true).callOf.v, c, id)
  {}

  lemma {:induction false} InviteTakes(s: State, st: Stream, k: CallId, n: Number, line: Line, vm: Voicemail,
                                       id: CallId)
    requires n in s.clients.v && id != k
    ensures var s' := InInvite(s, st, k, n, NotHosted, line, vm);
            Retains(s, s', id) && !In(s'.callOf.v, s.clients.v[n], id)
  {}

  /** A step that does disturb leaves a table that names a socket for a call the socket is not in. */
  lemma {:induction false} DisturbedBreaks(s: State, e: Event, x: Sock)
    requires Inv(s) && Possible(s, e) && Overwrites(s, e, x) && x in s.callOf.v
    requires Names(Lasting(s, e), s.callOf.v[x], x)
    ensures !LineOk(Step(s, e), s.callOf.v[x])
  {
    var id := s.callOf.v[x];
    NamedOnce(s, e, x);
    hide Inv, LineOk, Names, Retains, Register, Call, PlaceCross, ServiceCall, InInvite;
    match e {
      case ERegister(c, n) => RegisterTakes(s, c, n, id);
      case ECall(c, n, k, k2, line, vm) => CallTakes(s, c, n, k, k2, line, vm, x, id);
      case EServiceCall(c, k, _) => PlaceTakes(s, c, k, 0, id);
      case EPlaceCross(c, k, n, _) => PlaceTakes(s, c, k, n, id);
      case EInInvite(st, k, n, _, line, vm) => InviteTakes(s, st, k, n, line, vm, id);
      case _ =>
    }
    RetainedNames(Lasting(s, e), Step(s, e), id, x);
  }

  /** A step keeps the tables and the sockets in agreement exactly when it disturbs nobody. */
  lemma {:induction false} StepLinesIff(s: State, e: Event)
    requires Inv(s) && Possible(s, e) && Lines(s)
    ensures Lines(Step(s, e)) <==> Undisturbed(s, e)
  {
    hide Inv, LineOk, Overwrites, Names, Step, Possible, Lasting;
    if Undisturbed(s, e) {
      forall id ensures LineOk(Step(s, e), id) { StepLines(s, e, id); }
    } else {
      var x :| Overwrites(s, e, x) && x in s.callOf.v && Names(Lasting(s, e), s.callOf.v[x], x);
      DisturbedBreaks(s, e, x);
    }
  }

  /** A run that disturbs nobody. */
  ghost predicate UndisturbedRun(states: seq<State>, events: seq<Event>) {
    Run(states, events) && forall i | 0 <= i < |events| :: Undisturbed(states[i], events[i])
  }

  /** In a run the tables and the sockets agree all along exactly as long as nobody is disturbed. */
  lemma {:induction false} RunLinesIff(states: seq<State>, events: seq<Event>, i: nat)
    requires Run(states, events) && i < |states|
    ensures (forall j | 0 <= j <= i :: Lines(states[j]))
      <==> (forall j | 0 <= j < i :: Undisturbed(states[j], events[j]))
  {
    hide Step, Possible, Inv, Undisturbed, Lines;
    if i == 0 {
      StartLines();
    } else {
      RunKeeps(states, events, i - 1);
      RunLinesIff(states, events, i - 1);
      if Lines(states[i - 1]) {
        StepLinesIff(states[i - 1], events[i - 1]);
      }
      assert (forall j | 0 <= j <= i :: Lines(states[j]))
        <==> (forall j | 0 <= j <= i - 1 :: Lines(states[j])) && Lines(states[i]);
      assert (forall j | 0 <= j < i :: Undisturbed(states[j], events[j]))
        <==> (forall j | 0 <= j < i - 1 :: Undisturbed(states[j], events[j])) &&
             Undisturbed(states[i - 1], events[i - 1]);
    }
  }

  lemma {:induction false} RunLines(states: seq<State>, events: seq<Event>, i: nat)
    requires UndisturbedRun(states, events) && i < |states|
    ensures Lines(states[i])
  {
    hide Lines, Undisturbed, Run;
    assert |states| == |events| + 1 by { RunLength(states, events); }
    RunLinesIff(states, events, i);
  }

  lemma {:induction false} RunLength(states: seq<State>, events: seq<Event>)
    requires Run(states, events)
    ensures |states| == |events| + 1
  {}

  lemma {:induction false} StartLines()
    ensures Lines(START)
  {}

  /** A ring joins two different sockets, and both are in that call. */
  lemma {:induction false} RingersAreInTheirCall(states: seq<State>, events: seq<Event>, i: nat, id: CallId)
    requires UndisturbedRun(states, events) && i < |states| && id in states[i].rings.v
    ensures var s := states[i]; var r := s.rings.v[id];
            r.caller != r.callee && In(s.callOf.v, r.caller, id) && In(s.callOf.v, r.callee, id)
  {
    RunLines(states, events, i);
    assert LineOk(states[i], id);
    RunKeeps(states, events, i);
    RingFacts(states[i], id);
    hide Inv;
  }

  /** No table of the exchange names socket x. */
  ghost predicate Forgotten(s: State, x: Sock) {
    && x !in s.callOf.v
    && (forall n | n in s.clients.v :: s.clients.v[n] != x)
    && (forall id | id in s.rings.v :: s.rings.v[id].caller != x && s.rings.v[id].callee != x)
    && (forall n | n in s.pending.v && s.pending.v[n].Waiting? :: s.pending.v[n].caller != x)
    && (forall id | id in s.outLegs.v :: id in s.readers.v && s.readers.v[id] != x)
    && (forall id | id in s.inLegs.v && s.inLegs.v[id].service.NoService? :: s.inLegs.v[id].callee != Some(x))
  }

  /** From its disconnection on, no ring, queued call, out-leg or unserved in-leg names the socket. */
  lemma {:induction false} GoneIsForgotten(states: seq<State>, events: seq<Event>, i: nat, x: Sock)
    requires UndisturbedRun(states, events) && i < |states| && x in states[i].gone.v
    ensures Forgotten(states[i], x)
  {
    hide Run, Undisturbed, Step, Possible;
    RunKeeps(states, events, i);
    RunLines(states, events, i);
    ForgottenNow(states[i], x);
    hide Inv, LineOk;
  }

  lemma {:induction false} ForgottenNow(s: State, x: Sock)
    requires Inv(s) && Lines(s) && x in s.gone.v
    ensures Forgotten(s, x)
  {
    forall id | id in s.rings.v ensures s.rings.v[id].caller != x && s.rings.v[id].callee != x { assert LineOk(s, id); }
    forall n | n in s.pending.v && s.pending.v[n].Waiting?
      ensures s.pending.v[n].caller != x
    {
      assert LineOk(s, s.pending.v[n].id);
    }
    forall id | id in s.outLegs.v ensures id in s.readers.v && s.readers.v[id] != x { assert LineOk(s, id); }
    forall id | id in s.inLegs.v && s.inLegs.v[id].service.NoService?
      ensures s.inLegs.v[id].callee != Some(x)
    {
      assert LineOk(s, id);
    }
  }

  /** A disconnecting socket takes nobody else off the line list: not even its own replacement. */
  lemma {:induction false} ReplacementStays(s: State, x: Sock, vm: Voicemail, n: Number)
    requires n in s.clients.v && s.clients.v[n] != x
    ensures var s' := Disconnect(s, x, vm); n in s'.clients.v && s'.clients.v[n] == s.clients.v[n]
    ensures x in Disconnect(s, x, vm).gone.v
  {
    hide LeaveCall;
    if x in s.userOf.v && x in s.callOf.v {
      LeaveCallClients(s.(callOf := Cell(s.callOf.v - {x})), x, s.callOf.v[x], vm);
    }
  }

  lemma {:induction false} LeaveCallClients(s: State, c: Sock, k: CallId, vm: Voicemail)
    ensures LeaveCall(s, c, k, vm).clients == s.clients
  {
    hide Unqueued, Others, Freed;
  }
}
