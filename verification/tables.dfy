/**
  What is in the tables, and why.

  For every entry that a table of an exchange can have, this module says exactly when it is there after a step: the
  step puts it there, or it was there before and the step does not take it away. Which sockets are in which call, which
  calls ring, wait or are with a service, who is listed, whether there is an inbound leg and who is at its local end,
  and what services are asked. As in CallLaws, the conditions go by what a call is told and by whom, and no condition
  names a handler. The theorems are StepCalls, StepRings, StepQueue, StepServices, StepListed, StepLegsOk and StepAsks.
 */
module CallTables {
  import opened Options
  import opened Exchange
  import opened CallInvariants
  import opened OneCallPerLine
  import opened CallLaws

  // ---- Which sockets are in which call ----

  /** The step puts x into call id. */
  predicate Enters(s: State, e: Event, x: Sock, id: CallId) {
    match e
    case ERegister(c, n) =>
      Delivered(s, c, n) && s.pending.v[n].id == id && (x == c || s.pending.v[n] == Waiting(id, x))
    case ECall(c, n, k, _, line, _) =>
      || Recorded(s, e, x, id)
      || (k == id && c in s.userOf.v
          && if n in s.clients.v then x == c || x == s.clients.v[n] else x == c && line == Push(true))
    case EServiceCall(c, k, accepts) => k == id && x == c && c in s.userOf.v && accepts
    case EPlaceCross(c, k, _, reachable) => k == id && x == c && c in s.userOf.v && reachable
    case EInInvite(_, k, n, host, _, _) => k == id && host.NotHosted? && n in s.clients.v && x == s.clients.v[n]
    case _ => Recorded(s, e, x, id)
  }

  /** The step tells x that call id is over. */
  ghost predicate ToldOver(s: State, e: Event, x: Sock, id: CallId) {
    exists why :: EndedOwed(s, e, x, id, why)
  }

  /** x gives the call up, is told that it is over, hears the other end close, or is in another call from now on. */
  ghost predicate Leaves(s: State, e: Event, x: Sock, id: CallId) {
    || (From(e) == Some(x) && (HangsUp(s, e, id) || TurnsDown(s, e, id) || Drops(s, e, id)))
    || ToldOver(s, e, x, id)
    || (e.EOutEnd? && e.id == id && id in s.readers.v && x == s.readers.v[id])
    || (e.ECall? && x == e.c && x in s.userOf.v && e.n !in s.clients.v && e.line == Push(false))
    || (exists k :: k != id && Enters(s, e, x, k))
  }

  ghost predicate CallsOk(s: State, e: Event, s': State, x: Sock, id: CallId) {
    In(s'.callOf.v, x, id) <==>
      (Enters(s, e, x, id) && !e.EDisconnect?) || (In(s.callOf.v, x, id) && !Leaves(s, e, x, id))
  }

  // ---- Which calls ring, wait, and are with a service ----

  predicate Rung(s: State, e: Event, id: CallId, r: Ring) {
    && e.ECall? && e.id == id && e.c in s.userOf.v && e.n in s.clients.v
    && r == Ring(e.c, s.clients.v[e.n], e.n)
  }

  predicate RingOver(s: State, e: Event, id: CallId) {
    || (e.EAnswer? && e.id == id && e.c in s.userOf.v) || (e.ERingTimeout? && e.id == id)
    || Declines(s, e, id) || HangsUp(s, e, id) || Drops(s, e, id)
  }

  predicate RingsOk(s: State, e: Event, s': State, id: CallId, r: Ring) {
    (id in s'.rings.v && s'.rings.v[id] == r)
      <==> Rung(s, e, id, r) || (id in s.rings.v && s.rings.v[id] == r && !RingOver(s, e, id))
  }

  /** The callee's line is pushed, and the call waits for it. */
  predicate Waits(s: State, e: Event, n: Number, p: Pending) {
    match e
    case ECall(c, m, id, _, line, _) => m == n && c in s.userOf.v && n !in s.clients.v
      && line == Push(true) && p == Waiting(id, c)
    case EInInvite(_, id, m, host, line, _) => m == n && host.NotHosted? && n !in s.clients.v
      && line == Push(true) && p == Remote(id)
    case _ => false
  }

  predicate WaitOver(s: State, e: Event, n: Number, id: CallId) {
    || (e.ERegister? && e.n == n) || (e.EExpire? && e.n == n) || HangsUp(s, e, id) || Drops(s, e, id)
    || (e.ECall? && e.n == n && e.c in s.userOf.v && e.line.Push?)
    || (e.EInInvite? && e.n == n && e.host.NotHosted? && e.line.Push?)
    || (e.EInBye? && e.id == id) || (e.EInEnd? && e.st in s.streams.v && id in s.streams.v[e.st])
  }

  predicate QueueOk(s: State, e: Event, s': State, n: Number, p: Pending) {
    (n in s'.pending.v && s'.pending.v[n] == p)
      <==> Waits(s, e, n, p) || (n in s.pending.v && s.pending.v[n] == p && !WaitOver(s, e, n, p.id))
  }

  predicate Serves(s: State, e: Event, x: Sock, id: CallId) {
    Recorded(s, e, x, id) || (e.EServiceCall? && e.id == id && e.c == x && x in s.userOf.v && e.accepts)
  }

  predicate ServiceOver(s: State, e: Event, x: Sock, id: CallId) {
    HangsUp(s, e, id) || (Drops(s, e, id) && e.c == x) || (e.ELocalSelfEnd? && e.id == id)
  }

  predicate ServicesOk(s: State, e: Event, s': State, x: Sock, id: CallId) {
    (id in s'.svc.v && s'.svc.v[id] == x)
      <==> Serves(s, e, x, id) || (id in s.svc.v && s.svc.v[id] == x && !ServiceOver(s, e, x, id))
  }

  // ---- Inbound legs ----

  /** The INCOMING of call id opens a leg. */
  predicate Opens(s: State, e: Event, id: CallId) {
    && e.EInInvite? && e.id == id
    && match e.host
       case HostedHere(accepts, answerSent) => accepts && answerSent
       case NotHosted => e.n in s.clients.v || e.line == Push(true) || (e.line.NoPush? && e.vm.Works?)
  }

  ghost predicate LegOver(s: State, e: Event, id: CallId) {
    || (exists why :: Sends(s, e, id, Bye(why)))
    || (e.EInBye? && e.id == id) || (e.EInEnd? && e.st in s.streams.v && id in s.streams.v[e.st])
  }

  predicate AnyCovered(s: State, e: Event, id: CallId) {
    Covered(s, e, id, Declined) || Covered(s, e, id, NoAnswer) || Covered(s, e, id, Unavailable)
  }

  /** A recorder takes the leg over. */
  predicate Taken(s: State, e: Event, id: CallId) {
    AnyCovered(s, e, id) && Recording(e).Works?
  }

  predicate LegAnswered(s: State, e: Event, id: CallId) {
    e.EAnswer? && e.id == id && e.c in s.userOf.v
  }

  /** Whether there is a leg, and who is at its local end. */
  ghost predicate LegsOk(s: State, e: Event, s': State, id: CallId) {
    && (id in s'.inLegs.v <==> Opens(s, e, id) || (id in s.inLegs.v && !LegOver(s, e, id)))
    && (id in s'.inLegs.v && Opens(s, e, id) ==>
          var leg := s'.inLegs.v[id];
          && leg.stream == e.st && leg.calleeNum == e.n && leg.candidates == []
          && leg.service == (if e.host.HostedHere? then Hosted else if Taken(s, e, id) then Recorder else NoService)
          && leg.answered == Taken(s, e, id)
          && leg.callee == (if e.host.NotHosted? && e.n in s.clients.v then Some(s.clients.v[e.n]) else None)
          && leg.timer == leg.callee.Some?)
    && (id in s'.inLegs.v && !Opens(s, e, id) ==>
          var leg, leg' := s.inLegs.v[id], s'.inLegs.v[id];
          && leg'.stream == leg.stream && leg'.calleeNum == leg.calleeNum
          && leg'.service == (if Taken(s, e, id) then Recorder else leg.service)
          && leg'.answered == (leg.answered || Taken(s, e, id) || LegAnswered(s, e, id))
          && leg'.timer == (leg.timer && !LegAnswered(s, e, id) && !(Taken(s, e, id) && leg.callee.Some?))
          && leg'.callee == (if Taken(s, e, id) then None
                             else if LegAnswered(s, e, id) && leg.callee.None? then Some(e.c)
                             else if e.ERegister? && e.n in s.pending.v && s.pending.v[e.n] == Remote(id) then Some(e.c)
                             else leg.callee)
          && leg'.candidates == leg.candidates + if e.EInIce? && e.id == id && leg.callee.Some? then [e.cand] else [])
  }

  // ---- What services are asked ----

  /** A service that was with call id is told that the call is over. */
  predicate ServiceTold(s: State, e: Event, id: CallId) {
    || (id in s.svc.v && ServiceOver(s, e, s.svc.v[id], id))
    || (id in s.inLegs.v && !s.inLegs.v[id].service.NoService?
        && ((e.EInBye? && e.id == id) || (e.EInEnd? && e.st in s.streams.v && id in s.streams.v[e.st])))
    || (AnyCovered(s, e, id) && Recording(e).Fails?)
  }

  predicate EndsOk(s: State, e: Event, s': State, id: CallId) {
    s'.ended.v[id] == s.ended.v[id] + if ServiceTold(s, e, id) then 1 else 0
  }

  /** The candidates that the service of call id gets in this step. */
  function Handed(s: State, e: Event, id: CallId): seq<Candidate> {
    if e.ELocalIce? && e.id == id && e.c in s.userOf.v && id in s.svc.v then [e.cand]
    else if e.EInIce? && e.id == id && id in s.inLegs.v && !s.inLegs.v[id].service.NoService? then [e.cand]
    else if Taken(s, e, id) && id in s.inLegs.v then s.inLegs.v[id].candidates
    else []
  }

  predicate FeedsOk(s: State, e: Event, s': State, id: CallId) {
    At(s'.fed.v, id) == At(s.fed.v, id) + Handed(s, e, id)
  }

  // ---- Who is listed ----

  predicate ListedOk(s: State, e: Event, s': State, n: Number, x: Sock) {
    (n in s'.clients.v && s'.clients.v[n] == x)
      <==> if e.ERegister? && e.n == n then e.c == x
           else n in s.clients.v && s.clients.v[n] == x && !(e.EDisconnect? && e.c == x)
  }

  // ---- Rings ----

  lemma {:induction false} PlainRings(s: State, e: Event)
    requires !e.ECall? && !e.EAnswer? && !e.ERingTimeout? && !e.EHangup? && !e.EDecline? && !e.EDisconnect?
      && !e.EInEnd?
    ensures Step(s, e).rings == s.rings
  {
    hide Put, Freed, Unqueued, Others, Each, Online;
  }

  lemma {:induction false} EndRings(s: State, ids: seq<CallId>)
    ensures CleanUps(s, ids).rings == s.rings && CleanUps(s, ids).svc == s.svc && CleanUps(s, ids).clients == s.clients
    decreases |ids|
  {
    hide Freed, Unqueued;
    if ids != [] {
      EndRings(CleanUp(s, ids[0]), ids[1..]);
    }
  }

  lemma {:induction false} HangupRings(s: State, c: Sock, k: CallId, vm: Voicemail)
    ensures forall id :: id in HangupIn(s, c, k, vm).rings.v <==> id in s.rings.v && id != k
    ensures forall id | id in s.rings.v && id != k :: HangupIn(s, c, k, vm).rings.v[id] == s.rings.v[id]
    ensures HangupIn(s, c, k, vm).clients == s.clients && HangupIn(s, c, k, vm).userOf == s.userOf
  {
    hide Put, Freed, Unqueued, Others, Each, Online;
  }

  lemma {:induction false} LeaveRings(s: State, c: Sock, k: CallId, vm: Voicemail)
    ensures forall id :: id in LeaveCall(s, c, k, vm).rings.v <==> id in s.rings.v && id != k
    ensures forall id | id in s.rings.v && id != k :: LeaveCall(s, c, k, vm).rings.v[id] == s.rings.v[id]
    ensures LeaveCall(s, c, k, vm).clients == s.clients && LeaveCall(s, c, k, vm).userOf == s.userOf
  {
    hide Put, Freed, Unqueued, Others, Each, Online;
  }

  lemma {:induction false} StepRings(s: State, e: Event, id: CallId, r: Ring)
    requires Inv(s) && Possible(s, e)
    ensures RingsOk(s, e, Step(s, e), id, r)
  {
    hide Inv, Possible, Step, RingsOk;
    match e
    case ECall(_, _, _, _, _, _) => CallRings(s, e, id, r);
    case EAnswer(_, _, _) => TakenRings(s, e, id, r);
    case ERingTimeout(_, _) => TakenRings(s, e, id, r);
    case EHangup(c, vm) => LeavingRings(s, e, id, r);
    case EDecline(c, _, vm) => LeavingRings(s, e, id, r);
    case EDisconnect(c, vm) => DropRings(s, e, id, r);
    case _ => KeptRings(s, e, id, r);
  }

  lemma {:induction false} CallRings(s: State, e: Event, id: CallId, r: Ring)
    requires Inv(s) && Possible(s, e) && e.ECall?
    ensures RingsOk(s, e, Step(s, e), id, r)
  {
    hide Inv, Online;
    FreshServices(s, e);
  }

  lemma {:induction false} TakenRings(s: State, e: Event, id: CallId, r: Ring)
    requires e.EAnswer? || e.ERingTimeout?
    ensures RingsOk(s, e, Step(s, e), id, r)
  {
    hide Others, Online, Freed;
  }

  lemma {:induction false} KeptRings(s: State, e: Event, id: CallId, r: Ring)
    requires !e.ECall? && !e.EAnswer? && !e.ERingTimeout? && !e.EHangup? && !e.EDecline? && !e.EDisconnect?
    ensures RingsOk(s, e, Step(s, e), id, r)
  {
    hide CleanUps;
    if e.EInEnd? {
      if e.st in s.streams.v {
        EndRings(s, s.streams.v[e.st]);
      }
    } else {
      hide Step;
      PlainRings(s, e);
    }
  }

  lemma {:induction false} LeavingRings(s: State, e: Event, id: CallId, r: Ring)
    requires e.EHangup? || e.EDecline?
    ensures RingsOk(s, e, Step(s, e), id, r)
  {
    var c := e.c;
    hide HangupIn, RouteLocal, Freed;
    if c in s.userOf.v && c in s.callOf.v {
      var s0 := s.(callOf := Cell(s.callOf.v - {c}));
      if e.EHangup? {
        HangupRings(s0, c, s.callOf.v[c], e.vm);
      } else {
        HangupRings(s0.(rings := Cell(s.rings.v - {Meant(s, c, e.asked).value})), c, s.callOf.v[c], e.vm);
      }
    }
  }

  lemma {:induction false} DropRings(s: State, e: Event, id: CallId, r: Ring)
    requires e.EDisconnect?
    ensures RingsOk(s, e, Step(s, e), id, r)
  {
    var c := e.c;
    hide LeaveCall;
    if c in s.userOf.v && c in s.callOf.v {
      LeaveRings(s.(callOf := Cell(s.callOf.v - {c})), c, s.callOf.v[c], e.vm);
    }
  }

  // ---- The list ----

  lemma {:induction false} PlainListed(s: State, e: Event)
    requires !e.ERegister? && !e.EDisconnect?
    ensures Step(s, e).clients == s.clients
  {
    hide Put, Freed, Unqueued, Others, Each, Online, CleanUps;
    if e.EInEnd? && e.st in s.streams.v {
      EndRings(s, s.streams.v[e.st]);
    }
  }

  lemma {:induction false} StepListed(s: State, e: Event, n: Number, x: Sock)
    requires Inv(s)
    ensures ListedOk(s, e, Step(s, e), n, x)
  {
    hide Inv, Step;
    match e
    case ERegister(_, _) => RegisterLists(s, e, n, x);
    case EDisconnect(_, _) => DropUnlists(s, e, n, x);
    case _ => PlainListed(s, e);
  }

  lemma {:induction false} RegisterLists(s: State, e: Event, n: Number, x: Sock)
    requires e.ERegister?
    ensures ListedOk(s, e, Step(s, e), n, x)
  {
    hide Online;
  }

  lemma {:induction false} DropUnlists(s: State, e: Event, n: Number, x: Sock)
    requires Inv(s) && e.EDisconnect?
    ensures ListedOk(s, e, Step(s, e), n, x)
  {
    var c := e.c;
    UnlistedOnce(s, c, n);
    hide Inv, LeaveCall;
    if c in s.callOf.v {
      LeaveRings(s.(callOf := Cell(s.callOf.v - {c})), c, s.callOf.v[c], e.vm);
    }
  }

  lemma {:induction false} UnlistedOnce(s: State, c: Sock, n: Number)
    requires Inv(s)
    ensures n in s.clients.v && s.clients.v[n] == c ==> c in s.userOf.v && s.userOf.v[c] == n
  {}

  // ---- Services ----

  lemma {:induction false} PlainServices(s: State, e: Event)
    requires e.ERegister? || e.EPlaceCross? || e.EAnswer? || e.ELocalIce? || e.EInboundTimeout? || e.EInboundSelfEnd?
      || e.EStreamOpen? || e.EInInvite? || e.EInIce? || e.EInBye? || e.EInEnd? || e.EOutEvent? || e.EOutEnd?
    ensures Step(s, e).svc == s.svc
  {
    hide Put, Freed, Unqueued, Others, Each, Online, CleanUps;
    if e.EInEnd? && e.st in s.streams.v {
      EndRings(s, s.streams.v[e.st]);
    }
  }

  /** Whom a call that is routed, or else ended, is with. */
  lemma {:induction false} RouteServes(s: State, r: Ring, k: CallId, vm: Voicemail, why: Reason)
    ensures RouteLocalOr(s, r, k, vm, why).svc.v == if Routed(s, r.caller, vm) then s.svc.v[k := r.caller] else s.svc.v
  {
    hide Freed, Online;
  }

  lemma {:induction false} StepServices(s: State, e: Event, x: Sock, id: CallId)
    requires Inv(s) && Possible(s, e)
    ensures ServicesOk(s, e, Step(s, e), x, id)
  {
    hide Inv, Step, ServicesOk, Possible;
    match e
    case ECall(_, _, _, _, _, _) => CallServices(s, e, x, id);
    case EServiceCall(_, k, _) => CallServices(s, e, x, id);
    case ERingTimeout(_, _) => RingTimeoutServices(s, e, x, id);
    case EExpire(_, _) => ExpireServices(s, e, x, id);
    case ELocalSelfEnd(_, _) => SelfEndServices(s, e, x, id);
    case EHangup(_, _) => HangupServices(s, e, x, id);
    case EDecline(_, _, _) => HangupServices(s, e, x, id);
    case EDisconnect(_, _) => DropServices(s, e, x, id);
    case _ => KeptServices(s, e, x, id);
  }

  lemma {:induction false} KeptServices(s: State, e: Event, x: Sock, id: CallId)
    requires e.ERegister? || e.EPlaceCross? || e.EAnswer? || e.ELocalIce? || e.EInboundTimeout? || e.EInboundSelfEnd?
      || e.EStreamOpen? || e.EInInvite? || e.EInIce? || e.EInBye? || e.EInEnd? || e.EOutEvent? || e.EOutEnd?
    ensures ServicesOk(s, e, Step(s, e), x, id)
  {
    hide Step;
    PlainServices(s, e);
  }

  lemma {:induction false} SelfEndServices(s: State, e: Event, x: Sock, id: CallId)
    requires e.ELocalSelfEnd?
    ensures ServicesOk(s, e, Step(s, e), x, id)
  {
    hide Freed;
  }

  lemma {:induction false} CallServices(s: State, e: Event, x: Sock, id: CallId)
    requires Inv(s) && Possible(s, e) && (e.ECall? || e.EServiceCall?)
    ensures ServicesOk(s, e, Step(s, e), x, id)
  {
    hide Inv, Possible;
    FreshServices(s, e);
  }

  lemma {:induction false} FreshServices(s: State, e: Event)
    requires Inv(s) && Possible(s, e) && (e.ECall? || e.EServiceCall?)
    ensures e.id !in s.svc.v && e.id !in s.rings.v && (e.ECall? ==> e.id2 !in s.svc.v)
  {}

  lemma {:induction false} RingTimeoutServices(s: State, e: Event, x: Sock, id: CallId)
    requires Inv(s) && e.ERingTimeout?
    ensures ServicesOk(s, e, Step(s, e), x, id)
  {
    var k := e.id;
    if k in s.rings.v {
      OneTable(s, k);
      var r := s.rings.v[k];
      var s1 := End(s.(rings := Cell(s.rings.v - {k})), r.callee, k, NoAnswer);
      assert Online(s1, r.caller) == Online(s, r.caller);
      hide Inv, Online, RouteLocalOr;
      RouteServes(s1, r, k, e.vm, NoAnswer);
      assert Step(s, e) == if Online(s, r.caller) then RouteLocalOr(s1, r, k, e.vm, NoAnswer) else s1;
      hide Step, End;
    }
  }

  lemma {:induction false} ExpireServices(s: State, e: Event, x: Sock, id: CallId)
    requires Inv(s) && e.EExpire?
    ensures ServicesOk(s, e, Step(s, e), x, id)
  {
    hide Inv, RouteLocalOr, Online;
    var n := e.n;
    if n in s.pending.v {
      QueuedFacts(s, n);
      var s1 := s.(pending := Cell(s.pending.v - {n}));
      match s.pending.v[n]
      case Waiting(k, c) =>
        SameOnline(s, s1, c);
        RouteServes(s1, Ring(c, c, n), k, e.vm, NoAnswer);
        assert Step(s, e) == if Online(s, c) then RouteLocalOr(s1, Ring(c, c, n), k, e.vm, NoAnswer) else s1;
        hide Step;
      case Remote(_) => hide Put;
    }
  }

  /** Whom a call that is hung up is with. */
  lemma {:induction false} HangupServed(s: State, c: Sock, k: CallId, vm: Voicemail)
    ensures HangupIn(s, c, k, vm).svc.v ==
      if k in s.rings.v then
        (if s.rings.v[k].callee == c && Routed(s, s.rings.v[k].caller, vm) then s.svc.v[k := s.rings.v[k].caller]
         else s.svc.v)
      else if Declinable(s, c, k) || OnLeg(s, c, k) || Queued(s.pending.v, k) then s.svc.v
      else s.svc.v - {k}
  {
    if k in s.rings.v {
      var s1 := s.(rings := Cell(s.rings.v - {k}));
      assert Routed(s1, s.rings.v[k].caller, vm) == Routed(s, s.rings.v[k].caller, vm);
      hide RouteLocalOr, Routed, Queued, OnLeg, Declinable, CloseLeg, EndOthers, Freed;
      RouteServes(s1, s.rings.v[k], k, vm, Declined);
    } else {
      hide Freed, Unqueued, Others, Each, Online, Put, Queued, RouteLocalOr;
      if k !in s.svc.v {
        assert s.svc.v - {k} == s.svc.v;
      }
    }
  }

  lemma {:induction false} HungServices(s: State, s1: State, e: Event, k: CallId, x: Sock, id: CallId)
    requires Inv(s) && HangsUp(s, e, k) && s1 == s.(rings := s1.rings, callOf := s1.callOf)
    requires k in s1.rings.v <==> StillRings(s, e, k)
    requires k in s1.rings.v ==> s1.rings.v[k] == s.rings.v[k]
    ensures ServicesOk(s, e, HangupIn(s1, e.c, k, Recording(e)), x, id)
  {
    var c, vm := e.c, Recording(e);
    OneTable(s, k);
    hide Inv;
    HangupServed(s1, c, k, vm);
    assert forall y :: Routed(s1, y, vm) == Routed(s, y, vm);
    hide HangupIn, Online, Queued;
  }

  lemma {:induction false} HangupServices(s: State, e: Event, x: Sock, id: CallId)
    requires Inv(s) && (e.EHangup? || e.EDecline?)
    ensures ServicesOk(s, e, Step(s, e), x, id)
  {
    var c := e.c;
    hide HangupIn, RouteLocalOr;
    if c in s.userOf.v && (e.EDecline? ==> Meant(s, c, e.asked).Some?) {
      var s1 := if e.EHangup? then s else s.(rings := Cell(s.rings.v - {Meant(s, c, e.asked).value}));
      if e.EDecline? && TurnsDown(s, e, Meant(s, c, e.asked).value) {
        TurnDownServices(s, e, Meant(s, c, e.asked).value, x, id);
      } else if c in s.callOf.v {
        HungServices(s, s1.(callOf := Cell(s.callOf.v - {c})), e, s.callOf.v[c], x, id);
        hide ServicesOk, Inv;
      }
    }
    hide Inv;
  }

  lemma {:induction false} TurnDownServices(s: State, e: Event, k: CallId, x: Sock, id: CallId)
    requires Inv(s) && TurnsDown(s, e, k)
    ensures ServicesOk(s, e, Step(s, e), x, id)
  {
    OneTable(s, k);
    hide Inv, Online, Freed;
    var s1 := s.(rings := Cell(s.rings.v - {k}), callOf := Cell(Freed(s.callOf.v, e.c, k)));
    RouteServes(s1, s.rings.v[k], k, e.vm, Declined);
    assert Routed(s1, s.rings.v[k].caller, e.vm) == Routed(s, s.rings.v[k].caller, e.vm);
    assert Step(s, e) == RouteLocalOr(s1, s.rings.v[k], k, e.vm, Declined);
    hide Step, RouteLocalOr;
  }

  /** Whom a call is with once the socket of a party has closed. */
  lemma {:induction false} LeaveServed(s: State, c: Sock, k: CallId, vm: Voicemail)
    requires k in s.rings.v ==> k !in s.svc.v && s.rings.v[k].caller != s.rings.v[k].callee
    ensures LeaveCall(s, c, k, vm).svc.v ==
      if k in s.rings.v && s.rings.v[k].callee == c && Routed(s, s.rings.v[k].caller, vm)
      then s.svc.v[k := s.rings.v[k].caller]
      else if k in s.svc.v && s.svc.v[k] == c then s.svc.v - {k} else s.svc.v
  {
    var s1 := CloseLeg(s, c, k, Disconnected);
    assert s1.svc == s.svc && s1.rings == s.rings && s1.clients == s.clients && s1.userOf == s.userOf;
    var s2 := s1.(pending := Cell(Unqueued(s1.pending.v, k)));
    hide CloseLeg, Unqueued, Others, Each;
    RingServed(s2, c, k, vm);
    assert forall y :: Online(s2, y) == Online(s, y);
    hide LeaveRing, Online;
  }

  lemma {:induction false} RingServed(s: State, c: Sock, k: CallId, vm: Voicemail)
    ensures LeaveRing(s, c, k, vm).svc.v ==
      if k in s.rings.v && s.rings.v[k].callee == c && Routed(s, s.rings.v[k].caller, vm)
      then s.svc.v[k := s.rings.v[k].caller] else s.svc.v
  {
    hide Freed;
  }

  lemma {:induction false} DropServices(s: State, e: Event, x: Sock, id: CallId)
    requires Inv(s) && e.EDisconnect?
    ensures ServicesOk(s, e, Step(s, e), x, id)
  {
    var c := e.c;
    if c in s.userOf.v && c in s.callOf.v {
      var k, s0 := s.callOf.v[c], s.(callOf := Cell(s.callOf.v - {c}));
      OneTable(s, k);
      assert k in s.rings.v ==> s.rings.v[k].caller != s.rings.v[k].callee;
      assert forall y :: Online(s0, y) == Online(s, y);
      LeaveServed(s0, c, k, e.vm);
      assert Step(s, e).svc == LeaveCall(s0, c, k, e.vm).svc;
      hide Inv, Step, LeaveCall, Online;
    }
    hide Inv, LeaveCall, Online;
  }

  // ---- The queue ----

  lemma {:induction false} PlainQueue(s: State, e: Event)
    requires e.EServiceCall? || e.EPlaceCross? || e.EAnswer? || e.ELocalIce? || e.ERingTimeout? || e.EInboundTimeout?
      || e.EInboundSelfEnd? || e.ELocalSelfEnd? || e.EStreamOpen? || e.EInIce? || e.EOutEvent? || e.EOutEnd?
    ensures Step(s, e).pending == s.pending
  {
    hide Put, Freed, Unqueued, Others, Each, Online;
  }

  lemma {:induction false} KeptQueue(s: State, e: Event, n: Number, p: Pending)
    requires e.EServiceCall? || e.EPlaceCross? || e.EAnswer? || e.ELocalIce? || e.ERingTimeout? || e.EInboundTimeout?
      || e.EInboundSelfEnd? || e.ELocalSelfEnd? || e.EStreamOpen? || e.EInIce? || e.EOutEvent? || e.EOutEnd?
    ensures QueueOk(s, e, Step(s, e), n, p)
  {
    hide Step;
    PlainQueue(s, e);
  }

  lemma {:induction false} NumberQueue(s: State, e: Event, n: Number, p: Pending)
    requires e.ERegister? || e.EExpire?
    ensures QueueOk(s, e, Step(s, e), n, p)
  {
    hide Put, Freed, Online;
  }

  lemma {:induction false} NewQueue(s: State, e: Event, n: Number, p: Pending)
    requires Inv(s) && (e.ECall? || e.EInInvite?)
    ensures QueueOk(s, e, Step(s, e), n, p)
  {
    hide Inv, Put, Freed, Online;
    QueuedAsleep(s, n);
  }

  lemma {:induction false} QueuedAsleep(s: State, n: Number)
    requires Inv(s)
    ensures n in s.pending.v ==> n !in s.clients.v
  {}

  /** Taking a call out of the queue by its id. */
  ghost predicate Unqueues(s: State, s': State, k: CallId) {
    forall n, p ::
      (n in s'.pending.v && s'.pending.v[n] == p) <==> n in s.pending.v && s.pending.v[n] == p && p.id != k
  }

  lemma {:induction false} HangupUnqueues(s: State, c: Sock, k: CallId, vm: Voicemail)
    requires k in s.rings.v || k in s.outLegs.v || (k in s.inLegs.v && s.inLegs.v[k].callee == Some(c)) ==>
      !Queued(s.pending.v, k)
    ensures Unqueues(s, HangupIn(s, c, k, vm), k)
  {
    hide Put, Freed, Others, Each, Online;
  }

  lemma {:induction false} LeaveUnqueues(s: State, c: Sock, k: CallId, vm: Voicemail)
    ensures Unqueues(s, LeaveCall(s, c, k, vm), k)
  {
    var s1 := CloseLeg(s, c, k, Disconnected);
    var s2 := s1.(pending := Cell(Unqueued(s1.pending.v, k)));
    assert Unqueues(s, s2, k);
    hide CloseLeg, Unqueued, Others, Each;
    assert LeaveRing(s2, c, k, vm).pending == s2.pending by { hide Freed, Online; }
    hide LeaveRing;
  }

  lemma {:induction false} RouteQueue(s: State, r: Ring, k: CallId, vm: Voicemail, why: Reason)
    ensures RouteLocalOr(s, r, k, vm, why).pending == s.pending
  {}

  lemma {:induction false} LeavingQueue(s: State, e: Event, n: Number, p: Pending)
    requires Inv(s) && (e.EHangup? || e.EDecline?)
    ensures QueueOk(s, e, Step(s, e), n, p)
  {
    hide Inv, HangupIn, RouteLocalOr, Freed, Queued;
    var c := e.c;
    if e.EDecline? && c in s.userOf.v && Meant(s, c, e.asked).Some? && TurnsDown(s, e, Meant(s, c, e.asked).value) {
      var k := Meant(s, c, e.asked).value;
      RouteQueue(s.(rings := Cell(s.rings.v - {k}), callOf := Cell(Freed(s.callOf.v, c, k))), s.rings.v[k], k, e.vm,
                 Declined);
    } else if c in s.userOf.v && c in s.callOf.v {
      var k, s0 := s.callOf.v[c], s.(callOf := Cell(s.callOf.v - {c}));
      OneTable(s, k);
      PartiesOf(s, c, k);
      if e.EHangup? {
        HangupUnqueues(s0, c, k, e.vm);
      } else {
        HangupUnqueues(s0.(rings := Cell(s.rings.v - {Meant(s, c, e.asked).value})), c, k, e.vm);
      }
    }
  }

  lemma {:induction false} DropQueue(s: State, e: Event, n: Number, p: Pending)
    requires e.EDisconnect?
    ensures QueueOk(s, e, Step(s, e), n, p)
  {
    hide LeaveCall;
    var c := e.c;
    if c in s.userOf.v && c in s.callOf.v {
      LeaveUnqueues(s.(callOf := Cell(s.callOf.v - {c})), c, s.callOf.v[c], e.vm);
    }
  }

  lemma {:induction false} ByeUnqueues(s: State, k: CallId, why: Reason)
    requires Queued(s.pending.v, k) && k in s.inLegs.v ==>
      s.inLegs.v[k].service.NoService? && s.inLegs.v[k].callee.None?
    ensures Unqueues(s, InBye(s, k, why), k)
  {
    hide Freed;
  }

  lemma {:induction false} QueuedLegIdle(s: State, k: CallId)
    requires Inv(s) && Queued(s.pending.v, k) && k in s.inLegs.v
    ensures s.inLegs.v[k].service.NoService? && s.inLegs.v[k].callee.None?
  {
    var n :| n in s.pending.v && s.pending.v[n].id == k;
    QueuedFacts(s, n);
    QueuedPlace(s, n);
  }

  lemma {:induction false} ByeQueue(s: State, e: Event, n: Number, p: Pending)
    requires Inv(s) && e.EInBye?
    ensures QueueOk(s, e, Step(s, e), n, p)
  {
    hide Inv, InBye;
    if Queued(s.pending.v, e.id) && e.id in s.inLegs.v {
      QueuedLegIdle(s, e.id);
    }
    ByeUnqueues(s, e.id, e.why);
  }

  lemma {:induction false} StreamQueue(s: State, e: Event, n: Number, p: Pending)
    requires e.EInEnd?
    ensures QueueOk(s, e, Step(s, e), n, p)
  {
    hide CleanUps;
    if e.st in s.streams.v {
      CleanUpsUnqueue(s, s.streams.v[e.st], n, p);
    }
  }

  lemma {:induction false} CleanUpsUnqueue(s: State, ids: seq<CallId>, n: Number, p: Pending)
    ensures var s' := CleanUps(s, ids);
            (n in s'.pending.v && s'.pending.v[n] == p) <==> n in s.pending.v && s.pending.v[n] == p && p.id !in ids
    decreases |ids|
  {
    if ids != [] {
      CleanUpUnqueues(s, ids[0], n, p);
      hide CleanUp;
      CleanUpsUnqueue(CleanUp(s, ids[0]), ids[1..], n, p);
    }
  }

  lemma {:induction false} CleanUpUnqueues(s: State, k: CallId, n: Number, p: Pending)
    ensures var s' := CleanUp(s, k);
            (n in s'.pending.v && s'.pending.v[n] == p) <==> n in s.pending.v && s.pending.v[n] == p && p.id != k
  {
    hide Freed;
  }

  lemma {:induction false} StepQueue(s: State, e: Event, n: Number, p: Pending)
    requires Inv(s) && Possible(s, e)
    ensures QueueOk(s, e, Step(s, e), n, p)
  {
    hide Inv, Possible, Step, QueueOk;
    match e
    case ERegister(_, _) => NumberQueue(s, e, n, p);
    case EExpire(_, _) => NumberQueue(s, e, n, p);
    case ECall(_, _, _, _, _, _) => NewQueue(s, e, n, p);
    case EInInvite(_, _, _, _, _, _) => NewQueue(s, e, n, p);
    case EHangup(_, _) => LeavingQueue(s, e, n, p);
    case EDecline(_, _, _) => LeavingQueue(s, e, n, p);
    case EDisconnect(_, _) => DropQueue(s, e, n, p);
    case EInBye(_, _) => ByeQueue(s, e, n, p);
    case EInEnd(_) => StreamQueue(s, e, n, p);
    case _ => KeptQueue(s, e, n, p);
  }

  // ---- Who is in which call ----

  /** x joins no call, and is told of no end. */
  ghost predicate Idle(s: State, e: Event, x: Sock) {
    (forall k :: !Enters(s, e, x, k)) && forall id, why :: !EndedOwed(s, e, x, id, why)
  }

  lemma {:induction false} RegisterCalls(s: State, e: Event, x: Sock, id: CallId)
    requires e.ERegister?
    ensures CallsOk(s, e, Step(s, e), x, id)
  {
    assert forall why :: !EndedOwed(s, e, x, id, why);
    hide EndedOwed, Online;
    if e.n in s.pending.v {
      var k := s.pending.v[e.n].id;
      assert forall j :: Enters(s, e, x, j) ==> j == k;
      assert Enters(s, e, x, k) ==> In(Step(s, e).callOf.v, x, k);
      assert !Enters(s, e, x, k) ==> (In(Step(s, e).callOf.v, x, id) <==> In(s.callOf.v, x, id));
    }
  }

  lemma {:induction false} PlaceCalls(s: State, e: Event, x: Sock, id: CallId)
    requires e.EServiceCall? || e.EPlaceCross?
    ensures CallsOk(s, e, Step(s, e), x, id)
  {
    assert forall why :: !EndedOwed(s, e, x, id, why);
    hide EndedOwed;
    assert forall k :: Enters(s, e, x, k) ==> k == e.id;
    assert Enters(s, e, x, e.id) ==> In(Step(s, e).callOf.v, x, e.id);
    assert !Enters(s, e, x, e.id) ==> (In(Step(s, e).callOf.v, x, id) <==> In(s.callOf.v, x, id));
  }

  /** Nobody is in a call that is not known yet. */
  lemma {:induction false} UnknownIdle(s: State, x: Sock, id: CallId)
    requires Inv(s)
    ensures id !in s.kind.v ==> !In(s.callOf.v, x, id)
  {}

  lemma {:induction false} QuietCalls(s: State, e: Event, x: Sock, id: CallId)
    requires e.EAnswer? || e.ELocalIce? || e.EInboundSelfEnd? || e.EStreamOpen? || e.EInIce?
    ensures CallsOk(s, e, Step(s, e), x, id)
  {
    assert Idle(s, e, x);
    assert Step(s, e).callOf == s.callOf;
    hide Step, Enters, EndedOwed;
  }

  /** The one reason for which x can be told of an end. */
  ghost predicate OnlyFor(s: State, e: Event, x: Sock, id: CallId, why: Reason) {
    forall w :: EndedOwed(s, e, x, id, w) ==> w == why
  }

  lemma {:induction false} InviteCalls(s: State, e: Event, x: Sock, id: CallId)
    requires e.EInInvite?
    ensures CallsOk(s, e, Step(s, e), x, id)
  {
    assert forall why :: !EndedOwed(s, e, x, id, why);
    hide EndedOwed, Put;
    assert forall k :: Enters(s, e, x, k) ==> k == e.id;
    assert Enters(s, e, x, e.id) ==> In(Step(s, e).callOf.v, x, e.id);
    assert !Enters(s, e, x, e.id) ==> (In(Step(s, e).callOf.v, x, id) <==> In(s.callOf.v, x, id));
  }

  /** x joins call k, and nothing else; or is told that k is over. */
  ghost predicate Hears(s: State, e: Event, k: CallId, x: Sock, joins: bool, told: bool) {
    && (forall j :: Enters(s, e, x, j) <==> j == k && joins)
    && (forall id :: ToldOver(s, e, x, id) <==> id == k && told)
  }

  /** Into which call placing a call puts x, if any. */
  predicate CallPuts(s: State, e: Event, x: Sock)
    requires e.ECall?
  {
    && e.c in s.userOf.v
    && if e.n in s.clients.v then x == e.c || x == s.clients.v[e.n]
       else x == e.c && (e.line == Push(true) || (!e.line.Unknown? && Routed(s, x, e.vm)))
  }

  lemma {:induction false} CallHears(s: State, e: Event, k: CallId, x: Sock)
    requires e.ECall? && e.id != e.id2 && k == if e.n !in s.clients.v && e.line == Push(false) then e.id2 else e.id
    ensures Hears(s, e, k, x, CallPuts(s, e, x), false)
  {
    hide Online;
  }

  lemma {:induction false} CallMoves(s: State, e: Event, k: CallId, x: Sock, id: CallId)
    requires e.ECall? && k == if e.n !in s.clients.v && e.line == Push(false) then e.id2 else e.id
    ensures In(Step(s, e).callOf.v, x, id) <==>
              if CallPuts(s, e, x) then id == k
              else In(s.callOf.v, x, id)
                   && !(x == e.c && x in s.userOf.v && e.n !in s.clients.v && e.line == Push(false))
  {}

  lemma {:induction false} CallCalls(s: State, e: Event, x: Sock, id: CallId)
    requires Possible(s, e) && e.ECall?
    ensures CallsOk(s, e, Step(s, e), x, id)
  {
    hide Step, CallPuts, Enters, ToldOver;
    var k := if e.n !in s.clients.v && e.line == Push(false) then e.id2 else e.id;
    CallHears(s, e, k, x);
    CallMoves(s, e, k, x, id);
    var joins, told := Enters(s, e, x, k), ToldOver(s, e, x, id);
  }

  /** Who is in which call once a caller has been recorded, or told that the call is over. */
  lemma {:induction false} RouteIn(s: State, r: Ring, k: CallId, vm: Voicemail, why: Reason, x: Sock, id: CallId)
    ensures In(RouteLocalOr(s, r, k, vm, why).callOf.v, x, id) <==>
              if x == r.caller && Routed(s, x, vm) then id == k
              else In(s.callOf.v, x, id) && !(x == r.caller && id == k)
  {
    hide Online;
  }

  lemma {:induction false} EndIn(s: State, c: Sock, k: CallId, why: Reason, x: Sock, id: CallId)
    ensures In(End(s, c, k, why).callOf.v, x, id) <==> In(s.callOf.v, x, id) && !(x == c && id == k)
  {}

  lemma {:induction false} RingTimeoutCalls(s: State, e: Event, x: Sock, id: CallId)
    requires Inv(s) && e.ERingTimeout?
    ensures CallsOk(s, e, Step(s, e), x, id)
  {
    hide Inv, RouteLocalOr, End;
    var k := e.id;
    assert forall w :: EndedOwed(s, e, x, id, w) ==> w.NoAnswer?;
    assert EndedOwed(s, e, x, id, NoAnswer) <==>
             k == id && k in s.rings.v
             && (x == s.rings.v[k].callee || (x == s.rings.v[k].caller && Online(s, x) && !e.vm.Works?));
    assert forall j :: Enters(s, e, x, j) ==> j == k;
    hide EndedOwed;
    if k in s.rings.v {
      RingFacts(s, k);
      var r := s.rings.v[k];
      var s0 := s.(rings := Cell(s.rings.v - {k}));
      var s1 := End(s0, r.callee, k, NoAnswer);
      EndIn(s0, r.callee, k, NoAnswer, x, id);
      EndFrames(s0, r.callee, k, NoAnswer);
      RouteIn(s1, r, k, e.vm, NoAnswer, x, id);
      SameOnline(s, s1, r.caller);
      hide Online;
      assert Enters(s, e, x, k) <==> x == r.caller && Online(s, x) && e.vm.Works?;
    }
  }

  lemma {:induction false} EndFrames(s: State, c: Sock, k: CallId, why: Reason)
    ensures var s' := End(s, c, k, why); s'.clients == s.clients && s'.userOf == s.userOf
  {}

  lemma {:induction false} ExpireCalls(s: State, e: Event, x: Sock, id: CallId)
    requires e.EExpire?
    ensures CallsOk(s, e, Step(s, e), x, id)
  {
    hide RouteLocalOr, Put;
    assert forall w :: EndedOwed(s, e, x, id, w) ==> w.NoAnswer?;
    assert EndedOwed(s, e, x, id, NoAnswer) <==>
             e.n in s.pending.v && s.pending.v[e.n] == Waiting(id, x) && Online(s, x) && !e.vm.Works?;
    hide EndedOwed;
    if e.n in s.pending.v && s.pending.v[e.n].Waiting? {
      var k, c, s1 := s.pending.v[e.n].id, s.pending.v[e.n].caller, s.(pending := Cell(s.pending.v - {e.n}));
      assert forall j :: Enters(s, e, x, j) ==> j == k;
      assert Enters(s, e, x, k) <==> x == c && Online(s, x) && e.vm.Works?;
      SameOnline(s, s1, c);
      hide Online;
      RouteIn(s1, Ring(c, c, e.n), k, e.vm, NoAnswer, x, id);
    } else {
      assert forall j :: !Enters(s, e, x, j);
    }
  }

  lemma {:induction false} OneEndCalls(s: State, e: Event, x: Sock, id: CallId)
    requires e.EInboundTimeout? || e.ELocalSelfEnd? || e.EInBye?
    ensures CallsOk(s, e, Step(s, e), x, id)
  {
    hide Put, Unqueued, Online;
    assert forall j :: !Enters(s, e, x, j);
    hide Enters;
    var w := match e case EInboundTimeout(_, _) => NoAnswer case ELocalSelfEnd(_, _) => VoicemailComplete
             case EInBye(_, why) => why;
    assert OnlyFor(s, e, x, id, w);
    assert EndedOwed(s, e, x, id, w) ==> !In(Step(s, e).callOf.v, x, id);
  }

  lemma {:induction false} OutCalls(s: State, e: Event, x: Sock, id: CallId)
    requires e.EOutEvent? || e.EOutEnd?
    ensures CallsOk(s, e, Step(s, e), x, id)
  {
    hide Online;
    assert forall j :: !Enters(s, e, x, j);
    hide Enters;
    var w := match e case EOutEvent(_, m) => (if m.Bye? || m.Busy? then m.why else HungUp) case _ => Disconnected;
    assert OnlyFor(s, e, x, id, w);
    assert EndedOwed(s, e, x, id, w) ==> !In(Step(s, e).callOf.v, x, id);
  }

  lemma {:induction false} StreamCalls(s: State, e: Event, x: Sock, id: CallId)
    requires e.EInEnd?
    ensures CallsOk(s, e, Step(s, e), x, id)
  {
    hide CleanUps;
    assert forall j :: !Enters(s, e, x, j);
    assert OnlyFor(s, e, x, id, Disconnected);
    if e.st in s.streams.v {
      CleanUpsFree(s, s.streams.v[e.st], x, id);
      assert EndedOwed(s, e, x, id, Disconnected) <==> id in s.streams.v[e.st] && HeldBy(s, x, id);
    }
  }

  lemma {:induction false} CleanUpsFree(s: State, ids: seq<CallId>, x: Sock, id: CallId)
    ensures In(CleanUps(s, ids).callOf.v, x, id) <==> In(s.callOf.v, x, id) && !(id in ids && HeldBy(s, x, id))
    decreases |ids|
  {
    if ids != [] {
      CleanUpFrees(s, ids[0], x, id);
      hide CleanUp, HeldBy;
      CleanUpsFree(CleanUp(s, ids[0]), ids[1..], x, id);
    }
  }

  lemma {:induction false} CleanUpFrees(s: State, k: CallId, x: Sock, id: CallId)
    ensures In(CleanUp(s, k).callOf.v, x, id) <==> In(s.callOf.v, x, id) && !(id == k && HeldBy(s, x, id))
    ensures HeldBy(CleanUp(s, k), x, id) <==> HeldBy(s, x, id) && id != k
  {
    hide Unqueued;
  }

  /** Who is in which call once c has hung up. */
  lemma {:induction false} HangupFrees(s: State, c: Sock, k: CallId, vm: Voicemail, x: Sock, id: CallId)
    requires c !in s.callOf.v
    ensures In(HangupIn(s, c, k, vm).callOf.v, x, id) <==>
              if k in s.rings.v then
                var r := s.rings.v[k];
                if r.callee == c then
                  if x == r.caller && Routed(s, x, vm) then id == k
                  else In(s.callOf.v, x, id) && !(x == r.caller && id == k)
                else In(s.callOf.v, x, id) && !(x == r.callee && id == k)
              else
                && In(s.callOf.v, x, id)
                && (Declinable(s, c, k) || OnLeg(s, c, k) || Queued(s.pending.v, k) || k in s.svc.v
                    || x !in Others(s, c, k))
  {
    if k in s.rings.v {
      var r, s1 := s.rings.v[k], s.(rings := Cell(s.rings.v - {k}));
      assert Routed(s1, x, vm) == Routed(s, x, vm);
      hide RouteLocalOr, Routed, End, Queued, OnLeg, Declinable, CloseLeg, EndOthers;
      RouteIn(s1, r, k, vm, Declined, x, id);
      EndIn(s1, r.callee, k, HungUp, x, id);
    } else {
      hide RouteLocalOr, Routed, End, Queued, Unqueued, Put;
    }
  }

  lemma {:induction false} HangupHears(s: State, e: Event, k: CallId, x: Sock)
    requires HangsUp(s, e, k)
    ensures var vm := Recording(e);
            if StillRings(s, e, k) then
              var r := s.rings.v[k];
              Hears(s, e, k, x, r.callee == e.c && x == r.caller && Routed(s, x, vm),
                    if r.callee == e.c then x == r.caller && !Routed(s, x, vm) else x == r.callee)
            else Hears(s, e, k, x, false, k !in s.svc.v && Peer(s, x, e.c, k))
  {
    hide Peer, Online;
    var told := EndedOwed(s, e, x, k, Declined) || EndedOwed(s, e, x, k, HungUp);
    assert forall id, w :: EndedOwed(s, e, x, id, w) ==> id == k && (w.Declined? || w.HungUp?);
  }

  lemma {:induction false} HungCalls(s: State, s1: State, e: Event, k: CallId, x: Sock, id: CallId)
    requires Inv(s) && HangsUp(s, e, k) && s1 == s.(rings := s1.rings, callOf := Cell(s.callOf.v - {e.c}))
    requires k in s1.rings.v <==> StillRings(s, e, k)
    requires k in s1.rings.v ==> s1.rings.v[k] == s.rings.v[k]
    ensures CallsOk(s, e, HangupIn(s1, e.c, k, Recording(e)), x, id)
  {
    var c, vm := e.c, Recording(e);
    hide Inv, HangupIn, RouteLocalOr, ToldOver, Enters;
    OneTable(s, k);
    PartiesOf(s, c, k);
    PeerIsOther(s, x, c, k);
    SameOthers(s, s1, c, k);
    SameOnline(s, s1, x);
    HangupFrees(s1, c, k, vm, x, id);
    HangupHears(s, e, k, x);
    var joins, told := Enters(s, e, x, k), ToldOver(s, e, x, id);
    hide Others, Queued, Online;
  }

  lemma {:induction false} SameOthers(s: State, s1: State, c: Sock, k: CallId)
    requires s1.clients == s.clients && s1.callOf.v == s.callOf.v - {c}
    ensures Others(s1, c, k) == Others(s, c, k)
  {}

  lemma {:induction false} TurnDownCalls(s: State, e: Event, k: CallId, x: Sock, id: CallId)
    requires Inv(s) && TurnsDown(s, e, k)
    ensures CallsOk(s, e, Step(s, e), x, id)
  {
    hide Inv, Online, Freed;
    var s0 := s.(rings := Cell(s.rings.v - {k}));
    var s1 := s0.(callOf := Cell(Freed(s.callOf.v, e.c, k)));
    SameOnline(s, s1, s.rings.v[k].caller);
    RouteIn(s1, s.rings.v[k], k, e.vm, Declined, x, id);
    FreedIn(s.callOf.v, e.c, k, x, id);
    RingFacts(s, k);
    assert Step(s, e) == RouteLocalOr(s1, s.rings.v[k], k, e.vm, Declined);
    hide Step, RouteLocalOr;
    TurnDownHears(s, e, k, x);
    var joins, told := Enters(s, e, x, k), ToldOver(s, e, x, id);
    hide ToldOver, Enters;
  }

  lemma {:induction false} FreedIn(callOf: map<Sock, CallId>, c: Sock, k: CallId, x: Sock, id: CallId)
    ensures In(Freed(callOf, c, k), x, id) <==> In(callOf, x, id) && !(x == c && id == k)
  {}

  lemma {:induction false} TurnDownHears(s: State, e: Event, k: CallId, x: Sock)
    requires TurnsDown(s, e, k)
    ensures var r := s.rings.v[k];
            Hears(s, e, k, x, x == r.caller && Routed(s, x, e.vm), x == r.caller && !Routed(s, x, e.vm))
  {
    hide Online;
    var told := EndedOwed(s, e, x, k, Declined);
    assert forall id, w :: EndedOwed(s, e, x, id, w) ==> id == k && w.Declined?;
  }

  lemma {:induction false} HangupCalls(s: State, e: Event, x: Sock, id: CallId)
    requires Inv(s) && (e.EHangup? || e.EDecline?)
    ensures CallsOk(s, e, Step(s, e), x, id)
  {
    var c := e.c;
    hide Inv, HangupIn, RouteLocalOr, CallsOk;
    if c in s.userOf.v && (e.EDecline? ==> Meant(s, c, e.asked).Some?) {
      var s1 := if e.EHangup? then s else s.(rings := Cell(s.rings.v - {Meant(s, c, e.asked).value}));
      if e.EDecline? && TurnsDown(s, e, Meant(s, c, e.asked).value) {
        TurnDownCalls(s, e, Meant(s, c, e.asked).value, x, id);
      } else if c in s.callOf.v {
        HungCalls(s, s1.(callOf := Cell(s.callOf.v - {c})), e, s.callOf.v[c], x, id);
      } else {
        IdleCalls(s, e, x, id);
      }
    } else {
      IdleCalls(s, e, x, id);
    }
  }

  lemma {:induction false} IdleCalls(s: State, e: Event, x: Sock, id: CallId)
    requires e.EHangup? || e.EDecline?
    requires e.c !in s.userOf.v || (e.c !in s.callOf.v && forall k :: !TurnsDown(s, e, k))
    ensures CallsOk(s, e, Step(s, e), x, id)
  {
    assert Idle(s, e, x) by { hide Step; }
    IdleSame(s, e);
    hide Step, Enters, EndedOwed;
  }

  lemma {:induction false} IdleSame(s: State, e: Event)
    requires e.EHangup? || e.EDecline?
    requires e.c !in s.userOf.v || (e.c !in s.callOf.v && forall k :: !TurnsDown(s, e, k))
    ensures Step(s, e).callOf == s.callOf
  {
    if e.EDecline? && e.asked.Some? {
      assert !TurnsDown(s, e, e.asked.value) || e.c !in s.userOf.v;
    }
    hide RouteLocalOr, HangupIn;
  }

  /** Who is in which call once c's socket has closed. */
  lemma {:induction false} LeaveFrees(s: State, c: Sock, k: CallId, vm: Voicemail, x: Sock, id: CallId)
    requires c !in s.callOf.v && (k in s.rings.v ==> s.rings.v[k].caller != s.rings.v[k].callee)
    requires x in s.clients.v.Values <==> Online(s, x)
    ensures In(LeaveCall(s, c, k, vm).callOf.v, x, id) <==>
              && In(s.callOf.v, x, id)
              && !(id == k && (Online(s, x)
                 || (k in s.rings.v && s.rings.v[k].caller == c && x == s.rings.v[k].callee)))
              && !(k in s.rings.v && s.rings.v[k].callee == c && x == s.rings.v[k].caller && Online(s, x) && vm.Works?)
  {
    var s1 := CloseLeg(s, c, k, Disconnected);
    var s2 := s1.(pending := Cell(Unqueued(s1.pending.v, k)));
    LeaveFrames(s, c, k);
    SameOnline(s, s2, x);
    LeaveRingIn(s2, c, k, vm, x, id);
    var s3 := LeaveRing(s2, c, k, vm);
    LeaveFrames(s3, c, k);
    hide CloseLeg, Unqueued, LeaveRing, LeaveService, Online;
  }

  lemma {:induction false} LeaveRingIn(s: State, c: Sock, k: CallId, vm: Voicemail, x: Sock, id: CallId)
    requires k in s.rings.v ==> s.rings.v[k].caller != s.rings.v[k].callee
    ensures var s' := LeaveRing(s, c, k, vm);
            && s'.clients == s.clients
            && (In(s'.callOf.v, x, id) <==>
                  if k in s.rings.v && s.rings.v[k].callee == c && x == s.rings.v[k].caller && Online(s, x) && vm.Works?
                  then id == k
                  else
                    && In(s.callOf.v, x, id)
                    && !(id == k && k in s.rings.v
                         && if s.rings.v[k].callee == c then x == s.rings.v[k].caller && Online(s, x)
                            else s.rings.v[k].caller == c && x == s.rings.v[k].callee))
  {}

  lemma {:induction false} DropHears(s: State, e: Event, k: CallId, x: Sock)
    requires Drops(s, e, k)
    ensures Hears(s, e, k, x,
                  k in s.rings.v && s.rings.v[k].callee == e.c && x == s.rings.v[k].caller && Routed(s, x, e.vm),
                  Peer(s, x, e.c, k)
                  || (k in s.rings.v && s.rings.v[k].callee == e.c && x == s.rings.v[k].caller && Online(s, x))
                  || (k in s.rings.v && s.rings.v[k].caller == e.c && x == s.rings.v[k].callee))
  {
    hide Peer, Online;
    var told := EndedOwed(s, e, x, k, Disconnected);
    assert forall id, w :: EndedOwed(s, e, x, id, w) ==> id == k && w.Disconnected?;
  }

  lemma {:induction false} DropCalls(s: State, e: Event, x: Sock, id: CallId)
    requires Inv(s) && e.EDisconnect?
    ensures CallsOk(s, e, Step(s, e), x, id)
  {
    hide Inv, LeaveCall, Online;
    var c := e.c;
    if c in s.userOf.v && c in s.callOf.v {
      var k, s0 := s.callOf.v[c], s.(callOf := Cell(s.callOf.v - {c}));
      if k in s.rings.v { RingFacts(s, k); }
      ListedIsOnline(s, x);
      SameOnline(s, s0, x);
      LeaveFrees(s0, c, k, e.vm, x, id);
      DropHears(s, e, k, x);
      var joins, told := Enters(s, e, x, k), ToldOver(s, e, x, id);
      hide ToldOver, Enters;
    } else {
      assert Idle(s, e, x);
      hide ToldOver, Enters;
    }
  }

  lemma {:induction false} StepCalls(s: State, e: Event, x: Sock, id: CallId)
    requires Inv(s) && Possible(s, e)
    ensures CallsOk(s, e, Step(s, e), x, id)
  {
    hide Inv, Possible, Step, CallsOk;
    match e
    case ERegister(_, _) => RegisterCalls(s, e, x, id);
    case EDisconnect(_, _) => DropCalls(s, e, x, id);
    case ECall(_, _, _, _, _, _) => CallCalls(s, e, x, id);
    case EServiceCall(_, _, _) => PlaceCalls(s, e, x, id);
    case EPlaceCross(_, _, _, _) => PlaceCalls(s, e, x, id);
    case EHangup(_, _) => HangupCalls(s, e, x, id);
    case EDecline(_, _, _) => HangupCalls(s, e, x, id);
    case ERingTimeout(_, _) => RingTimeoutCalls(s, e, x, id);
    case EExpire(_, _) => ExpireCalls(s, e, x, id);
    case EInInvite(_, _, _, _, _, _) => InviteCalls(s, e, x, id);
    case EInEnd(_) => StreamCalls(s, e, x, id);
    case EAnswer(_, _, _) => QuietCalls(s, e, x, id);
    case ELocalIce(_, _, _) => QuietCalls(s, e, x, id);
    case EInboundSelfEnd(_) => QuietCalls(s, e, x, id);
    case EStreamOpen(_) => QuietCalls(s, e, x, id);
    case EInIce(_, _) => QuietCalls(s, e, x, id);
    case EOutEvent(_, _) => OutCalls(s, e, x, id);
    case EOutEnd(_, _) => OutCalls(s, e, x, id);
    case _ => OneEndCalls(s, e, x, id);
  }

  // ---- Legs ----

  lemma {:induction false} PlainLegs(s: State, e: Event, id: CallId)
    requires e.ECall? || e.EServiceCall? || e.EPlaceCross? || e.ELocalIce? || e.ERingTimeout? || e.ELocalSelfEnd?
      || e.EStreamOpen? || e.EOutEvent? || e.EOutEnd?
    ensures LegsOk(s, e, Step(s, e), id)
  {
    assert Step(s, e).inLegs == s.inLegs by { hide Put, Freed, Unqueued, Others, Each, Online; }
    hide Step;
  }

  lemma {:induction false} RegisterLegs(s: State, e: Event, id: CallId)
    requires e.ERegister?
    ensures LegsOk(s, e, Step(s, e), id)
  {
    hide Online;
  }

  lemma {:induction false} AnswerLegs(s: State, e: Event, id: CallId)
    requires e.EAnswer? || e.EInIce?
    ensures LegsOk(s, e, Step(s, e), id)
  {
    hide Others, Put;
  }

  lemma {:induction false} SelfEndLegs(s: State, e: Event, id: CallId)
    requires e.EInboundSelfEnd? || e.EInBye?
    ensures LegsOk(s, e, Step(s, e), id)
  {
    hide Put, Freed, Unqueued;
    var ends := Sends(s, e, id, Bye(VoicemailComplete));
    assert forall why :: Sends(s, e, id, Bye(why)) ==> why.VoicemailComplete?;
  }

  lemma {:induction false} StreamLegs(s: State, e: Event, id: CallId)
    requires e.EInEnd?
    ensures LegsOk(s, e, Step(s, e), id)
  {
    hide CleanUps;
    assert forall why :: !Sends(s, e, id, Bye(why));
    if e.st in s.streams.v {
      CleanUpsLegs(s, s.streams.v[e.st], id);
    }
  }

  lemma {:induction false} CleanUpsLegs(s: State, ids: seq<CallId>, id: CallId)
    ensures id in CleanUps(s, ids).inLegs.v <==> id in s.inLegs.v && id !in ids
    ensures id in CleanUps(s, ids).inLegs.v ==> CleanUps(s, ids).inLegs.v[id] == s.inLegs.v[id]
    decreases |ids|
  {
    hide Freed, Unqueued;
    if ids != [] {
      CleanUpsLegs(CleanUp(s, ids[0]), ids[1..], id);
    }
  }

  lemma {:induction false} InviteLegs(s: State, e: Event, id: CallId)
    requires e.EInInvite? && e.id !in s.inLegs.v
    ensures LegsOk(s, e, Step(s, e), id)
  {
    hide Put;
    assert forall why :: !Sends(s, e, id, Bye(why));
  }

  /** What becomes of a leg whose caller is to be recorded. */
  lemma {:induction false} RouteLegs(s: State, leg: Leg, k: CallId, vm: Voicemail, m: PeerMsg)
    ensures RouteInboundOr(s, leg, k, vm, m).inLegs.v ==
      if vm.Works? then s.inLegs.v[k := leg.(callee := None, service := Recorder, answered := true)]
      else s.inLegs.v - {k}
  {}

  lemma {:induction false} RouteLocalKeeps(s: State, r: Ring, k: CallId, vm: Voicemail, why: Reason)
    ensures RouteLocalOr(s, r, k, vm, why).inLegs == s.inLegs
  {}

  lemma {:induction false} TimeoutLegs(s: State, e: Event, id: CallId)
    requires e.EInboundTimeout?
    ensures LegsOk(s, e, Step(s, e), id)
  {
    hide RouteInboundOr, Freed;
    var k := e.id;
    var ends := Sends(s, e, id, Bye(NoAnswer));
    assert forall why :: Sends(s, e, id, Bye(why)) ==> why.NoAnswer?;
    if k in s.inLegs.v && s.inLegs.v[k].callee.Some? {
      RouteLegs(End(s, s.inLegs.v[k].callee.value, k, NoAnswer), Quiet(s.inLegs.v[k]), k, e.vm, Bye(NoAnswer));
    }
  }

  lemma {:induction false} ExpireLegs(s: State, e: Event, id: CallId)
    requires Inv(s) && e.EExpire?
    ensures LegsOk(s, e, Step(s, e), id)
  {
    hide Inv, RouteInboundOr, RouteLocalOr, Online;
    var ends := Sends(s, e, id, Bye(NoAnswer));
    assert forall why :: Sends(s, e, id, Bye(why)) ==> why.NoAnswer?;
    if e.n in s.pending.v {
      QueuedFacts(s, e.n);
      var s1 := s.(pending := Cell(s.pending.v - {e.n}));
      match s.pending.v[e.n]
      case Remote(k) => RouteLegs(s1, s.inLegs.v[k], k, e.vm, Bye(NoAnswer));
      case Waiting(k, c) => RouteLocalKeeps(s1, Ring(c, c, e.n), k, e.vm, NoAnswer);
    }
  }

  lemma {:induction false} CloseLegs(s: State, c: Sock, k: CallId, why: Reason)
    ensures CloseLeg(s, c, k, why).inLegs.v
      == if k !in s.outLegs.v && OnLeg(s, c, k) then s.inLegs.v - {k} else s.inLegs.v
  {}

  lemma {:induction false} LeaveLegs(s: State, c: Sock, k: CallId, vm: Voicemail)
    ensures LeaveCall(s, c, k, vm).inLegs == CloseLeg(s, c, k, Disconnected).inLegs
  {
    hide CloseLeg, Unqueued, Others, Freed, Online;
  }

  lemma {:induction false} DropLegs(s: State, e: Event, id: CallId)
    requires Inv(s) && e.EDisconnect?
    ensures LegsOk(s, e, Step(s, e), id)
  {
    hide Inv, LeaveCall, CloseLeg;
    var c := e.c;
    var ends := Sends(s, e, id, Bye(Disconnected));
    assert forall why :: Sends(s, e, id, Bye(why)) ==> why.Disconnected?;
    if c in s.userOf.v && c in s.callOf.v {
      var k, s0 := s.callOf.v[c], s.(callOf := Cell(s.callOf.v - {c}));
      OneTable(s, k);
      LeaveLegs(s0, c, k, e.vm);
      CloseLegs(s0, c, k, Disconnected);
    }
  }

  lemma {:induction false} HangupLegs(s: State, c: Sock, k: CallId, vm: Voicemail)
    requires k in s.rings.v ==> k !in s.inLegs.v && k !in s.outLegs.v
    ensures HangupIn(s, c, k, vm).inLegs.v ==
      if Declinable(s, c, k) then
        (if vm.Works? then s.inLegs.v[k := Quiet(s.inLegs.v[k]).(service := Recorder, answered := true)]
         else s.inLegs.v - {k})
      else if k !in s.outLegs.v && OnLeg(s, c, k) then s.inLegs.v - {k} else s.inLegs.v
  {
    hide Freed, Unqueued, Others, Online;
    CloseLegs(s, c, k, HungUp);
    if Declinable(s, c, k) {
      RouteLegs(s.(callOf := Cell(Freed(s.callOf.v, c, k))), Quiet(s.inLegs.v[k]), k, vm, Bye(Declined));
    }
    hide CloseLeg, RouteInboundOr;
  }

  lemma {:induction false} HungLegs(s: State, s1: State, e: Event, k: CallId, id: CallId)
    requires Inv(s) && HangsUp(s, e, k) && s1 == s.(rings := s1.rings, callOf := s1.callOf)
    requires k in s1.rings.v ==> k in s.rings.v
    ensures LegsOk(s, e, HangupIn(s1, e.c, k, Recording(e)), id)
  {
    hide Inv, HangupIn;
    var c, vm := e.c, Recording(e);
    OneTable(s, k);
    HangupLegs(s1, c, k, vm);
    var ends := Sends(s, e, id, Bye(HungUp)) || Sends(s, e, id, Bye(Declined));
    assert forall why :: Sends(s, e, id, Bye(why)) ==> why.HungUp? || why.Declined?;
  }

  lemma {:induction false} LeavingLegs(s: State, e: Event, id: CallId)
    requires Inv(s) && (e.EHangup? || e.EDecline?)
    ensures LegsOk(s, e, Step(s, e), id)
  {
    hide Inv, HangupIn, RouteLocalOr;
    var c := e.c;
    if c in s.userOf.v && (e.EDecline? ==> Meant(s, c, e.asked).Some?) {
      var s1 := if e.EHangup? then s else s.(rings := Cell(s.rings.v - {Meant(s, c, e.asked).value}));
      if e.EDecline? && TurnsDown(s, e, Meant(s, c, e.asked).value) {
        var k := Meant(s, c, e.asked).value;
        RouteLocalKeeps(s1.(callOf := Cell(Freed(s.callOf.v, c, k))), s.rings.v[k], k, e.vm, Declined);
      } else if c in s.callOf.v {
        HungLegs(s, s1.(callOf := Cell(s.callOf.v - {c})), e, s.callOf.v[c], id);
        hide LegsOk;
      }
    }
  }

  lemma {:induction false} StepLegsOk(s: State, e: Event, id: CallId)
    requires Inv(s) && Possible(s, e)
    ensures LegsOk(s, e, Step(s, e), id)
  {
    hide Inv, Possible, Step, LegsOk;
    match e
    case ERegister(_, _) => RegisterLegs(s, e, id);
    case EDisconnect(_, _) => DropLegs(s, e, id);
    case EAnswer(_, _, _) => AnswerLegs(s, e, id);
    case EHangup(_, _) => LeavingLegs(s, e, id);
    case EDecline(_, _, _) => LeavingLegs(s, e, id);
    case EExpire(_, _) => ExpireLegs(s, e, id);
    case EInboundTimeout(_, _) => TimeoutLegs(s, e, id);
    case EInboundSelfEnd(_) => SelfEndLegs(s, e, id);
    case EInInvite(_, _, _, _, _, _) => FreshLeg(s, e); InviteLegs(s, e, id);
    case EInIce(_, _) => AnswerLegs(s, e, id);
    case EInBye(_, _) => SelfEndLegs(s, e, id);
    case EInEnd(_) => StreamLegs(s, e, id);
    case _ => PlainLegs(s, e, id);
  }

  lemma {:induction false} FreshLeg(s: State, e: Event)
    requires Inv(s) && Possible(s, e) && e.EInInvite?
    ensures e.id !in s.inLegs.v && e.id !in s.svc.v
  {}

  // ---- Services ----

  /** Nothing is ended, and nothing fed. */
  predicate Undone(s: State, s': State) {
    s'.ended == s.ended && s'.fed == s.fed
  }

  /** As if `once` had ended, and cs been fed to, the service of call k. */
  ghost predicate Done(s: State, s': State, k: CallId, once: bool, cs: seq<Candidate>) {
    && s'.ended.v == (if once then s.ended.v + multiset{k} else s.ended.v)
    && (forall id :: At(s'.fed.v, id) == At(s.fed.v, id) + if id == k then cs else [])
  }

  predicate AskedOk(s: State, e: Event, s': State, id: CallId) {
    EndsOk(s, e, s', id) && FeedsOk(s, e, s', id)
  }

  lemma {:induction false} PlainAsks(s: State, e: Event, id: CallId)
    requires e.ERegister? || e.ECall? || e.EServiceCall? || e.EPlaceCross? || e.EAnswer? || e.ERingTimeout?
      || e.EInboundSelfEnd? || e.EStreamOpen? || e.EOutEvent? || e.EOutEnd?
    ensures AskedOk(s, e, Step(s, e), id)
  {
    hide Step, ServiceTold, Handed;
    PlainUndone(s, e);
    NothingAsked(s, e, id);
  }

  lemma {:induction false} NothingAsked(s: State, e: Event, id: CallId)
    requires e.ERegister? || e.ECall? || e.EServiceCall? || e.EPlaceCross? || e.EAnswer? || e.ERingTimeout?
      || e.EInboundSelfEnd? || e.EStreamOpen? || e.EOutEvent? || e.EOutEnd?
    ensures !ServiceTold(s, e, id) && Handed(s, e, id) == []
  {}

  lemma {:induction false} PlainUndone(s: State, e: Event)
    requires e.ERegister? || e.ECall? || e.EServiceCall? || e.EPlaceCross? || e.EAnswer? || e.ERingTimeout?
      || e.EInboundSelfEnd? || e.EStreamOpen? || e.EOutEvent? || e.EOutEnd?
    ensures Undone(s, Step(s, e))
  {
    hide Put, Freed, Unqueued, Others, Each, Online;
  }

  lemma {:induction false} IceAsks(s: State, e: Event, id: CallId)
    requires e.ELocalIce? || e.EInIce?
    ensures AskedOk(s, e, Step(s, e), id)
  {
    hide Others, Each;
  }

  lemma {:induction false} SelfEndAsks(s: State, e: Event, id: CallId)
    requires e.ELocalSelfEnd?
    ensures AskedOk(s, e, Step(s, e), id)
  {
    hide Freed;
    assert Step(s, e).fed == s.fed;
  }

  lemma {:induction false} ByeAsks(s: State, e: Event, id: CallId)
    requires e.EInBye?
    ensures AskedOk(s, e, Step(s, e), id)
  {
    hide Freed, Unqueued;
    assert Step(s, e).fed == s.fed;
  }

  lemma {:induction false} RouteDone(s: State, leg: Leg, k: CallId, vm: Voicemail, m: PeerMsg)
    ensures Done(s, RouteInboundOr(s, leg, k, vm, m), k, vm.Fails?, if vm.Works? then leg.candidates else [])
  {}

  lemma {:induction false} InviteAsks(s: State, e: Event, id: CallId)
    requires e.EInInvite? && e.id !in s.inLegs.v && e.id !in s.svc.v
    ensures AskedOk(s, e, Step(s, e), id)
  {
    InviteDone(s, e);
    hide Step;
  }

  lemma {:induction false} InviteDone(s: State, e: Event)
    requires e.EInInvite?
    ensures Done(s, Step(s, e), e.id, AnyCovered(s, e, e.id) && e.vm.Fails?, [])
  {}

  lemma {:induction false} TimeoutAsks(s: State, e: Event, id: CallId)
    requires e.EInboundTimeout?
    ensures AskedOk(s, e, Step(s, e), id)
  {
    hide RouteInboundOr, Freed;
    var k := e.id;
    if k in s.inLegs.v && s.inLegs.v[k].callee.Some? {
      RouteDone(End(s, s.inLegs.v[k].callee.value, k, NoAnswer), Quiet(s.inLegs.v[k]), k, e.vm, Bye(NoAnswer));
    }
  }

  lemma {:induction false} LocalUndone(s: State, r: Ring, k: CallId, vm: Voicemail, why: Reason)
    ensures Undone(s, RouteLocalOr(s, r, k, vm, why))
  {}

  lemma {:induction false} ExpireAsks(s: State, e: Event, id: CallId)
    requires Inv(s) && e.EExpire?
    ensures AskedOk(s, e, Step(s, e), id)
  {
    hide Inv, RouteInboundOr, RouteLocalOr, Online;
    if e.n in s.pending.v {
      QueuedFacts(s, e.n);
      var s1 := s.(pending := Cell(s.pending.v - {e.n}));
      match s.pending.v[e.n]
      case Remote(k) => RouteDone(s1, s.inLegs.v[k], k, e.vm, Bye(NoAnswer));
      case Waiting(k, c) => LocalUndone(s1, Ring(c, c, e.n), k, e.vm, NoAnswer);
    }
  }

  lemma {:induction false} LeaveDone(s: State, c: Sock, k: CallId, vm: Voicemail)
    requires k in s.rings.v ==> k !in s.svc.v && s.rings.v[k].caller != s.rings.v[k].callee
    ensures Done(s, LeaveCall(s, c, k, vm), k, k in s.svc.v && s.svc.v[k] == c, [])
  {
    var s1 := CloseLeg(s, c, k, Disconnected);
    assert Undone(s, s1) && s1.svc == s.svc && s1.rings == s.rings;
    var s2 := s1.(pending := Cell(Unqueued(s1.pending.v, k)));
    RingServed(s2, c, k, vm);
    assert Undone(s2, LeaveRing(s2, c, k, vm)) by { hide Freed, Online; }
    hide CloseLeg, Unqueued, LeaveRing, Others;
  }

  lemma {:induction false} DropAsks(s: State, e: Event, id: CallId)
    requires Inv(s) && e.EDisconnect?
    ensures AskedOk(s, e, Step(s, e), id)
  {
    hide Inv, LeaveCall;
    var c := e.c;
    if c in s.userOf.v && c in s.callOf.v {
      var k := s.callOf.v[c];
      OneTable(s, k);
      if k in s.rings.v { RingFacts(s, k); }
      LeaveDone(s.(callOf := Cell(s.callOf.v - {c})), c, k, e.vm);
    }
  }

  lemma {:induction false} HangupDone(s: State, c: Sock, k: CallId, vm: Voicemail)
    requires k in s.rings.v ==> k !in s.inLegs.v && k !in s.outLegs.v && k !in s.svc.v
    requires k in s.svc.v ==> k !in s.inLegs.v && k !in s.outLegs.v && !Queued(s.pending.v, k)
    ensures Done(s, HangupIn(s, c, k, vm), k, k in s.svc.v || (Declinable(s, c, k) && vm.Fails?),
                 if Declinable(s, c, k) && vm.Works? then s.inLegs.v[k].candidates else [])
  {
    hide Freed, Unqueued, Others, Online;
    if Declinable(s, c, k) {
      RouteDone(s.(callOf := Cell(Freed(s.callOf.v, c, k))), Quiet(s.inLegs.v[k]), k, vm, Bye(Declined));
    }
    hide RouteInboundOr;
  }

  lemma {:induction false} HungAsks(s: State, s1: State, e: Event, k: CallId, id: CallId)
    requires Inv(s) && HangsUp(s, e, k) && s1 == s.(rings := s1.rings, callOf := s1.callOf)
    requires k in s1.rings.v ==> k in s.rings.v
    ensures AskedOk(s, e, HangupIn(s1, e.c, k, Recording(e)), id)
  {
    hide Inv, HangupIn;
    OneTable(s, k);
    HangupDone(s1, e.c, k, Recording(e));
    hide Queued;
  }

  lemma {:induction false} HangupAsks(s: State, e: Event, id: CallId)
    requires Inv(s) && (e.EHangup? || e.EDecline?)
    ensures AskedOk(s, e, Step(s, e), id)
  {
    hide Inv, HangupIn, RouteLocalOr;
    var c := e.c;
    if c in s.userOf.v && (e.EDecline? ==> Meant(s, c, e.asked).Some?) {
      var s1 := if e.EHangup? then s else s.(rings := Cell(s.rings.v - {Meant(s, c, e.asked).value}));
      if e.EDecline? && TurnsDown(s, e, Meant(s, c, e.asked).value) {
        var k := Meant(s, c, e.asked).value;
        OneTable(s, k);
        LocalUndone(s1.(callOf := Cell(Freed(s.callOf.v, c, k))), s.rings.v[k], k, e.vm, Declined);
      } else if c in s.callOf.v {
        HungAsks(s, s1.(callOf := Cell(s.callOf.v - {c})), e, s.callOf.v[c], id);
        hide AskedOk;
      }
    }
  }

  lemma {:induction false} StreamAsks(s: State, e: Event, id: CallId)
    requires Inv(s) && e.EInEnd?
    ensures AskedOk(s, e, Step(s, e), id)
  {
    hide Inv, CleanUps;
    if e.st in s.streams.v {
      CleanUpsAsk(s, s.streams.v[e.st], id);
    }
  }

  lemma {:induction false} CleanUpsAsk(s: State, ids: seq<CallId>, id: CallId)
    ensures CleanUps(s, ids).fed == s.fed
    ensures CleanUps(s, ids).ended.v[id] == s.ended.v[id]
              + if id in ids && id in s.inLegs.v && !s.inLegs.v[id].service.NoService? then 1 else 0
    decreases |ids|
  {
    if ids != [] {
      CleanUpAsks(s, ids[0], id);
      hide CleanUp;
      CleanUpsAsk(CleanUp(s, ids[0]), ids[1..], id);
    }
  }

  lemma {:induction false} CleanUpAsks(s: State, k: CallId, id: CallId)
    ensures var s' := CleanUp(s, k);
            && s'.fed == s.fed
            && s'.ended.v[id] == s.ended.v[id]
                 + (if id == k && id in s.inLegs.v && !s.inLegs.v[id].service.NoService? then 1 else 0)
            && (id in s'.inLegs.v <==> id in s.inLegs.v && id != k)
            && (id in s'.inLegs.v ==> s'.inLegs.v[id] == s.inLegs.v[id])
  {
    hide Freed, Unqueued;
  }

  lemma {:induction false} StepAsks(s: State, e: Event, id: CallId)
    requires Inv(s) && Possible(s, e)
    ensures AskedOk(s, e, Step(s, e), id)
  {
    hide Inv, Possible, Step, AskedOk;
    match e
    case EDisconnect(_, _) => DropAsks(s, e, id);
    case EHangup(_, _) => HangupAsks(s, e, id);
    case EDecline(_, _, _) => HangupAsks(s, e, id);
    case ELocalIce(_, _, _) => IceAsks(s, e, id);
    case EExpire(_, _) => ExpireAsks(s, e, id);
    case EInboundTimeout(_, _) => TimeoutAsks(s, e, id);
    case ELocalSelfEnd(_, _) => SelfEndAsks(s, e, id);
    case EInInvite(_, _, _, _, _, _) => FreshLeg(s, e); InviteAsks(s, e, id);
    case EInIce(_, _) => IceAsks(s, e, id);
    case EInBye(_, _) => ByeAsks(s, e, id);
    case EInEnd(_) => StreamAsks(s, e, id);
    case _ => PlainAsks(s, e, id);
  }
}
