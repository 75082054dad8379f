/**
  Who is told what, and when.

  For every message that an exchange can send, to its sockets and on its streams, this module says exactly when a step
  sends it, whichever handler runs. The conditions go by what is said about a call and by whom, who rings, who is in
  it, who is listed, and not by what a handler does; one predicate for each kind of message. Two theorems, StepTells
  and StepSends, say that each step of an exchange sends just that, once.
 */
module CallLaws {
  import opened Options
  import opened Exchange
  import opened CallInvariants
  import opened OneCallPerLine

  // ---- What a step means for a call ----

  /** What the recorder does if it is asked in this step. */
  function Recording(e: Event): Voicemail {
    match e
    case EDisconnect(_, vm) => vm
    case ECall(_, _, _, _, _, vm) => vm
    case EHangup(_, vm) => vm
    case EDecline(_, _, vm) => vm
    case ERingTimeout(_, vm) => vm
    case EExpire(_, vm) => vm
    case EInboundTimeout(_, vm) => vm
    case EInInvite(_, _, _, _, _, vm) => vm
    case _ => Off
  }

  /** The call that a "call_decline" means: the one it names, or the one its sender is in. */
  function Meant(s: State, c: Sock, asked: Option<CallId>): Option<CallId> {
    if asked.Some? then asked else if c in s.callOf.v then Some(s.callOf.v[c]) else None
  }

  /** A call_decline for call id from a registered socket: if the call rings, it stops. */
  predicate Declines(s: State, e: Event, id: CallId) {
    e.EDecline? && e.c in s.userOf.v && Meant(s, e.c, e.asked) == Some(id)
  }

  /** It comes from the phone at which the call rings. */
  predicate TurnsDown(s: State, e: Event, id: CallId) {
    Declines(s, e, id) && id in s.rings.v && s.rings.v[id].callee == e.c
  }

  /** A call_hangup from a party to call id, or a call_decline that turns no ringing call down. */
  predicate HangsUp(s: State, e: Event, id: CallId) {
    && (e.EHangup? || e.EDecline?) && e.c in s.userOf.v && In(s.callOf.v, e.c, id)
    && (e.EDecline? ==> !TurnsDown(s, e, Meant(s, e.c, e.asked).value))
  }

  /** Call id still rings when it is hung up. */
  predicate StillRings(s: State, e: Event, id: CallId) {
    id in s.rings.v && !Declines(s, e, id)
  }

  /** The phone at which call id rings declines it, or hangs up. */
  predicate Refuses(s: State, e: Event, id: CallId) {
    TurnsDown(s, e, id) || (HangsUp(s, e, id) && StillRings(s, e, id) && s.rings.v[id].callee == e.c)
  }

  /** The socket of a party to call id closes. */
  predicate Drops(s: State, e: Event, id: CallId) {
    e.EDisconnect? && e.c in s.userOf.v && In(s.callOf.v, e.c, id)
  }

  /** Caller x of the local call id is to be recorded now. */
  predicate ToMailbox(s: State, e: Event, x: Sock, id: CallId) {
    match e
    case ECall(c, n, k, k2, line, _) =>
      && x == c && c in s.userOf.v && n !in s.clients.v
      && ((line.NoPush? && id == k) || (line == Push(false) && id == k2))
    case EHangup(_, _) => Refuses(s, e, id) && x == s.rings.v[id].caller
    case EDecline(_, _, _) => Refuses(s, e, id) && x == s.rings.v[id].caller
    case EDisconnect(c, _) =>
      Drops(s, e, id) && id in s.rings.v && s.rings.v[id].callee == c && x == s.rings.v[id].caller
    case ERingTimeout(k, _) => k == id && id in s.rings.v && x == s.rings.v[id].caller
    case EExpire(n, _) => n in s.pending.v && s.pending.v[n] == Waiting(id, x)
    case _ => false
  }

  /** And it is. */
  predicate Recorded(s: State, e: Event, x: Sock, id: CallId) {
    ToMailbox(s, e, x, id) && Online(s, x) && Recording(e).Works?
  }

  /** Inbound call id rings at a phone of this exchange. */
  predicate RingsAt(s: State, x: Sock, id: CallId) {
    && id in s.inLegs.v && s.inLegs.v[id].callee == Some(x)
    && !s.inLegs.v[id].answered && s.inLegs.v[id].service.NoService?
  }

  /** The remote caller of inbound call id is to be recorded now, and was not answered for this reason. */
  predicate Covered(s: State, e: Event, id: CallId, why: Reason) {
    match e
    case EHangup(c, _) => HangsUp(s, e, id) && RingsAt(s, c, id) && why.Declined?
    case EDecline(c, _, _) => HangsUp(s, e, id) && RingsAt(s, c, id) && why.Declined?
    case EInboundTimeout(k, _) =>
      k == id && id in s.inLegs.v && s.inLegs.v[id].callee.Some? && RingsAt(s, s.inLegs.v[id].callee.value, id)
      && why.NoAnswer?
    case EExpire(n, _) => n in s.pending.v && s.pending.v[n] == Remote(id) && why.NoAnswer?
    case EInInvite(_, k, n, host, line, _) =>
      k == id && host.NotHosted? && n !in s.clients.v && line.NoPush? && why.Unavailable?
    case _ => false
  }

  /** x is listed, and in call id with c. */
  predicate Peer(s: State, x: Sock, c: Sock, id: CallId) {
    x != c && In(s.callOf.v, x, id) && Online(s, x)
  }

  /** x has answered inbound call id, or it rings there. */
  predicate HeldBy(s: State, x: Sock, id: CallId) {
    id in s.inLegs.v && s.inLegs.v[id].callee == Some(x) && s.inLegs.v[id].service.NoService?
  }

  // ---- When a socket is told what ----

  predicate OfferOwed(s: State, e: Event, x: Sock, id: CallId) {
    match e
    case ERegister(c, n) => x == c && Delivered(s, c, n) && s.pending.v[n].id == id
    case ECall(c, n, k, _, _, _) => k == id && c in s.userOf.v && n in s.clients.v && x == s.clients.v[n]
    case EInInvite(_, k, n, host, _, _) => k == id && host.NotHosted? && n in s.clients.v && x == s.clients.v[n]
    case _ => false
  }

  predicate RingingOwed(s: State, e: Event, x: Sock, id: CallId) {
    match e
    case ECall(c, n, k, _, line, _) => k == id && x == c && c in s.userOf.v && (n in s.clients.v || line == Push(true))
    case EOutEvent(k, m) => k == id && m.Alerting? && id in s.readers.v && x == s.readers.v[id]
    case _ => false
  }

  predicate ConnectedOwed(s: State, e: Event, x: Sock, id: CallId) {
    || Recorded(s, e, x, id)
    || (e.EServiceCall? && e.id == id && x == e.c && x in s.userOf.v && e.accepts)
    || (e.EAnswer? && e.id == id && e.c in s.userOf.v && id !in s.inLegs.v && x == e.pick && Peer(s, x, e.c, id))
    || (e.EOutEvent? && e.id == id && e.m.Accept? && id in s.readers.v && x == s.readers.v[id])
  }

  predicate EndedOwed(s: State, e: Event, x: Sock, id: CallId, why: Reason) {
    match e
    case EDisconnect(c, _) =>
      && why.Disconnected? && Drops(s, e, id)
      && (Peer(s, x, c, id) || (ToMailbox(s, e, x, id) && Online(s, x))
          || (id in s.rings.v && s.rings.v[id].caller == c && x == s.rings.v[id].callee))
    case EHangup(_, _) => HangupTold(s, e, x, id, why)
    case EDecline(_, _, _) => HangupTold(s, e, x, id, why)
    case ERingTimeout(k, _) =>
      && k == id && id in s.rings.v && why.NoAnswer?
      && (x == s.rings.v[id].callee || (ToMailbox(s, e, x, id) && Online(s, x) && !Recorded(s, e, x, id)))
    case EExpire(_, _) => why.NoAnswer? && ToMailbox(s, e, x, id) && Online(s, x) && !Recorded(s, e, x, id)
    case EInboundTimeout(k, _) => k == id && why.NoAnswer? && RingsAt(s, x, id)
    case ELocalSelfEnd(c, k) => k == id && x == c && why.VoicemailComplete?
    case EInBye(k, w) => k == id && why == w && HeldBy(s, x, id)
    case EInEnd(st) => why.Disconnected? && st in s.streams.v && id in s.streams.v[st] && HeldBy(s, x, id)
    case EOutEvent(k, m) => k == id && id in s.readers.v && x == s.readers.v[id] && (m == Bye(why) || m == Busy(why))
    case EOutEnd(k, eof) => k == id && id in s.readers.v && x == s.readers.v[id] && !eof && why.Disconnected?
    case _ => false
  }

  /** A caller whose call was refused and not recorded; or, of a call that is hung up, whoever else it has. */
  predicate HangupTold(s: State, e: Event, x: Sock, id: CallId, why: Reason)
    requires e.EHangup? || e.EDecline?
  {
    || (why.Declined? && ToMailbox(s, e, x, id) && !Recorded(s, e, x, id))
    || (why.HungUp? && HangsUp(s, e, id) && StillRings(s, e, id) && s.rings.v[id].callee == x != e.c)
    || (why.HungUp? && HangsUp(s, e, id) && !StillRings(s, e, id) && id !in s.svc.v && Peer(s, x, e.c, id))
  }

  predicate TrickleOwed(s: State, e: Event, x: Sock, id: CallId, cand: Candidate) {
    match e
    case ELocalIce(c, k, y) =>
      k == id && y == cand && c in s.userOf.v && id !in s.svc.v && !OnLeg(s, c, id) && Peer(s, x, c, id)
    case EInIce(k, y) => k == id && y == cand && HeldBy(s, x, id)
    case EOutEvent(k, m) => k == id && m == Ice(cand) && id in s.readers.v && x == s.readers.v[id]
    case _ => false
  }

  ghost predicate FailedOwed(s: State, e: Event, x: Sock, code: int) {
    match e
    case ECall(c, n, k, k2, line, _) =>
      && x == c
      && if c !in s.userOf.v then code == 401
         else code == 404 && n !in s.clients.v && line != Push(true) && !Recorded(s, e, c, k) && !Recorded(s, e, c, k2)
    case EServiceCall(c, _, accepts) => x == c && (if c !in s.userOf.v then code == 401 else code == 500 && !accepts)
    case EPlaceCross(c, _, _, reachable) =>
      x == c && (if c !in s.userOf.v then code == 401 else code == 502 && !reachable)
    case EAnswer(c, id, _) =>
      && x == c
      && if c !in s.userOf.v then code == 401
         else code == 404 && id !in s.inLegs.v && forall y :: !Peer(s, y, c, id)
    case _ => false
  }

  /** The step tells socket x this message. */
  ghost predicate Owed(s: State, e: Event, x: Sock, m: ClientMsg) {
    match m
    case Registered => e.ERegister? && x == e.c
    case Offer(id) => OfferOwed(s, e, x, id)
    case Ringing(id) => RingingOwed(s, e, x, id)
    case Connected(id) => ConnectedOwed(s, e, x, id)
    case Ended(id, why) => EndedOwed(s, e, x, id, why)
    case Trickle(id, cand) => TrickleOwed(s, e, x, id, cand)
    case Failed(code) => FailedOwed(s, e, x, code)
  }

  /** And it tells x nothing else. */
  ghost predicate TellsWhatIsOwed(s: State, e: Event, s': State, x: Sock, m: ClientMsg) {
    s'.told.v[(x, m)] == s.told.v[(x, m)] + if Owed(s, e, x, m) then 1 else 0
  }

  // ---- The law of telling, handler by handler ----

  /** Call id is in one table at most. */
  lemma {:induction false} OneTable(s: State, id: CallId)
    requires Inv(s)
    ensures id in s.rings.v ==>
      id !in s.inLegs.v && id !in s.outLegs.v && id !in s.svc.v && id !in s.readers.v && !Queued(s.pending.v, id)
    ensures id in s.inLegs.v ==> id !in s.outLegs.v && id !in s.svc.v && id !in s.readers.v
    ensures id in s.outLegs.v ==> id !in s.svc.v && id in s.readers.v && !Queued(s.pending.v, id)
    ensures id in s.svc.v ==> id !in s.readers.v && !Queued(s.pending.v, id)
  {}

  /** Who can be in a call: its caller and its callee, and of a call of two exchanges one of the two. */
  lemma {:induction false} PartiesOf(s: State, c: Sock, id: CallId)
    requires Inv(s) && In(s.callOf.v, c, id)
    ensures c in s.userOf.v && id in s.kind.v
    ensures id in s.rings.v ==> c == s.rings.v[id].caller || c == s.rings.v[id].callee
    ensures id in s.inLegs.v ==> HeldBy(s, c, id) && !Queued(s.pending.v, id)
    ensures id in s.inLegs.v || id in s.outLegs.v || Queued(s.pending.v, id) ==>
      forall x | In(s.callOf.v, x, id) :: x == c
  {}

  lemma {:induction false} ListedIsOnline(s: State, x: Sock)
    requires Inv(s)
    ensures x in s.clients.v.Values <==> Online(s, x)
  {
    if x in s.clients.v.Values {
      if forall n | n in s.clients.v :: s.clients.v[n] != x {
        assert false;
      }
      var n :| n in s.clients.v && s.clients.v[n] == x;
    }
    if Online(s, x) {
      assert s.clients.v[s.userOf.v[x]] == x;
    }
  }

  lemma {:induction false} PeerIsOther(s: State, x: Sock, c: Sock, id: CallId)
    requires Inv(s)
    ensures x in Others(s, c, id) <==> Peer(s, x, c, id)
  {
    ListedIsOnline(s, x);
    hide Inv, Online;
  }

  lemma {:induction false} EachOnce(xs: set<Sock>, m: ClientMsg, x: Sock, m': ClientMsg)
    ensures Each(xs, m)[(x, m')] == if x in xs && m == m' then 1 else 0
  {
    var ps := set y | y in xs :: (y, m);
    assert (x, m') in ps <==> x in xs && m == m';
  }

  /** n more of this message to this socket. */
  predicate More(s: State, s': State, x: Sock, m: ClientMsg, n: int) {
    s'.told.v[(x, m)] == s.told.v[(x, m)] + n
  }

  lemma {:induction false} RegisterTells(s: State, e: Event, x: Sock, m: ClientMsg)
    requires Inv(s) && e.ERegister?
    ensures TellsWhatIsOwed(s, e, Step(s, e), x, m)
  {}

  lemma {:induction false} PlaceTells(s: State, e: Event, x: Sock, m: ClientMsg)
    requires e.EServiceCall? || e.EPlaceCross?
    ensures TellsWhatIsOwed(s, e, Step(s, e), x, m)
  {}

  lemma {:induction false} OutTells(s: State, e: Event, x: Sock, m: ClientMsg)
    requires e.EOutEvent? || e.EOutEnd?
    ensures TellsWhatIsOwed(s, e, Step(s, e), x, m)
  {
    hide Freed;
  }

  lemma {:induction false} InboundTells(s: State, e: Event, x: Sock, m: ClientMsg)
    requires e.EInIce? || e.EInboundSelfEnd? || e.ELocalSelfEnd? || e.EStreamOpen?
    ensures TellsWhatIsOwed(s, e, Step(s, e), x, m)
  {
    hide Freed, Put;
  }

  lemma {:induction false} InviteTells(s: State, e: Event, x: Sock, m: ClientMsg)
    requires e.EInInvite?
    ensures TellsWhatIsOwed(s, e, Step(s, e), x, m)
  {
    hide Put;
  }

  lemma {:induction false} ByeTells(s: State, e: Event, x: Sock, m: ClientMsg)
    requires e.EInBye?
    ensures TellsWhatIsOwed(s, e, Step(s, e), x, m)
  {
    hide Freed, Unqueued;
  }

  lemma {:induction false} InboundTimeoutTells(s: State, e: Event, x: Sock, m: ClientMsg)
    requires e.EInboundTimeout?
    ensures TellsWhatIsOwed(s, e, Step(s, e), x, m)
  {
    hide Freed, Put;
  }

  lemma {:induction false} ExpireTells(s: State, e: Event, x: Sock, m: ClientMsg)
    requires e.EExpire?
    ensures TellsWhatIsOwed(s, e, Step(s, e), x, m)
  {
    hide Freed, Put;
  }

  lemma {:induction false} RouteSays(s: State, r: Ring, id: CallId, vm: Voicemail, why: Reason, x: Sock, m: ClientMsg)
    ensures More(s, RouteLocalOr(s, r, id, vm, why), x, m,
                 if x == r.caller && m == (if Routed(s, x, vm) then Connected(id) else Ended(id, why)) then 1 else 0)
  {
    hide Freed, Online;
  }

  lemma {:induction false} RingTimeoutSays(s: State, id: CallId, vm: Voicemail, x: Sock, m: ClientMsg)
    requires id in s.rings.v && s.rings.v[id].caller != s.rings.v[id].callee
    ensures var r := s.rings.v[id];
            More(s, RingTimeout(s, id, vm), x, m,
                 if (x == r.callee && m == Ended(id, NoAnswer))
                    || (x == r.caller && Online(s, x) && m == if vm.Works? then Connected(id) else Ended(id, NoAnswer))
                 then 1 else 0)
  {
    var r := s.rings.v[id];
    var s1 := End(s.(rings := Cell(s.rings.v - {id})), r.callee, id, NoAnswer);
    assert Online(s1, r.caller) == Online(s, r.caller);
    RouteSays(s1, r, id, vm, NoAnswer, x, m);
    hide RouteLocalOr, Freed, Online;
  }

  lemma {:induction false} RingTimeoutOwes(s: State, e: Event, x: Sock, m: ClientMsg)
    requires e.ERingTimeout?
    ensures Owed(s, e, x, m) <==>
              && e.id in s.rings.v
              && var r := s.rings.v[e.id];
                 || (x == r.callee && m == Ended(e.id, NoAnswer))
                 || (x == r.caller && Online(s, x)
                    && m == if e.vm.Works? then Connected(e.id) else Ended(e.id, NoAnswer))
  {
    hide Online;
  }

  lemma {:induction false} RingTimeoutTells(s: State, e: Event, x: Sock, m: ClientMsg)
    requires Inv(s) && e.ERingTimeout?
    ensures TellsWhatIsOwed(s, e, Step(s, e), x, m)
  {
    assert Step(s, e) == RingTimeout(s, e.id, e.vm);
    RingTimeoutOwes(s, e, x, m);
    hide Step, Online, Owed;
    if e.id in s.rings.v {
      RingFacts(s, e.id);
      hide Inv;
      RingTimeoutSays(s, e.id, e.vm, x, m);
      hide RingTimeout;
    }
  }

  /** What placing a call owes. */
  predicate CallSays(s: State, e: Event, x: Sock, m: ClientMsg)
    requires e.ECall?
  {
    if e.c !in s.userOf.v then x == e.c && m == Failed(401)
    else if e.n in s.clients.v then (x == s.clients.v[e.n] && m == Offer(e.id)) || (x == e.c && m == Ringing(e.id))
    else
      && x == e.c
      && m == match e.line
              case Unknown => Failed(404)
              case NoPush => if Routed(s, e.c, e.vm) then Connected(e.id) else Failed(404)
              case Push(sent) =>
                if sent then Ringing(e.id) else if Routed(s, e.c, e.vm) then Connected(e.id2) else Failed(404)
  }

  lemma {:induction false} CallOwes(s: State, e: Event, x: Sock, m: ClientMsg)
    requires e.ECall? && e.id != e.id2
    ensures Owed(s, e, x, m) <==> CallSays(s, e, x, m)
  {
    hide Online;
  }

  lemma {:induction false} RecordSays(s: State, c: Sock, n: Number, id: CallId, vm: Voicemail, x: Sock, m: ClientMsg)
    ensures More(s, RecordOrFail(s, c, n, id, vm), x, m,
                 if x == c && m == (if Routed(s, c, vm) then Connected(id) else Failed(404)) then 1 else 0)
  {
    hide Online;
  }

  lemma {:induction false} CallSaid(s: State, e: Event, x: Sock, m: ClientMsg)
    requires e.ECall?
    ensures More(s, Step(s, e), x, m, if CallSays(s, e, x, m) then 1 else 0)
  {
    assert Step(s, e) == Call(s, e.c, e.n, e.id, e.id2, e.line, e.vm);
    hide Step;
    if e.c in s.userOf.v && e.n !in s.clients.v {
      OfflineSaid(s, e, x, m);
      hide Call, CallSays;
    } else {
      hide RecordOrFail, Routed;
    }
  }

  lemma {:induction false} OfflineSaid(s: State, e: Event, x: Sock, m: ClientMsg)
    requires e.ECall? && e.c in s.userOf.v && e.n !in s.clients.v
    ensures More(s, Call(s, e.c, e.n, e.id, e.id2, e.line, e.vm), x, m, if CallSays(s, e, x, m) then 1 else 0)
  {
    hide RecordOrFail, Online;
    var c, n, k, k2 := e.c, e.n, e.id, e.id2;
    if e.line.NoPush? {
      var s1 := s.(kind := Cell(s.kind.v[k := Local(c, n)]));
      RecordSays(s1, c, n, k, e.vm, x, m);
      SameOnline(s, s1, c);
    } else if e.line == Push(false) {
      UnpushedSaid(s, e, x, m);
    }
  }

  lemma {:induction false} UnpushedSaid(s: State, e: Event, x: Sock, m: ClientMsg)
    requires e.ECall? && e.c in s.userOf.v && e.n !in s.clients.v && e.line == Push(false)
    ensures More(s, Call(s, e.c, e.n, e.id, e.id2, e.line, e.vm), x, m, if CallSays(s, e, x, m) then 1 else 0)
  {
    hide RecordOrFail, Online;
    var c, n, k, k2 := e.c, e.n, e.id, e.id2;
    var s2 := s.(kind := Cell(s.kind.v[k := Local(c, n)][k2 := Local(c, n)]), pending := Cell(s.pending.v - {n}),
                 callOf := Cell(s.callOf.v - {c}));
    RecordSays(s2, c, n, k2, e.vm, x, m);
    SameOnline(s, s2, c);
  }

  lemma {:induction false} SameOnline(s: State, s': State, c: Sock)
    requires s'.clients == s.clients && s'.userOf == s.userOf
    ensures Online(s', c) <==> Online(s, c)
  {}

  lemma {:induction false} CallTells(s: State, e: Event, x: Sock, m: ClientMsg)
    requires Possible(s, e) && e.ECall?
    ensures TellsWhatIsOwed(s, e, Step(s, e), x, m)
  {
    hide Step, Owed, CallSays;
    CallOwes(s, e, x, m);
    CallSaid(s, e, x, m);
  }

  /** What an answer owes: an error, or "connected" to the other party. */
  ghost predicate AnswerSays(s: State, e: Event, x: Sock, m: ClientMsg)
    requires e.EAnswer?
  {
    if e.c !in s.userOf.v then x == e.c && m == Failed(401)
    else if e.id in s.inLegs.v then false
    else if forall y :: !Peer(s, y, e.c, e.id) then x == e.c && m == Failed(404)
    else x == e.pick && Peer(s, x, e.c, e.id) && m == Connected(e.id)
  }

  lemma {:induction false} AnswerOwes(s: State, e: Event, x: Sock, m: ClientMsg)
    requires e.EAnswer?
    ensures Owed(s, e, x, m) <==> AnswerSays(s, e, x, m)
  {
    hide Peer;
  }

  lemma {:induction false} AnswerSaid(s: State, e: Event, x: Sock, m: ClientMsg)
    requires e.EAnswer? && (Others(s, e.c, e.id) != {} ==> e.pick in Others(s, e.c, e.id))
    requires forall y :: y in Others(s, e.c, e.id) <==> Peer(s, y, e.c, e.id)
    ensures More(s, Step(s, e), x, m, if AnswerSays(s, e, x, m) then 1 else 0)
  {
    hide Peer, Others;
    if Others(s, e.c, e.id) == {} {
      assert forall y :: y !in Others(s, e.c, e.id);
    } else {
      assert Peer(s, e.pick, e.c, e.id);
    }
  }

  lemma {:induction false} AnswerTells(s: State, e: Event, x: Sock, m: ClientMsg)
    requires Inv(s) && Possible(s, e) && e.EAnswer?
    ensures TellsWhatIsOwed(s, e, Step(s, e), x, m)
  {
    hide Inv, Step, Others, Peer, Owed, AnswerSays;
    forall y ensures y in Others(s, e.c, e.id) <==> Peer(s, y, e.c, e.id) { PeerIsOther(s, y, e.c, e.id); }
    AnswerOwes(s, e, x, m);
    AnswerSaid(s, e, x, m);
  }

  lemma {:induction false} LocalIceTells(s: State, e: Event, x: Sock, m: ClientMsg)
    requires Inv(s) && e.ELocalIce?
    ensures TellsWhatIsOwed(s, e, Step(s, e), x, m)
  {
    var c, id, cand := e.c, e.id, e.cand;
    assert Step(s, e).told.v == s.told.v
      + if c !in s.userOf.v || id in s.svc.v || OnLeg(s, c, id) then multiset{}
        else Each(Others(s, c, id), Trickle(id, cand));
    hide Step, Others, Each;
    PeerIsOther(s, x, c, id);
    EachOnce(Others(s, c, id), Trickle(id, cand), x, m);
    hide Inv, Peer, OnLeg;
  }

  lemma {:induction false} OthersSay(s: State, c: Sock, id: CallId, why: Reason, x: Sock, m: ClientMsg)
    ensures More(s, EndOthers(s, c, id, why), x, m, if x in Others(s, c, id) && m == Ended(id, why) then 1 else 0)
  {
    EachOnce(Others(s, c, id), Ended(id, why), x, m);
    hide Others, Each;
  }

  /** Of a ring that is hung up, the caller is recorded or told, or the callee is told. */
  lemma {:induction false} RingHangupSays(s: State, c: Sock, id: CallId, vm: Voicemail, x: Sock, m: ClientMsg)
    requires id in s.rings.v
    ensures var r := s.rings.v[id];
            More(s, HangupIn(s, c, id, vm), x, m,
                 if r.callee == c then
                   (if x == r.caller && m == (if Routed(s, x, vm) then Connected(id) else Ended(id, Declined))
                       then 1 else 0)
                 else if x == r.callee && m == Ended(id, HungUp) then 1 else 0)
  {
    var s1 := s.(rings := Cell(s.rings.v - {id}));
    assert forall y :: Routed(s1, y, vm) == Routed(s, y, vm);
    RouteSays(s1, s.rings.v[id], id, vm, Declined, x, m);
    hide RouteLocalOr, Routed, Freed, Queued, Unqueued, Declinable, OnLeg, EndOthers, CloseLeg, DeclineInbound;
  }

  /** Of any other call that is hung up, a local one with no service, the other parties are told. */
  lemma {:induction false} LeftHangupSays(s: State, c: Sock, id: CallId, vm: Voicemail, x: Sock, m: ClientMsg)
    requires id !in s.rings.v
    ensures More(s, HangupIn(s, c, id, vm), x, m,
                 if !Declinable(s, c, id) && !OnLeg(s, c, id) && !Queued(s.pending.v, id) && id !in s.svc.v
                    && x in Others(s, c, id) && m == Ended(id, HungUp) then 1 else 0)
  {
    OthersSay(s, c, id, HungUp, x, m);
    hide Freed, Queued, Unqueued, Others, EndOthers, Put, Quiet;
  }

  /** What hanging up owes. */
  predicate HangupSays(s: State, e: Event, id: CallId, x: Sock, m: ClientMsg)
    requires e.EHangup? || e.EDecline?
  {
    if StillRings(s, e, id) then
      var r := s.rings.v[id];
      if r.callee == e.c then
        x == r.caller && m == (if Routed(s, x, Recording(e)) then Connected(id) else Ended(id, Declined))
      else x == r.callee && m == Ended(id, HungUp)
    else id !in s.svc.v && Peer(s, x, e.c, id) && m == Ended(id, HungUp)
  }

  lemma {:induction false} HangupOwes(s: State, e: Event, id: CallId, x: Sock, m: ClientMsg)
    requires HangsUp(s, e, id)
    ensures Owed(s, e, x, m) <==> HangupSays(s, e, id, x, m)
  {
    hide Peer, Online;
  }

  lemma {:induction false} HangupMeets(s: State, s1: State, e: Event, id: CallId, x: Sock, m: ClientMsg)
    requires Inv(s) && HangsUp(s, e, id)
    requires s1 == s.(rings := s1.rings, callOf := Cell(s.callOf.v - {e.c}))
    requires id in s1.rings.v <==> StillRings(s, e, id)
    requires id in s1.rings.v ==> s1.rings.v[id] == s.rings.v[id]
    ensures More(s, HangupIn(s1, e.c, id, Recording(e)), x, m, if HangupSays(s, e, id, x, m) then 1 else 0)
  {
    var c, vm := e.c, Recording(e);
    assert Routed(s1, x, vm) == Routed(s, x, vm);
    PartiesOf(s, c, id);
    PeerIsOther(s, x, c, id);
    assert x in Others(s1, c, id) <==> x in Others(s, c, id);
    hide Inv, HangupIn, Others, Routed, Online, HangsUp, StillRings;
    if id in s1.rings.v {
      RingHangupSays(s1, c, id, vm, x, m);
    } else {
      LeftHangupSays(s1, c, id, vm, x, m);
    }
  }

  lemma {:induction false} HangupTells(s: State, e: Event, x: Sock, m: ClientMsg)
    requires Inv(s) && e.EHangup?
    ensures TellsWhatIsOwed(s, e, Step(s, e), x, m)
  {
    var c := e.c;
    if c in s.userOf.v && c in s.callOf.v {
      var id := s.callOf.v[c];
      assert HangsUp(s, e, id);
      HangupOwes(s, e, id, x, m);
      HangupMeets(s, s.(callOf := Cell(s.callOf.v - {c})), e, id, x, m);
      hide Owed, Inv, HangupSays, HangsUp;
    }
    hide Inv, HangupIn;
  }

  lemma {:induction false} DeclineTells(s: State, e: Event, x: Sock, m: ClientMsg)
    requires Inv(s) && e.EDecline?
    ensures TellsWhatIsOwed(s, e, Step(s, e), x, m)
  {
    hide Inv, HangupIn, RouteLocalOr, Owed, HangupSays;
    var c := e.c;
    if c in s.userOf.v && Meant(s, c, e.asked).Some? {
      var t := Meant(s, c, e.asked).value;
      var s1 := s.(rings := Cell(s.rings.v - {t}));
      if TurnsDown(s, e, t) {
        TurnDownTells(s, e, t, x, m);
      } else if c in s.callOf.v {
        var id := s.callOf.v[c];
        HangupOwes(s, e, id, x, m);
        HangupMeets(s, s1.(callOf := Cell(s.callOf.v - {c})), e, id, x, m);
      } else {
        NothingDeclined(s, e, x, m);
      }
    } else {
      NothingDeclined(s, e, x, m);
    }
  }

  lemma {:induction false} NothingDeclined(s: State, e: Event, x: Sock, m: ClientMsg)
    requires e.EDecline? && (e.c !in s.userOf.v || e.c !in s.callOf.v) && forall k :: !TurnsDown(s, e, k)
    ensures !Owed(s, e, x, m)
  {
    hide Peer, Online;
  }

  lemma {:induction false} TurnDownTells(s: State, e: Event, id: CallId, x: Sock, m: ClientMsg)
    requires Inv(s) && TurnsDown(s, e, id)
    ensures TellsWhatIsOwed(s, e, Step(s, e), x, m)
  {
    var s1 := s.(rings := Cell(s.rings.v - {id}), callOf := Cell(Freed(s.callOf.v, e.c, id)));
    assert Routed(s1, x, e.vm) == Routed(s, x, e.vm);
    assert Step(s, e) == RouteLocalOr(s1, s.rings.v[id], id, e.vm, Declined);
    RouteSays(s1, s.rings.v[id], id, e.vm, Declined, x, m);
    hide Step, RouteLocalOr, Inv;
  }

  /** What the closing of c's socket owes the others in call id. */
  predicate DropSays(s: State, c: Sock, id: CallId, vm: Voicemail, x: Sock, m: ClientMsg) {
    var deserted := id in s.rings.v && s.rings.v[id].callee == c && x == s.rings.v[id].caller && Online(s, x);
    || (m == Ended(id, Disconnected)
        && (Peer(s, x, c, id) || deserted
            || (id in s.rings.v && s.rings.v[id].caller == c && x == s.rings.v[id].callee)))
    || (m == Connected(id) && deserted && vm.Works?)
  }

  lemma {:induction false} DropOwes(s: State, e: Event, id: CallId, x: Sock, m: ClientMsg)
    requires Drops(s, e, id)
    ensures Owed(s, e, x, m) <==> DropSays(s, e.c, id, e.vm, x, m)
  {
    hide Peer, Online;
  }

  lemma {:induction false} LeaveRingSays(s: State, c: Sock, id: CallId, vm: Voicemail, x: Sock, m: ClientMsg)
    requires c !in s.callOf.v && (id in s.rings.v ==> s.rings.v[id].caller != s.rings.v[id].callee)
    ensures var s' := LeaveRing(s, c, id, vm);
            var deserted := id in s.rings.v && s.rings.v[id].callee == c && x == s.rings.v[id].caller && Online(s, x);
            var left := id in s.rings.v && s.rings.v[id].caller == c && x == s.rings.v[id].callee;
            && s'.clients == s.clients && s'.userOf == s.userOf
            && (In(s'.callOf.v, x, id) <==>
                  if deserted then vm.Works? else In(s.callOf.v, x, id) && !left)
            && More(s, s', x, m,
                 if deserted && m == (if vm.Works? then Connected(id) else Ended(id, Disconnected)) then 1
                 else if left && m == Ended(id, Disconnected) then 1 else 0)
  {}

  lemma {:induction false} LeaveFrames(s: State, c: Sock, id: CallId)
    ensures var s1 := CloseLeg(s, c, id, Disconnected);
            && s1.clients == s.clients && s1.userOf == s.userOf && s1.callOf == s.callOf && s1.rings == s.rings
            && s1.told == s.told
    ensures var s1 := LeaveService(s, c, id);
            s1.clients == s.clients && s1.userOf == s.userOf && s1.callOf == s.callOf && s1.told == s.told
  {}

  lemma {:induction false} LeaveSays(s: State, c: Sock, id: CallId, vm: Voicemail, x: Sock, m: ClientMsg)
    requires Inv(s) && c in s.userOf.v && In(s.callOf.v, c, id)
    ensures More(s, LeaveCall(s.(callOf := Cell(s.callOf.v - {c})), c, id, vm), x, m,
                 if DropSays(s, c, id, vm, x, m) then 1 else 0)
  {
    var s0 := s.(callOf := Cell(s.callOf.v - {c}));
    var s1 := CloseLeg(s0, c, id, Disconnected);
    var s2 := s1.(pending := Cell(Unqueued(s1.pending.v, id)));
    var s3 := LeaveRing(s2, c, id, vm);
    var s4 := LeaveService(s3, c, id);
    LeaveFrames(s0, c, id);
    LeaveFrames(s3, c, id);
    OthersSay(s4, c, id, Disconnected, x, m);
    assert id in s.rings.v ==> s.rings.v[id].caller != s.rings.v[id].callee;
    ListedIsOnline(s, x);
    assert Online(s2, x) == Online(s, x);
    hide Inv, Online, CloseLeg, LeaveRing, LeaveService, EndOthers, Unqueued;
    LeaveRingSays(s2, c, id, vm, x, m);
  }

  lemma {:induction false} DisconnectTells(s: State, e: Event, x: Sock, m: ClientMsg)
    requires Inv(s) && e.EDisconnect?
    ensures TellsWhatIsOwed(s, e, Step(s, e), x, m)
  {
    var c := e.c;
    if c in s.userOf.v && c in s.callOf.v {
      DropOwes(s, e, s.callOf.v[c], x, m);
      LeaveSays(s, c, s.callOf.v[c], e.vm, x, m);
      hide Owed, DropSays;
    }
    hide Inv, LeaveCall;
  }

  lemma {:induction false} InEndTells(s: State, e: Event, x: Sock, m: ClientMsg)
    requires Inv(s) && e.EInEnd?
    ensures TellsWhatIsOwed(s, e, Step(s, e), x, m)
  {
    if e.st in s.streams.v {
      hide Inv, CleanUps;
      CleanUpsSay(s, s.streams.v[e.st], x, m);
    }
  }

  /** Cleaning up tells whoever holds one of the calls, once. */
  lemma {:induction false} CleanUpsSay(s: State, ids: seq<CallId>, x: Sock, m: ClientMsg)
    ensures More(s, CleanUps(s, ids), x, m,
                 if m.Ended? && m.id in ids && HeldBy(s, x, m.id) && m.reason.Disconnected? then 1 else 0)
    decreases |ids|
  {
    if ids != [] {
      CleanUpSays(s, ids[0], x, m);
      CleanUpsSay(CleanUp(s, ids[0]), ids[1..], x, m);
      hide CleanUp, HeldBy;
    }
  }

  lemma {:induction false} CleanUpSays(s: State, id: CallId, x: Sock, m: ClientMsg)
    ensures More(s, CleanUp(s, id), x, m, if m == Ended(id, Disconnected) && HeldBy(s, x, id) then 1 else 0)
    ensures m.Ended? ==> (HeldBy(CleanUp(s, id), x, m.id) <==> HeldBy(s, x, m.id) && m.id != id)
  {}

  lemma {:induction false} StepTells(s: State, e: Event, x: Sock, m: ClientMsg)
    requires Inv(s) && Possible(s, e)
    ensures TellsWhatIsOwed(s, e, Step(s, e), x, m)
  {
    hide Inv, Possible, Step, TellsWhatIsOwed;
    match e
    case ERegister(c, n) => RegisterTells(s, e, x, m);
    case EDisconnect(c, vm) => DisconnectTells(s, e, x, m);
    case ECall(_, _, _, _, _, _) => CallTells(s, e, x, m);
    case EServiceCall(_, _, _) => PlaceTells(s, e, x, m);
    case EPlaceCross(_, _, _, _) => PlaceTells(s, e, x, m);
    case EAnswer(_, _, _) => AnswerTells(s, e, x, m);
    case EHangup(_, _) => HangupTells(s, e, x, m);
    case EDecline(_, _, _) => DeclineTells(s, e, x, m);
    case ELocalIce(_, _, _) => LocalIceTells(s, e, x, m);
    case ERingTimeout(_, _) => RingTimeoutTells(s, e, x, m);
    case EExpire(_, _) => ExpireTells(s, e, x, m);
    case EInboundTimeout(_, _) => InboundTimeoutTells(s, e, x, m);
    case EInboundSelfEnd(_) => InboundTells(s, e, x, m);
    case ELocalSelfEnd(_, _) => InboundTells(s, e, x, m);
    case EStreamOpen(_) => InboundTells(s, e, x, m);
    case EInInvite(_, _, _, _, _, _) => InviteTells(s, e, x, m);
    case EInIce(_, _) => InboundTells(s, e, x, m);
    case EInBye(_, _) => ByeTells(s, e, x, m);
    case EInEnd(_) => InEndTells(s, e, x, m);
    case EOutEvent(_, _) => OutTells(s, e, x, m);
    case EOutEnd(_, _) => OutTells(s, e, x, m);
  }

  // ---- When a peer is sent what ----

  /** The step puts this message on the stream of call id. */
  predicate Sends(s: State, e: Event, id: CallId, m: PeerMsg) {
    match m
    case Invite(n) => e.EPlaceCross? && e.id == id && e.n == n && e.c in s.userOf.v && e.reachable
    case Alerting => e.EInInvite? && e.id == id && e.host.NotHosted? && (e.n in s.clients.v || e.line == Push(true))
    case Accept =>
      || (e.EInInvite? && e.id == id && e.host == HostedHere(true, true))
      || (e.EAnswer? && e.id == id && e.c in s.userOf.v && id in s.inLegs.v)
      || (Recording(e).Works? && (Covered(s, e, id, Declined) || Covered(s, e, id, NoAnswer)
          || Covered(s, e, id, Unavailable)))
    case Ice(cand) =>
      e.ELocalIce? && e.id == id && e.cand == cand && e.c in s.userOf.v && id !in s.svc.v && OnLeg(s, e.c, id)
    case Bye(why) =>
      || (!Recording(e).Works? && !e.EInInvite? && Covered(s, e, id, why))
      || (why.HungUp? && HangsUp(s, e, id) && OnLeg(s, e.c, id) && !RingsAt(s, e.c, id))
      || (why.Disconnected? && Drops(s, e, id) && OnLeg(s, e.c, id))
      || (why.VoicemailComplete? && e.EInboundSelfEnd? && e.id == id)
    case Busy(why) =>
      && e.EInInvite? && e.id == id
      && match e.host
         case HostedHere(accepts, _) => !accepts && why.ServiceError?
         case NotHosted =>
           why.Unavailable? && e.n !in s.clients.v && e.line != Push(true) && (e.line.NoPush? ==> !e.vm.Works?)
  }

  /** And nothing else. */
  predicate SendsWhatIsDue(s: State, e: Event, s': State, id: CallId, m: PeerMsg) {
    At(s'.sent.v, id) == At(s.sent.v, id) + [m] <==> Sends(s, e, id, m)
  }

  // ---- The law of sending, handler by handler ----

  predicate Silent(s: State, s': State, id: CallId) {
    At(s'.sent.v, id) == At(s.sent.v, id)
  }

  lemma {:induction false} OneMessage(q: seq<PeerMsg>, x: PeerMsg, m: PeerMsg)
    ensures q + [x] == q + [m] <==> x == m
  {
    assert (q + [x])[|q|] == x && (q + [m])[|q|] == m;
  }

  /** x goes out on the stream of call k. */
  predicate Puts(s: State, s': State, k: CallId, x: PeerMsg) {
    s'.sent.v == Put(s.sent.v, k, [x])
  }

  lemma {:induction false} PutsOne(s: State, e: Event, s': State, k: CallId, x: PeerMsg, id: CallId, m: PeerMsg)
    requires Puts(s, s', k, x) && (Sends(s, e, id, m) <==> id == k && m == x)
    ensures SendsWhatIsDue(s, e, s', id, m)
  {
    hide Sends;
    OneMessage(At(s.sent.v, id), x, m);
  }

  lemma {:induction false} QuietSends(s: State, e: Event, id: CallId, m: PeerMsg)
    requires e.ERegister? || e.ECall? || e.EServiceCall? || e.ERingTimeout? || e.ELocalSelfEnd? || e.EStreamOpen?
      || e.EInIce? || e.EInBye? || e.EOutEvent? || e.EOutEnd?
    ensures SendsWhatIsDue(s, e, Step(s, e), id, m)
  {
    hide Freed, Unqueued, Online, Put;
    assert Silent(s, Step(s, e), id);
  }

  lemma {:induction false} StreamSends(s: State, e: Event, id: CallId, m: PeerMsg)
    requires e.EInEnd?
    ensures SendsWhatIsDue(s, e, Step(s, e), id, m)
  {
    hide CleanUps;
    if e.st in s.streams.v {
      CleanUpsSilent(s, s.streams.v[e.st]);
    }
    assert Silent(s, Step(s, e), id);
  }

  lemma {:induction false} CleanUpsSilent(s: State, ids: seq<CallId>)
    ensures CleanUps(s, ids).sent == s.sent
    decreases |ids|
  {
    hide Freed, Unqueued;
    if ids != [] {
      CleanUpsSilent(CleanUp(s, ids[0]), ids[1..]);
    }
  }

  lemma {:induction false} OwnSends(s: State, e: Event, id: CallId, m: PeerMsg)
    requires e.EPlaceCross? || e.EAnswer? || e.ELocalIce? || e.EInboundSelfEnd?
    ensures SendsWhatIsDue(s, e, Step(s, e), id, m)
  {
    hide Others, Each;
    var s' := Step(s, e);
    var x := match e case EPlaceCross(_, _, n, _) => Invite(n) case EAnswer(_, _, _) => Accept
             case ELocalIce(_, _, cand) => Ice(cand) case _ => Bye(VoicemailComplete);
    if Puts(s, s', e.id, x) {
      PutsOne(s, e, s', e.id, x, id, m);
    }
  }

  lemma {:induction false} InviteSends(s: State, e: Event, id: CallId, m: PeerMsg)
    requires e.EInInvite?
    ensures SendsWhatIsDue(s, e, Step(s, e), id, m)
  {
    var s' := Step(s, e);
    var x := match e.host
             case HostedHere(accepts, _) => if accepts then Accept else Busy(ServiceError)
             case NotHosted =>
               if e.n in s.clients.v || e.line == Push(true) then Alerting
               else if e.line.NoPush? && e.vm.Works? then Accept else Busy(Unavailable);
    if e.host != HostedHere(true, false) {
      assert Puts(s, s', e.id, x);
      PutsOne(s, e, s', e.id, x, id, m);
    }
  }

  lemma {:induction false} RoutePuts(s: State, leg: Leg, k: CallId, vm: Voicemail, m: PeerMsg)
    ensures Puts(s, RouteInboundOr(s, leg, k, vm, m), k, if vm.Works? then Accept else m)
  {}

  lemma {:induction false} LocalSilent(s: State, s1: State, r: Ring, k: CallId, vm: Voicemail, why: Reason, id: CallId)
    requires s1.sent == s.sent
    ensures Silent(s, RouteLocalOr(s1, r, k, vm, why), id)
  {}

  lemma {:induction false} InboundTimeoutSends(s: State, e: Event, id: CallId, m: PeerMsg)
    requires e.EInboundTimeout?
    ensures SendsWhatIsDue(s, e, Step(s, e), id, m)
  {
    var k := e.id;
    if k in s.inLegs.v && s.inLegs.v[k].callee.Some? && RingsAt(s, s.inLegs.v[k].callee.value, k) {
      var s1 := End(s, s.inLegs.v[k].callee.value, k, NoAnswer);
      RoutePuts(s1, Quiet(s.inLegs.v[k]), k, e.vm, Bye(NoAnswer));
      assert Step(s, e) == RouteInboundOr(s1, Quiet(s.inLegs.v[k]), k, e.vm, Bye(NoAnswer));
      hide Step, RouteInboundOr;
      PutsOne(s, e, Step(s, e), k, if e.vm.Works? then Accept else Bye(NoAnswer), id, m);
    }
  }

  lemma {:induction false} ExpireSends(s: State, e: Event, id: CallId, m: PeerMsg)
    requires Inv(s) && e.EExpire?
    ensures SendsWhatIsDue(s, e, Step(s, e), id, m)
  {
    if e.n in s.pending.v {
      QueuedFacts(s, e.n);
      hide Inv;
      var p, s1 := s.pending.v[e.n], s.(pending := Cell(s.pending.v - {e.n}));
      match p
      case Remote(k) =>
        RoutePuts(s1, s.inLegs.v[k], k, e.vm, Bye(NoAnswer));
        assert Step(s, e) == RouteInboundOr(s1, s.inLegs.v[k], k, e.vm, Bye(NoAnswer));
        hide Step, RouteInboundOr;
        PutsOne(s, e, Step(s, e), k, if e.vm.Works? then Accept else Bye(NoAnswer), id, m);
      case Waiting(k, c) =>
        LocalSilent(s, s1, Ring(c, c, e.n), k, e.vm, NoAnswer, id);
        hide RouteLocalOr;
        assert Silent(s, Step(s, e), id);
    }
  }

  lemma {:induction false} ClosePuts(s: State, c: Sock, k: CallId, why: Reason)
    ensures if OnLeg(s, c, k) then Puts(s, CloseLeg(s, c, k, why), k, Bye(why)) else CloseLeg(s, c, k, why) == s
  {}

  lemma {:induction false} LeaveSilent(s: State, c: Sock, k: CallId, vm: Voicemail)
    ensures LeaveCall(s, c, k, vm).sent == CloseLeg(s, c, k, Disconnected).sent
  {
    hide CloseLeg, Unqueued, Others, Freed, Online;
  }

  lemma {:induction false} DisconnectSends(s: State, e: Event, id: CallId, m: PeerMsg)
    requires e.EDisconnect?
    ensures SendsWhatIsDue(s, e, Step(s, e), id, m)
  {
    var c := e.c;
    if c in s.userOf.v && c in s.callOf.v {
      var k, s0 := s.callOf.v[c], s.(callOf := Cell(s.callOf.v - {c}));
      LeaveSilent(s0, c, k, e.vm);
      ClosePuts(s0, c, k, Disconnected);
      assert Step(s, e).sent == LeaveCall(s0, c, k, e.vm).sent;
      hide Step, LeaveCall, CloseLeg;
      if OnLeg(s, c, k) {
        PutsOne(s, e, Step(s, e), k, Bye(Disconnected), id, m);
      }
    }
    hide LeaveCall;
  }

  /** What a hangup puts on the stream of its call. */
  lemma {:induction false} HangupPuts(s: State, c: Sock, k: CallId, vm: Voicemail)
    requires k in s.rings.v ==> k !in s.inLegs.v && k !in s.outLegs.v
    ensures var s' := HangupIn(s, c, k, vm);
            if Declinable(s, c, k) then Puts(s, s', k, if vm.Works? then Accept else Bye(Declined))
            else if OnLeg(s, c, k) then Puts(s, s', k, Bye(HungUp))
            else s'.sent == s.sent
  {
    hide Freed, Unqueued, Others, Online;
    ClosePuts(s, c, k, HungUp);
    if Declinable(s, c, k) {
      RoutePuts(s.(callOf := Cell(Freed(s.callOf.v, c, k))), Quiet(s.inLegs.v[k]), k, vm, Bye(Declined));
    }
    hide CloseLeg, RouteInboundOr;
  }

  lemma {:induction false} HungSends(s: State, s1: State, e: Event, k: CallId, id: CallId, m: PeerMsg)
    requires Inv(s) && HangsUp(s, e, k) && s1 == s.(rings := s1.rings, callOf := s1.callOf)
    requires k in s1.rings.v ==> k in s.rings.v
    ensures SendsWhatIsDue(s, e, HangupIn(s1, e.c, k, Recording(e)), id, m)
  {
    hide Inv, HangupIn, SendsWhatIsDue;
    var c, vm := e.c, Recording(e);
    OneTable(s, k);
    HangupPuts(s1, c, k, vm);
    HungOwes(s, e, k, id, m);
    var s' := HangupIn(s1, c, k, vm);
    if RingsAt(s, c, k) {
      PutsOne(s, e, s', k, if vm.Works? then Accept else Bye(Declined), id, m);
    } else if OnLeg(s, c, k) {
      PutsOne(s, e, s', k, Bye(HungUp), id, m);
    } else {
      SilentSends(s, e, s', id, m);
    }
  }

  lemma {:induction false} HungOwes(s: State, e: Event, k: CallId, id: CallId, m: PeerMsg)
    requires HangsUp(s, e, k)
    ensures Sends(s, e, id, m) <==>
              && id == k
              && if RingsAt(s, e.c, k) then m == if Recording(e).Works? then Accept else Bye(Declined)
                 else OnLeg(s, e.c, k) && m == Bye(HungUp)
  {}

  lemma {:induction false} SilentSends(s: State, e: Event, s': State, id: CallId, m: PeerMsg)
    requires Silent(s, s', id) && !Sends(s, e, id, m)
    ensures SendsWhatIsDue(s, e, s', id, m)
  {}

  lemma {:induction false} HangupSends(s: State, e: Event, id: CallId, m: PeerMsg)
    requires Inv(s) && (e.EHangup? || e.EDecline?)
    ensures SendsWhatIsDue(s, e, Step(s, e), id, m)
  {
    hide Inv, HangupIn, RouteLocalOr, Sends;
    var c := e.c;
    if c in s.userOf.v && (e.EDecline? ==> Meant(s, c, e.asked).Some?) {
      var s1 := if e.EHangup? then s else s.(rings := Cell(s.rings.v - {Meant(s, c, e.asked).value}));
      if e.EDecline? && TurnsDown(s, e, Meant(s, c, e.asked).value) {
        var k := Meant(s, c, e.asked).value;
        LocalSilent(s, s1.(callOf := Cell(Freed(s.callOf.v, c, k))), s.rings.v[k], k, e.vm, Declined, id);
        NothingHungUp(s, e, id, m);
      } else if c in s.callOf.v {
        HungSends(s, s1.(callOf := Cell(s.callOf.v - {c})), e, s.callOf.v[c], id, m);
      } else {
        NothingHungUp(s, e, id, m);
      }
    } else {
      NothingHungUp(s, e, id, m);
    }
  }

  lemma {:induction false} NothingHungUp(s: State, e: Event, id: CallId, m: PeerMsg)
    requires (e.EHangup? || e.EDecline?) && forall k :: !HangsUp(s, e, k)
    ensures !Sends(s, e, id, m)
  {}

  lemma {:induction false} StepSends(s: State, e: Event, id: CallId, m: PeerMsg)
    requires Inv(s) && Possible(s, e)
    ensures SendsWhatIsDue(s, e, Step(s, e), id, m)
  {
    hide Inv, Possible, Step, SendsWhatIsDue;
    match e
    case EDisconnect(_, _) => DisconnectSends(s, e, id, m);
    case EPlaceCross(_, _, _, _) => OwnSends(s, e, id, m);
    case EAnswer(_, _, _) => OwnSends(s, e, id, m);
    case EHangup(_, _) => HangupSends(s, e, id, m);
    case EDecline(_, _, _) => HangupSends(s, e, id, m);
    case ELocalIce(_, _, _) => OwnSends(s, e, id, m);
    case EExpire(_, _) => ExpireSends(s, e, id, m);
    case EInboundTimeout(_, _) => InboundTimeoutSends(s, e, id, m);
    case EInboundSelfEnd(_) => OwnSends(s, e, id, m);
    case EInInvite(_, _, _, _, _, _) => InviteSends(s, e, id, m);
    case EInEnd(_) => StreamSends(s, e, id, m);
    case _ => QuietSends(s, e, id, m);
  }
}
