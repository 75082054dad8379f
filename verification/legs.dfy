/**
  What one step can do to the bridge stream of one call id, as seen from one exchange.

  An exchange sees of a call between two servers whether it has a leg for it, at which end, whether the reader of its
  stream runs, and what it put on that stream. One rule says how a step can change this, by what the step means for
  the call id; everything that is proved about networks of exchanges rests on that rule.
 */
module CallLegs {
  import opened Options
  import opened Exchange
  import opened CallInvariants

  predicate Closing(m: PeerMsg) {
    m.Bye? || m.Busy?
  }

  /**
    A call id at one exchange: an out-leg, a running reader, an in-leg, a running inbound stream of that name,
    what kind of call it is, and all that was put on its stream.
   */
  datatype View = View(out: bool, reading: bool, inn: bool, live: bool, known: Option<Kind>, put: seq<PeerMsg>)

  function Seen(s: State, id: CallId): View {
    View(id in s.outLegs.v, id in s.readers.v, id in s.inLegs.v, id in s.streams.v,
         if id in s.kind.v then Some(s.kind.v[id]) else None, At(s.sent.v, id))
  }

  /** What an event means for a call id and the stream of that name. */
  datatype Cause = Own | NewCall | Placed(who: Sock) | Invited(kind: Kind, sendFails: bool)
                 | ReaderDone | PeerLeft | LegsOver | Opening | Closed

  function CauseOf(s: State, e: Event, id: CallId): Cause {
    match e
    case ECall(_, _, k, k2, _, _) => if id == k || id == k2 then NewCall else Own
    case EServiceCall(_, k, _) => if id == k then NewCall else Own
    case EPlaceCross(c, k, _, _) => if k == id then Placed(c) else Own
    case EInInvite(st, k, n, host, _, _) =>
      if k == id then Invited(Incoming(n, st), host == HostedHere(true, false)) else Own
    case EOutEvent(k, m) => if k == id && Closing(m) then ReaderDone else Own
    case EOutEnd(k, _) => if k == id then ReaderDone else Own
    case EInBye(k, _) => if k == id then PeerLeft else Own
    case EStreamOpen(st) => if st == id then Opening else Own
    case EInEnd(st) => if st == id then Closed else if st in s.streams.v && id in s.streams.v[st] then LegsOver else Own
    case _ => Own
  }

  /** The message that b has and a has not. */
  function News(a: View, b: View): Option<PeerMsg> {
    if |a.put| < |b.put| then Some(b.put[|a.put|]) else None
  }

  predicate CloseSent(a: View, b: View) {
    News(a, b).Some? && Closing(News(a, b).value)
  }

  /**
    One message at a time; INCOMING comes with a new out-leg, and a leg that is gone has said so, has
    been told so by the peer, or has lost its stream. What kind of call an id is never changes.
   */
  predicate Rule(a: View, why: Cause, b: View) {
    var m := News(a, b);
    && b.put == (if m.Some? then a.put + [m.value] else a.put)
    && (CloseSent(a, b) ==> !b.inn && !b.out)
    && (m.Some? && m.value.Invite? ==> why.Placed? && b.out)
    && (a.out && !b.out ==> why.ReaderDone? || (m.Some? && m.value.Bye?))
    && (!a.out && b.out ==>
       why.Placed? && m.Some? && m.value.Invite? && b.reading && b.known == Some(Outgoing(why.who)))
    && (why.ReaderDone? ==> !b.out && !b.reading && m.None?)
    && (a.reading && !b.reading ==> why.ReaderDone?)
    && (!a.reading && b.reading ==> b.out && !a.out)
    && (a.inn && !b.inn ==> why.PeerLeft? || why.LegsOver? || why.Closed? || CloseSent(a, b))
    && (!a.inn && b.inn ==> why.Invited?)
    && (why.Invited? ==> b.known == Some(why.kind) && (b.inn || CloseSent(a, b) || why.sendFails))
    && (why.PeerLeft? || why.Closed? ==> m.None?) && (why.PeerLeft? ==> !b.inn)
    && (a.live && !b.live <==> a.live && why.Closed?)
    && (!a.live && b.live <==> why.Opening?)
    && (a.known.Some? ==> b.known == a.known)
    && (a.known.None? && b.known.Some? ==> why.NewCall? || why.Placed? || why.Invited?)
  }

  /** The view once m has gone out on the stream; a closing message takes the leg with it. */
  function Sending(a: View, m: PeerMsg): View {
    a.(out := a.out && !Closing(m), inn := a.inn && !Closing(m), put := a.put + [m])
  }

  lemma {:induction false} SendingRule(a: View, m: PeerMsg)
    requires !m.Invite? && (m.Busy? ==> !a.out)
    ensures Rule(a, Own, Sending(a, m))
  {}

  lemma {:induction false} IdleRule(a: View)
    ensures Rule(a, Own, a)
  {}

  /** A call id is on one side of the bridge only, and on neither before it is known. */
  predicate OneSided(s: State, id: CallId) {
    && !(id in s.outLegs.v && id in s.inLegs.v)
    && (id in s.recorders.v ==> id !in s.outLegs.v)
    && (id in s.outLegs.v ==> id in s.readers.v)
    && (id !in s.kind.v ==> id !in s.inLegs.v && id !in s.outLegs.v && id !in s.readers.v && id !in s.sent.v)
  }

  lemma {:induction false} KnownSides(s: State, id: CallId)
    requires Inv(s)
    ensures OneSided(s, id)
  {}

  // ---- Handlers that touch no leg ----

  lemma {:induction false} EndLegs(s: State, c: Sock, k: CallId, why: Reason, id: CallId)
    ensures Seen(End(s, c, k, why), id) == Seen(s, id)
    ensures Seen(EndOthers(s, c, k, why), id) == Seen(s, id)
    ensures Seen(EndService(s, k), id) == Seen(s, id)
    ensures Seen(LeaveService(s, c, k), id) == Seen(s, id)
  {}

  lemma {:induction false} RecordLegs(s: State, caller: Sock, box: Number, k: CallId, vm: Voicemail, id: CallId)
    ensures Seen(RouteLocal(s, caller, box, k, vm), id) == Seen(s, id)
  {}

  lemma {:induction false} RouteLocalLegs(s: State, r: Ring, k: CallId, vm: Voicemail, why: Reason, id: CallId)
    ensures Seen(RouteLocalOr(s, r, k, vm, why), id) == Seen(s, id)
  {
    RecordLegs(s, r.caller, r.mailbox, k, vm, id);
    EndLegs(RouteLocal(s, r.caller, r.mailbox, k, vm), r.caller, k, why, id);
    hide Seen, RouteLocal, End, Routed;
  }

  lemma {:induction false} RecordOrFailLegs(s: State, c: Sock, n: Number, k: CallId, vm: Voicemail, id: CallId)
    ensures Seen(RecordOrFail(s, c, n, k, vm), id) == Seen(s, id)
  {
    RecordLegs(s, c, n, k, vm, id);
    hide RouteLocal, Routed;
  }

  lemma {:induction false} CallLegsSame(s: State, c: Sock, n: Number, k: CallId, k2: CallId, line: Line, vm: Voicemail,
                                        id: CallId)
    requires k !in s.kind.v && k2 !in s.kind.v
    ensures Rule(Seen(s, id), if id == k || id == k2 then NewCall else Own, Seen(Call(s, c, n, k, k2, line, vm), id))
  {
    hide RecordOrFail;
    if c in s.userOf.v && n !in s.clients.v && line.NoPush? {
      RecordOrFailLegs(s.(kind := Cell(s.kind.v[k := Local(c, n)])), c, n, k, vm, id);
    } else if c in s.userOf.v && n !in s.clients.v && line == Push(false) {
      var s1 := s.(kind := Cell(s.kind.v[k := Local(c, n)][k2 := Local(c, n)]), pending := Cell(s.pending.v - {n}),
                   callOf := Cell(s.callOf.v - {c}));
      RecordOrFailLegs(s1, c, n, k2, vm, id);
    }
  }

  lemma {:induction false} FrameLegs(s: State, s': State, id: CallId)
    requires s'.outLegs == s.outLegs && s'.inLegs == s.inLegs && s'.readers == s.readers && s'.sent == s.sent
    requires s'.streams == s.streams && s'.kind == s.kind
    ensures Seen(s', id) == Seen(s, id)
  {}

  lemma {:induction false} RingTimeoutLegs(s: State, k: CallId, vm: Voicemail, id: CallId)
    ensures Seen(RingTimeout(s, k, vm), id) == Seen(s, id)
  {
    hide RouteLocalOr, Online, End;
    if k in s.rings.v {
      var s1 := s.(rings := Cell(s.rings.v - {k}));
      EndLegs(s1, s.rings.v[k].callee, k, NoAnswer, id);
      RouteLocalLegs(End(s1, s.rings.v[k].callee, k, NoAnswer), s.rings.v[k], k, vm, NoAnswer, id);
    }
  }

  lemma {:induction false} LeaveRingLegs(s: State, c: Sock, k: CallId, vm: Voicemail, id: CallId)
    ensures Seen(LeaveRing(s, c, k, vm), id) == Seen(s, id)
  {
    hide RouteLocalOr, Online, End;
    if k in s.rings.v {
      var s1 := s.(rings := Cell(s.rings.v - {k}));
      RouteLocalLegs(s1, s.rings.v[k], k, vm, Disconnected, id);
      EndLegs(s1, s.rings.v[k].callee, k, Disconnected, id);
    }
  }

  lemma {:induction false} LocalSelfEndLegs(s: State, c: Sock, k: CallId, id: CallId)
    ensures Seen(LocalSelfEnd(s, c, k), id) == Seen(s, id)
  {
    hide End, EndService;
    var s0 := s.(selfEnded := Cell(s.selfEnded.v + {k}));
    EndLegs(s0, c, k, VoicemailComplete, id);
    EndLegs(End(s0, c, k, VoicemailComplete), c, k, VoicemailComplete, id);
  }

  lemma {:induction false} DeliverLegs(s: State, p: Pending, c: Sock, id: CallId)
    ensures Seen(Deliver(s, p, c), id) == Seen(s, id)
  {}

  lemma {:induction false} RegisterLegs(s: State, c: Sock, n: Number, id: CallId)
    ensures Seen(Register(s, c, n), id) == Seen(s, id)
  {
    hide Deliver;
    var s1 := s.(clients := Cell(s.clients.v[n := c]), userOf := Cell(s.userOf.v[c := n]),
                 pending := Cell(s.pending.v - {n}),
                 told := Cell(s.told.v + multiset{(c, ClientMsg.Registered)}));
    if n in s.pending.v {
      DeliverLegs(s1, s.pending.v[n], c, id);
    }
  }

  lemma {:induction false} ServiceCallLegs(s: State, c: Sock, k: CallId, accepts: bool, id: CallId)
    requires k !in s.kind.v
    ensures Rule(Seen(s, id), if id == k then NewCall else Own, Seen(ServiceCall(s, c, k, accepts), id))
  {}

  lemma {:induction false} StreamOpenLegs(s: State, st: Stream, id: CallId)
    requires st !in s.streams.v
    ensures Rule(Seen(s, id), if id == st then Opening else Own, Seen(StreamOpen(s, st), id))
  {}

  lemma {:induction false} InIceLegs(s: State, k: CallId, cand: Candidate, id: CallId)
    ensures Seen(InIce(s, k, cand), id) == Seen(s, id)
  {
    hide Put;
    var s' := InIce(s, k, cand);
    assert s'.streams == s.streams && s'.kind == s.kind;
    assert s'.sent == s.sent && s'.outLegs == s.outLegs && s'.readers == s.readers;
    assert id in s'.inLegs.v <==> id in s.inLegs.v;
    hide InIce;
  }

  // ---- Handlers that send ----

  lemma {:induction false} RouteInboundLegs(s: State, leg: Leg, k: CallId, vm: Voicemail, m: PeerMsg, id: CallId)
    requires k in s.inLegs.v && OneSided(s, k) && m.Bye?
    ensures Rule(Seen(s, id), Own, Seen(RouteInboundOr(s, leg, k, vm, m), id))
  {
    hide Rule;
    var a := Seen(s, id);
    assert Seen(RouteInboundOr(s, leg, k, vm, m), id)
        == if id == k then Sending(a, if vm.Works? then Accept else m) else a;
    IdleRule(a);
    SendingRule(a, Accept);
    SendingRule(a, m);
  }

  lemma {:induction false} CloseOutLegs(s: State, c: Sock, k: CallId, why: Reason, id: CallId)
    requires OneSided(s, k) && k in s.outLegs.v
    ensures var a := Seen(s, id); Seen(CloseLeg(s, c, k, why), id) == if id == k then Sending(a, Bye(why)) else a
  {}

  lemma {:induction false} CloseInLegs(s: State, c: Sock, k: CallId, why: Reason, id: CallId)
    requires OneSided(s, k) && k !in s.outLegs.v && OnLeg(s, c, k)
    ensures var a := Seen(s, id); Seen(CloseLeg(s, c, k, why), id) == if id == k then Sending(a, Bye(why)) else a
  {}

  lemma {:induction false} CloseNoLegs(s: State, c: Sock, k: CallId, why: Reason)
    requires k !in s.outLegs.v && !OnLeg(s, c, k)
    ensures CloseLeg(s, c, k, why) == s
  {}

  lemma {:induction false} CloseLegLegs(s: State, c: Sock, k: CallId, why: Reason, id: CallId)
    requires OneSided(s, k)
    ensures Rule(Seen(s, id), Own, Seen(CloseLeg(s, c, k, why), id))
  {
    hide Rule, CloseLeg, OnLeg, Seen, OneSided, Sending;
    IdleRule(Seen(s, id));
    SendingRule(Seen(s, id), Bye(why));
    if k in s.outLegs.v {
      CloseOutLegs(s, c, k, why, id);
    } else if OnLeg(s, c, k) {
      CloseInLegs(s, c, k, why, id);
    } else {
      CloseNoLegs(s, c, k, why);
    }
  }

  lemma {:induction false} LeaveLegs(s: State, c: Sock, k: CallId, vm: Voicemail, id: CallId)
    ensures Seen(LeaveCall(s, c, k, vm), id) == Seen(CloseLeg(s, c, k, Disconnected), id)
  {
    hide CloseLeg, LeaveRing, LeaveService, EndOthers, Unqueued;
    var s1 := CloseLeg(s, c, k, Disconnected);
    var s2 := s1.(pending := Cell(Unqueued(s1.pending.v, k)));
    LeaveRingLegs(s2, c, k, vm, id);
    var s3 := LeaveRing(s2, c, k, vm);
    EndLegs(s3, c, k, Disconnected, id);
    EndLegs(LeaveService(s3, c, k), c, k, Disconnected, id);
  }

  lemma {:induction false} DisconnectLegs(s: State, c: Sock, vm: Voicemail, id: CallId)
    requires forall k :: OneSided(s, k)
    ensures Rule(Seen(s, id), Own, Seen(Disconnect(s, c, vm), id))
  {
    hide Rule, LeaveCall, CloseLeg, OneSided;
    if c in s.userOf.v && c in s.callOf.v {
      var s1 := s.(callOf := Cell(s.callOf.v - {c}));
      assert OneSided(s, s.callOf.v[c]);
      StillOneSided(s, s1, s.callOf.v[c]);
      CloseLegLegs(s1, c, s.callOf.v[c], Disconnected, id);
      LeaveLegs(s1, c, s.callOf.v[c], vm, id);
    } else {
      IdleRule(Seen(s, id));
    }
  }

  lemma {:induction false} StillOneSided(s: State, s': State, k: CallId)
    requires OneSided(s, k) && Seen(s', k) == Seen(s, k) && s'.recorders == s.recorders && s'.kind == s.kind
      && s'.sent == s.sent
    ensures OneSided(s', k)
  {}

  lemma {:induction false} HangupInLegs(s: State, c: Sock, k: CallId, vm: Voicemail, id: CallId)
    requires OneSided(s, k)
    ensures Rule(Seen(s, id), Own, Seen(HangupIn(s, c, k, vm), id))
  {
    hide Rule, Seen, OneSided, RouteLocalOr, RouteInboundOr, CloseLeg, Freed, Unqueued, End, EndOthers, EndService,
         Queued;
    IdleRule(Seen(s, id));
    EndLegs(s, c, k, HungUp, id);
    if k in s.rings.v {
      var s1 := s.(rings := Cell(s.rings.v - {k}));
      FrameLegs(s, s1, id);
      RouteLocalLegs(s1, s.rings.v[k], k, vm, Declined, id);
      EndLegs(s1, s.rings.v[k].callee, k, HungUp, id);
    } else if Declinable(s, c, k) {
      var s1 := s.(callOf := Cell(Freed(s.callOf.v, c, k)));
      FrameLegs(s, s1, k);
      FrameLegs(s, s1, id);
      StillOneSided(s, s1, k);
      RouteInboundLegs(s1, Quiet(s.inLegs.v[k]), k, vm, Bye(Declined), id);
    } else if OnLeg(s, c, k) {
      CloseLegLegs(s, c, k, HungUp, id);
    } else {
      FrameLegs(s, s.(pending := Cell(Unqueued(s.pending.v, k))), id);
    }
  }

  lemma {:induction false} HangupLegs(s: State, c: Sock, vm: Voicemail, id: CallId)
    requires forall k :: OneSided(s, k)
    ensures Rule(Seen(s, id), Own, Seen(Hangup(s, c, vm), id))
  {
    hide Rule, HangupIn, OneSided;
    if c in s.userOf.v && c in s.callOf.v {
      var s1 := s.(callOf := Cell(s.callOf.v - {c}));
      assert OneSided(s, s.callOf.v[c]);
      StillOneSided(s, s1, s.callOf.v[c]);
      HangupInLegs(s1, c, s.callOf.v[c], vm, id);
    } else {
      IdleRule(Seen(s, id));
    }
  }

  lemma {:induction false} DeclineLegs(s: State, c: Sock, asked: Option<CallId>, vm: Voicemail, id: CallId)
    requires forall k :: OneSided(s, k)
    ensures Rule(Seen(s, id), Own, Seen(Decline(s, c, asked, vm), id))
  {
    hide Rule, Hangup, RouteLocalOr, Freed, OneSided;
    if c !in s.userOf.v || (asked.None? && c !in s.callOf.v) {
      IdleRule(Seen(s, id));
    } else {
      var k := if asked.Some? then asked.value else s.callOf.v[c];
      var s1 := s.(rings := Cell(s.rings.v - {k}));
      if k in s.rings.v && s.rings.v[k].callee == c {
        RouteLocalLegs(s1.(callOf := Cell(Freed(s.callOf.v, c, k))), s.rings.v[k], k, vm, Declined, id);
        IdleRule(Seen(s, id));
      } else {
        forall x ensures OneSided(s1, x) {
          assert OneSided(s, x);
          StillOneSided(s, s1, x);
        }
        HangupLegs(s1, c, vm, id);
      }
    }
  }

  lemma {:induction false} ExpireLegs(s: State, n: Number, vm: Voicemail, id: CallId)
    requires forall k :: OneSided(s, k)
    ensures Rule(Seen(s, id), Own, Seen(Expire(s, n, vm), id))
  {
    hide Rule, RouteLocalOr, RouteInboundOr, Online, OneSided;
    IdleRule(Seen(s, id));
    if n in s.pending.v {
      var s1 := s.(pending := Cell(s.pending.v - {n}));
      match s.pending.v[n]
      case Remote(k) =>
        if k in s.inLegs.v {
          assert OneSided(s, k);
          StillOneSided(s, s1, k);
          RouteInboundLegs(s1, s.inLegs.v[k], k, vm, Bye(NoAnswer), id);
        }
      case Waiting(k, caller) => RouteLocalLegs(s1, Ring(caller, caller, n), k, vm, NoAnswer, id);
    }
  }

  lemma {:induction false} InboundTimeoutLegs(s: State, k: CallId, vm: Voicemail, id: CallId)
    requires OneSided(s, k)
    ensures Rule(Seen(s, id), Own, Seen(InboundTimeout(s, k, vm), id))
  {
    hide Rule, RouteInboundOr, Freed;
    IdleRule(Seen(s, id));
    if k in s.inLegs.v && s.inLegs.v[k].callee.Some? && !s.inLegs.v[k].answered && s.inLegs.v[k].service.NoService? {
      var s1 := End(s, s.inLegs.v[k].callee.value, k, NoAnswer);
      StillOneSided(s, s1, k);
      RouteInboundLegs(s1, Quiet(s.inLegs.v[k]), k, vm, Bye(NoAnswer), id);
    }
  }

  lemma {:induction false} AnswerLegs(s: State, c: Sock, k: CallId, pick: Sock, id: CallId)
    ensures Rule(Seen(s, id), Own, Seen(Answer(s, c, k, pick), id))
  {
    hide Rule, Seen;
    IdleRule(Seen(s, id));
    SendingRule(Seen(s, id), Accept);
    if c in s.userOf.v && k in s.inLegs.v {
      AcceptLegs(s, c, k, pick, id);
      hide Answer;
    } else {
      hide Others;
      FrameLegs(s, Answer(s, c, k, pick), id);
    }
  }

  lemma {:induction false} AcceptLegs(s: State, c: Sock, k: CallId, pick: Sock, id: CallId)
    requires c in s.userOf.v && k in s.inLegs.v
    ensures var a := Seen(s, id); Seen(Answer(s, c, k, pick), id) == if id == k then Sending(a, Accept) else a
  {}

  lemma {:induction false} LocalIceLegs(s: State, c: Sock, k: CallId, cand: Candidate, id: CallId)
    ensures Rule(Seen(s, id), Own, Seen(LocalIce(s, c, k, cand), id))
  {
    hide Rule, Seen, OnLeg;
    IdleRule(Seen(s, id));
    SendingRule(Seen(s, id), Ice(cand));
    if c in s.userOf.v && k !in s.svc.v && OnLeg(s, c, k) {
      RelayLegs(s, c, k, cand, id);
      hide LocalIce;
    } else {
      hide Others;
      FrameLegs(s, LocalIce(s, c, k, cand), id);
    }
  }

  lemma {:induction false} RelayLegs(s: State, c: Sock, k: CallId, cand: Candidate, id: CallId)
    requires c in s.userOf.v && k !in s.svc.v && OnLeg(s, c, k)
    ensures var a := Seen(s, id); Seen(LocalIce(s, c, k, cand), id) == if id == k then Sending(a, Ice(cand)) else a
  {
    hide OnLeg;
  }

  lemma {:induction false} InboundSelfEndLegs(s: State, k: CallId, id: CallId)
    requires OneSided(s, k) && k in s.recorders.v
    ensures Rule(Seen(s, id), Own, Seen(InboundSelfEnd(s, k), id))
  {
    hide Rule;
    var a := Seen(s, id);
    assert Seen(InboundSelfEnd(s, k), id) == if id == k then Sending(a, Bye(VoicemailComplete)) else a;
    IdleRule(a);
    SendingRule(a, Bye(VoicemailComplete));
  }

  // ---- The bridge's own events ----

  lemma {:induction false} PlaceCrossLegs(s: State, c: Sock, k: CallId, to: Number, reachable: bool, id: CallId)
    requires OneSided(s, k) && k !in s.kind.v
    ensures Rule(Seen(s, id), CauseOf(s, EPlaceCross(c, k, to, reachable), id),
      Seen(PlaceCross(s, c, k, to, reachable), id))
  {}

  /** What inboundIncoming answers on the stream, if that works. */
  function Reply(s: State, n: Number, host: Hosting, line: Line, vm: Voicemail): PeerMsg {
    match host
    case HostedHere(ok, _) => if ok then Accept else Busy(ServiceError)
    case NotHosted =>
      if n in s.clients.v || line == Push(true) then Alerting
      else if line.NoPush? && vm.Works? then Accept
      else Busy(Unavailable)
  }

  /** The view after inboundIncoming. */
  function Opened(a: View, k: Kind, m: PeerMsg, sendFails: bool): View {
    if sendFails then a.(known := Some(k)) else a.(inn := !Closing(m), known := Some(k), put := a.put + [m])
  }

  lemma {:induction false} InviteOpens(s: State, st: Stream, k: CallId, n: Number, host: Hosting, line: Line,
                                       vm: Voicemail, id: CallId)
    requires k !in s.inLegs.v && st in s.streams.v
    ensures var a := Seen(s, id);
            Seen(InInvite(s, st, k, n, host, line, vm), id) ==
              if id != k then a
              else Opened(a, Incoming(n, st), Reply(s, n, host, line, vm), host == HostedHere(true, false))
  {
    hide Seen, Reply, InInvite, Opened;
    if host.HostedHere? {
      HostedOpens(s, st, k, n, host, line, vm, id);
    } else if n in s.clients.v {
      OnlineOpens(s, st, k, n, line, vm, id);
    } else {
      OfflineOpens(s, st, k, n, line, vm, id);
    }
  }

  lemma {:induction false} HostedOpens(s: State, st: Stream, k: CallId, n: Number, host: Hosting, line: Line,
                                       vm: Voicemail, id: CallId)
    requires k !in s.inLegs.v && st in s.streams.v && host.HostedHere?
    ensures var a := Seen(s, id);
            Seen(InInvite(s, st, k, n, host, line, vm), id) ==
              if id != k then a
              else Opened(a, Incoming(n, st), Reply(s, n, host, line, vm), host == HostedHere(true, false))
  {
    hide Refuse;
    if !host.accepts {
      RefuseLegs(s.(kind := Cell(s.kind.v[k := Incoming(n, st)])), k, ServiceError, id);
    }
  }

  lemma {:induction false} OnlineOpens(s: State, st: Stream, k: CallId, n: Number, line: Line, vm: Voicemail,
                                       id: CallId)
    requires k !in s.inLegs.v && st in s.streams.v && n in s.clients.v
    ensures var a := Seen(s, id);
            Seen(InInvite(s, st, k, n, NotHosted, line, vm), id)
              == if id != k then a else Opened(a, Incoming(n, st), Alerting, false)
    ensures Reply(s, n, NotHosted, line, vm) == Alerting
  {}

  lemma {:induction false} OfflineOpens(s: State, st: Stream, k: CallId, n: Number, line: Line, vm: Voicemail,
                                        id: CallId)
    requires k !in s.inLegs.v && st in s.streams.v && n !in s.clients.v
    ensures var a := Seen(s, id);
            Seen(InInvite(s, st, k, n, NotHosted, line, vm), id) ==
              if id != k then a else Opened(a, Incoming(n, st), Reply(s, n, NotHosted, line, vm), false)
  {
    hide RouteInbound, RouteInboundOr, Refuse;
    var s2 := s.(kind := Cell(s.kind.v[k := Incoming(n, st)]));
    match line
    case Unknown => RefuseLegs(s2, k, Unavailable, id);
    case Push(sent) => if !sent { RefuseLegs(s2.(pending := Cell(s.pending.v - {n})), k, Unavailable, id); }
    case NoPush =>
      RecordedLegs(s2.(streams := Cell(Put(s.streams.v, st, [k]))), Blank(st, n), k, id);
      UnroutedLegs(s2, Blank(st, n), k, vm, Busy(Unavailable), id);
  }

  lemma {:induction false} RefuseLegs(s: State, k: CallId, why: Reason, id: CallId)
    requires k !in s.inLegs.v
    ensures var a := Seen(s, id);
            Seen(Refuse(s, k, why), id) == if id == k then a.(put := a.put + [Busy(why)]) else a
  {}

  lemma {:induction false} RecordedLegs(s: State, leg: Leg, k: CallId, id: CallId)
    ensures var a := Seen(s, id);
            Seen(RouteInbound(s, leg, k), id) == if id == k then a.(inn := true, put := a.put + [Accept]) else a
  {}

  lemma {:induction false} UnroutedLegs(s: State, leg: Leg, k: CallId, vm: Voicemail, m: PeerMsg, id: CallId)
    requires k !in s.inLegs.v
    ensures var a := Seen(s, id);
            !vm.Works? ==> Seen(RouteInboundOr(s, leg, k, vm, m), id) == if id == k then a.(put := a.put + [m]) else a
  {}

  lemma {:induction false} InInviteLegs(s: State, st: Stream, k: CallId, n: Number, host: Hosting, line: Line,
                                        vm: Voicemail, id: CallId)
    requires OneSided(s, k) && k !in s.kind.v && st in s.streams.v
    ensures Rule(Seen(s, id), CauseOf(s, EInInvite(st, k, n, host, line, vm), id),
      Seen(InInvite(s, st, k, n, host, line, vm), id))
  {
    InviteOpens(s, st, k, n, host, line, vm, id);
    hide InInvite;
  }

  lemma {:induction false} EndLegLegs(s: State, k: CallId, why: Reason, id: CallId)
    requires k in s.inLegs.v
    ensures var a := Seen(s, id); Seen(EndLeg(s, k, why), id) == if id == k then a.(inn := false) else a
  {
    hide Freed, Unqueued;
  }

  lemma {:induction false} InByeLegs(s: State, k: CallId, why: Reason, id: CallId)
    ensures Rule(Seen(s, id), CauseOf(s, EInBye(k, why), id), Seen(InBye(s, k, why), id))
  {
    hide EndLeg, Unqueued;
    if k in s.inLegs.v {
      EndLegLegs(s, k, why, id);
    }
  }

  lemma {:induction false} CleanUpLegs(s: State, k: CallId, id: CallId)
    ensures var a := Seen(s, id); Seen(CleanUp(s, k), id) == if id == k then a.(inn := false) else a
  {
    hide EndLeg, Unqueued;
    if k in s.inLegs.v {
      EndLegLegs(s, k, Disconnected, id);
    }
  }

  lemma {:induction false} CleanUpsLegs(s: State, ids: seq<CallId>, id: CallId)
    ensures var a := Seen(s, id); Seen(CleanUps(s, ids), id) == if id in ids then a.(inn := false) else a
    decreases |ids|
  {
    hide CleanUp, Seen;
    if ids != [] {
      CleanUpLegs(s, ids[0], id);
      CleanUpsLegs(CleanUp(s, ids[0]), ids[1..], id);
    }
  }

  lemma {:induction false} InEndLegs(s: State, st: Stream, id: CallId)
    ensures Rule(Seen(s, id), CauseOf(s, EInEnd(st), id), Seen(InEnd(s, st), id))
  {
    hide CleanUps;
    if st in s.streams.v {
      CleanUpsLegs(s, s.streams.v[st], id);
    }
  }

  lemma {:induction false} OutEventLegs(s: State, k: CallId, m: PeerMsg, id: CallId)
    requires OneSided(s, k)
    ensures Rule(Seen(s, id), CauseOf(s, EOutEvent(k, m), id), Seen(OutEvent(s, k, m), id))
  {
    hide Rule;
    var a := Seen(s, id);
    assert Seen(OutEvent(s, k, m), id) == if id == k && Closing(m) then a.(out := false, reading := false) else a;
    ReaderRule(a);
    IdleRule(a);
  }

  lemma {:induction false} OutEndLegs(s: State, k: CallId, eof: bool, id: CallId)
    requires OneSided(s, k)
    ensures Rule(Seen(s, id), CauseOf(s, EOutEnd(k, eof), id), Seen(OutEnd(s, k, eof), id))
  {
    hide Rule;
    var a := Seen(s, id);
    assert Seen(OutEnd(s, k, eof), id) == if id == k then a.(out := false, reading := false) else a;
    ReaderRule(a);
    IdleRule(a);
  }

  lemma {:induction false} ReaderRule(a: View)
    ensures Rule(a, ReaderDone, a.(out := false, reading := false))
  {}

  lemma {:induction false} AllKnownSides(s: State)
    requires Inv(s)
    ensures forall k :: OneSided(s, k)
  {
    hide Inv;
    forall k ensures OneSided(s, k) { KnownSides(s, k); }
  }

  lemma {:induction false} ClientStepLegs(s: State, e: Event, id: CallId)
    requires Inv(s) && Possible(s, e) && From(e).Some?
    ensures Rule(Seen(s, id), CauseOf(s, e, id), Seen(Step(s, e), id))
  {
    IdleRule(Seen(s, id));
    hide Inv, Rule, OneSided, Seen;
    hide Register, Disconnect, Call, ServiceCall, PlaceCross, Answer, Hangup, Decline, LocalIce;
    match e
    case ERegister(c, n) => RegisterLegs(s, c, n, id);
    case EDisconnect(c, vm) => AllKnownSides(s); DisconnectLegs(s, c, vm, id);
    case ECall(c, n, k, k2, line, vm) => CallLegsSame(s, c, n, k, k2, line, vm, id);
    case EServiceCall(c, k, accepts) => ServiceCallLegs(s, c, k, accepts, id);
    case EPlaceCross(c, k, n, reachable) => KnownSides(s, k); PlaceCrossLegs(s, c, k, n, reachable, id);
    case EAnswer(c, k, pick) => AnswerLegs(s, c, k, pick, id);
    case EHangup(c, vm) => AllKnownSides(s); HangupLegs(s, c, vm, id);
    case EDecline(c, asked, vm) => AllKnownSides(s); DeclineLegs(s, c, asked, vm, id);
    case ELocalIce(c, k, cand) => LocalIceLegs(s, c, k, cand, id);
  }

  lemma {:induction false} InnerStepLegs(s: State, e: Event, id: CallId)
    requires Inv(s) && Possible(s, e) && From(e).None?
    ensures Rule(Seen(s, id), CauseOf(s, e, id), Seen(Step(s, e), id))
  {
    IdleRule(Seen(s, id));
    hide Inv, Rule, OneSided, Seen;
    hide RingTimeout, Expire, InboundTimeout, InboundSelfEnd, LocalSelfEnd, StreamOpen, InInvite, InIce, InBye, InEnd,
         OutEvent, OutEnd;
    match e
    case ERingTimeout(k, vm) => AllKnownSides(s); RingTimeoutLegs(s, k, vm, id);
    case EExpire(n, vm) => AllKnownSides(s); ExpireLegs(s, n, vm, id);
    case EInboundTimeout(k, vm) => KnownSides(s, k); InboundTimeoutLegs(s, k, vm, id);
    case EInboundSelfEnd(k) => KnownSides(s, k); InboundSelfEndLegs(s, k, id);
    case ELocalSelfEnd(c, k) => LocalSelfEndLegs(s, c, k, id);
    case EStreamOpen(st) => StreamOpenLegs(s, st, id);
    case EInInvite(st, k, n, host, line, vm) => KnownSides(s, k); InInviteLegs(s, st, k, n, host, line, vm, id);
    case EInIce(k, cand) => InIceLegs(s, k, cand, id);
    case EInBye(k, why) => InByeLegs(s, k, why, id);
    case EInEnd(st) => InEndLegs(s, st, id);
    case EOutEvent(k, m) => KnownSides(s, k); OutEventLegs(s, k, m, id);
    case EOutEnd(k, eof) => KnownSides(s, k); OutEndLegs(s, k, eof, id);
  }

  /** Whatever step an exchange takes, each call id's stream follows the rule. */
  lemma {:induction false} StepLegs(s: State, e: Event, id: CallId)
    requires Inv(s) && Possible(s, e)
    ensures Rule(Seen(s, id), CauseOf(s, e, id), Seen(Step(s, e), id))
  {
    hide Inv, Rule, Seen, CauseOf, Step, Possible;
    if From(e).Some? {
      ClientStepLegs(s, e, id);
    } else {
      InnerStepLegs(s, e, id);
    }
  }
}
