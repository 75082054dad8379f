/**
  What the invariants mean for whole runs of one exchange.
 */
module CallTheorems {
  import opened Options
  import opened Exchange
  import opened CallInvariants

  // ---- What holds in every reachable state ----

  /** A local call queued for an offline callee. */
  predicate Waits(s: State, id: CallId) {
    exists n :: n in s.pending.v && s.pending.v[n].Waiting? && s.pending.v[n].id == id
  }

  /** A local call is in one table at most, is recorded at most once and that recording ended at most once. */
  lemma {:induction false} OnePhase(states: seq<State>, events: seq<Event>, i: nat, id: CallId)
    requires Run(states, events) && i < |states|
    ensures var s := states[i];
            var waits := Waits(s, id);
            && !(id in s.rings.v && id in s.svc.v) && !(id in s.rings.v && waits) && !(id in s.svc.v && waits)
            && s.attempts.v[id] <= 1 && s.ended.v[id] <= 1
            && (id in s.rings.v || waits ==> s.attempts.v[id] == 0 && s.ended.v[id] == 0)
            && (id in s.svc.v ==> s.ended.v[id] == 0)
  {
    RunKeeps(states, events, i);
    OnePhaseNow(states[i], id);
  }

  lemma {:induction false} OnePhaseNow(s: State, id: CallId)
    requires Inv(s)
    ensures s.attempts.v[id] <= 1 && s.ended.v[id] <= 1
  {
    assert id in s.attempts.v ==> s.attempts.v[id] == 1;
    assert id in s.ended.v ==> s.ended.v[id] == 1;
  }

  /**
    No number is both queued and online; queued calls have distinct ids; a queued remote call has its leg, untouched.
   */
  lemma {:induction false} PendingIndex(states: seq<State>, events: seq<Event>, i: nat, n: Number)
    requires Run(states, events) && i < |states| && n in states[i].pending.v
    ensures var s := states[i]; var p := s.pending.v[n];
            && n !in s.clients.v
            && (forall m | m in s.pending.v && m != n :: s.pending.v[m].id != p.id)
            && (p.Remote? ==>
                  && p.id in s.inLegs.v && s.inLegs.v[p.id].calleeNum == n && s.inLegs.v[p.id].callee.None?
                  && s.inLegs.v[p.id].service.NoService? && !s.inLegs.v[p.id].answered)
            && (p.Waiting? ==> p.id in s.kind.v && s.kind.v[p.id] == Local(p.caller, n))
  {
    RunKeeps(states, events, i);
    QueuedFacts(states[i], n);
  }

  /** Every inbound leg is in the opened list of one running stream, its own, and of no other. */
  lemma {:induction false} LegOwner(states: seq<State>, events: seq<Event>, i: nat, id: CallId)
    requires Run(states, events) && i < |states| && id in states[i].inLegs.v
    ensures var s := states[i]; var own := s.inLegs.v[id].stream;
            && own in s.streams.v && id in s.streams.v[own]
            && forall st | st in s.streams.v && id in s.streams.v[st] :: st == own
  {
    RunKeeps(states, events, i);
  }

  /** The recorder of a leg whose callee was online has been fed what the caller sent, in order, each candidate once. */
  lemma {:induction false} CandidatesComplete(states: seq<State>, events: seq<Event>, i: nat, id: CallId)
    requires Run(states, events) && i < |states| && id in states[i].inLegs.v && id in states[i].rang.v
    ensures var s := states[i];
            && (s.inLegs.v[id].service.Recorder? ==> At(s.fed.v, id) == At(s.heard.v, id))
            && (s.inLegs.v[id].service.NoService? ==> At(s.fed.v, id) == [])
  {
    RunKeeps(states, events, i);
  }

  /** A recorder always records for the line that was dialled. */
  lemma {:induction false} RightMailbox(states: seq<State>, events: seq<Event>, i: nat, id: CallId)
    requires Run(states, events) && i < |states| && id in states[i].mailbox.v
    ensures id in states[i].kind.v && Dialled(states[i].kind.v[id]) == Some(states[i].mailbox.v[id])
  {
    RunKeeps(states, events, i);
  }

  /** A recorder on an inbound leg is still there, or has ended itself, or was ended by call control, once. */
  lemma {:induction false} RecorderSettled(states: seq<State>, events: seq<Event>, i: nat, id: CallId)
    requires Run(states, events) && i < |states| && id in states[i].recorders.v
    ensures var s := states[i];
            && s.attempts.v[id] == 1 && s.ended.v[id] <= 1
            && ((id in s.inLegs.v && s.inLegs.v[id].service.Recorder? && s.ended.v[id] == 0)
                || s.ended.v[id] == 1 || id in s.selfEnded.v)
  {
    RunKeeps(states, events, i);
    OnePhaseNow(states[i], id);
  }

  // ---- A stream that ends leaves nothing behind ----

  lemma {:induction false} CleanUpEnds(s: State, id: CallId, x: CallId)
    ensures var s' := CleanUp(s, id);
            && (id in s.inLegs.v && !s.inLegs.v[id].service.NoService? ==> id in s'.ended.v)
            && (x in s.ended.v ==> x in s'.ended.v)
            && (x != id && x in s.inLegs.v ==> x in s'.inLegs.v && s'.inLegs.v[x] == s.inLegs.v[x])
            && (forall n | n in s'.pending.v ::
                  n in s.pending.v && s'.pending.v[n].id != id && s'.pending.v[n] == s.pending.v[n])
  {}

  lemma {:induction false} CleanUpsEnd(s: State, ids: seq<CallId>, x: CallId)
    ensures var s' := CleanUps(s, ids);
            && (x in ids && x in s.inLegs.v && !s.inLegs.v[x].service.NoService? ==> x in s'.ended.v)
            && (x in s.ended.v ==> x in s'.ended.v)
            && (x !in ids && x in s.inLegs.v ==> x in s'.inLegs.v && s'.inLegs.v[x] == s.inLegs.v[x])
            && (forall n | n in s'.pending.v ::
                  n in s.pending.v && s'.pending.v[n].id !in ids && s'.pending.v[n] == s.pending.v[n])
    decreases |ids|
  {
    hide CleanUp;
    if ids != [] {
      CleanUpEnds(s, ids[0], x);
      CleanUpsEnd(CleanUp(s, ids[0]), ids[1..], x);
    }
  }

  /**
    Once serveInbound returns, no call it opened has a leg, is queued or holds a socket, and any service on
    one has been ended, exactly once; the calls of other streams keep their legs.
   */
  lemma {:induction false} StreamLeavesNothing(states: seq<State>, events: seq<Event>, i: nat, st: Stream, id: CallId)
    requires Run(states, events) && i < |events| && events[i] == EInEnd(st) && st in states[i].streams.v
    ensures var s := states[i]; var s' := states[i + 1];
            if id in s.streams.v[st] then
              && id !in s'.inLegs.v
              && (forall n | n in s'.pending.v :: s'.pending.v[n].id != id)
              && (forall c | c in s'.callOf.v :: s'.callOf.v[c] != id)
              && (id in s.inLegs.v && !s.inLegs.v[id].service.NoService? ==> s.ended.v[id] == 0 && s'.ended.v[id] == 1)
            else id in s.inLegs.v ==> id in s'.inLegs.v && s'.inLegs.v[id] == s.inLegs.v[id]
  {
    var s := states[i];
    assert Possible(states[i], events[i]);
    RunKeeps(states, events, i);
    RunKeeps(states, events, i + 1);
    CleanUpsKeeps(s, s.streams.v[st]);
    CleanUpsEnd(s, s.streams.v[st], id);
    OnePhaseNow(states[i + 1], id);
    OpenedHere(s, st, id);
    KindsStay(s, s.streams.v[st]);
    hide CleanUps;
    LeftAlone(states[i + 1], id);
    hide Inv;
  }

  lemma {:induction false} OpenedHere(s: State, st: Stream, id: CallId)
    requires Inv(s) && st in s.streams.v
    ensures id in s.streams.v[st] ==> id in s.kind.v && s.kind.v[id].Incoming?
    ensures id in s.inLegs.v ==> s.ended.v[id] == 0
  {}

  lemma {:induction false} LeftAlone(s: State, id: CallId)
    requires Inv(s)
    ensures id in s.kind.v && s.kind.v[id].Incoming? && id !in s.inLegs.v ==>
      forall c | c in s.callOf.v :: s.callOf.v[c] != id
  {}

  lemma {:induction false} KindsStay(s: State, ids: seq<CallId>)
    ensures CleanUps(s, ids).kind == s.kind
    decreases |ids|
  {
    if ids != [] {
      KindsStay(CleanUp(s, ids[0]), ids[1..]);
    }
  }

  // ---- An answered leg is never redirected ----

  /** An inbound call that was answered by c, or is over without a recorder. */
  ghost predicate Kept(s: State, id: CallId, c: Sock) {
    && id in s.kind.v && s.kind.v[id].Incoming?
    && s.attempts.v[id] == 0 && id !in s.rings.v
    && (forall n | n in s.pending.v :: s.pending.v[n].id != id)
    && (id in s.inLegs.v ==> var leg := s.inLegs.v[id]; leg.answered && leg.service.NoService? && leg.callee == Some(c))
  }

  lemma {:induction false} RouteLocalStays(s: State, r: Ring, k: CallId, vm: Voicemail, why: Reason, id: CallId,
                                           o: Sock)
    requires Kept(s, id, o) && k != id
    ensures Kept(RouteLocal(s, r.caller, r.mailbox, k, vm), id, o)
    ensures Kept(RouteLocalOr(s, r, k, vm, why), id, o)
  {}

  lemma {:induction false} RouteInboundStays(s: State, leg: Leg, k: CallId, vm: Voicemail, m: PeerMsg, id: CallId,
                                             o: Sock)
    requires Kept(s, id, o) && k != id
    ensures Kept(RouteInboundOr(s, leg, k, vm, m), id, o)
  {}

  lemma {:induction false} RegisterStays(s: State, c: Sock, n: Number, id: CallId, o: Sock)
    requires Kept(s, id, o)
    ensures Kept(Register(s, c, n), id, o)
  {}

  lemma {:induction false} LeaveRingStays(s: State, c: Sock, k: CallId, vm: Voicemail, id: CallId, o: Sock)
    requires Kept(s, id, o)
    ensures Kept(LeaveRing(s, c, k, vm), id, o)
  {
    hide RouteLocalOr, Online;
    if k in s.rings.v {
      RouteLocalStays(s.(rings := Cell(s.rings.v - {k})), s.rings.v[k], k, vm, Disconnected, id, o);
    }
  }

  lemma {:induction false} LeaveCallStays(s: State, c: Sock, k: CallId, vm: Voicemail, id: CallId, o: Sock)
    requires Kept(s, id, o)
    ensures Kept(LeaveCall(s, c, k, vm), id, o)
  {
    hide LeaveRing;
    var s1 := CloseLeg(s, c, k, Disconnected);
    var s2 := s1.(pending := Cell(Unqueued(s1.pending.v, k)));
    LeaveRingStays(s2, c, k, vm, id, o);
  }

  lemma {:induction false} DisconnectStays(s: State, c: Sock, vm: Voicemail, id: CallId, o: Sock)
    requires Kept(s, id, o)
    ensures Kept(Disconnect(s, c, vm), id, o)
  {
    hide LeaveCall;
    if c in s.callOf.v {
      LeaveCallStays(s.(callOf := Cell(s.callOf.v - {c})), c, s.callOf.v[c], vm, id, o);
    }
  }

  lemma {:induction false} CallStays(s: State, c: Sock, n: Number, k: CallId, k2: CallId, line: Line, vm: Voicemail,
                                     id: CallId, o: Sock)
    requires Kept(s, id, o) && k != id && k2 != id
    ensures Kept(Call(s, c, n, k, k2, line, vm), id, o)
  {
    hide RecordOrFail;
    if c in s.userOf.v && n !in s.clients.v && line.NoPush? {
      RecordOrFailStays(s.(kind := Cell(s.kind.v[k := Local(c, n)])), c, n, k, vm, id, o);
    } else if c in s.userOf.v && n !in s.clients.v && line == Push(false) {
      RecordOrFailStays(s.(kind := Cell(s.kind.v[k := Local(c, n)][k2 := Local(c, n)]),
                           pending := Cell(s.pending.v - {n}), callOf := Cell(s.callOf.v - {c})), c, n, k2, vm, id, o);
    }
  }

  lemma {:induction false} RecordOrFailStays(s: State, c: Sock, n: Number, k: CallId, vm: Voicemail, id: CallId,
                                             o: Sock)
    requires Kept(s, id, o) && k != id
    ensures Kept(RecordOrFail(s, c, n, k, vm), id, o)
  {}

  lemma {:induction false} HangupStays(s: State, c: Sock, vm: Voicemail, id: CallId, o: Sock)
    requires Kept(s, id, o)
    ensures Kept(Hangup(s, c, vm), id, o)
  {
    hide RouteLocalOr, RouteInboundOr;
    if c in s.callOf.v {
      var s1 := s.(callOf := Cell(s.callOf.v - {c}));
      var k := s.callOf.v[c];
      if k in s1.rings.v {
        RouteLocalStays(s1.(rings := Cell(s1.rings.v - {k})), s.rings.v[k], k, vm, Declined, id, o);
      } else if Declinable(s1, c, k) {
        RouteInboundStays(s1.(callOf := Cell(Freed(s1.callOf.v, c, k))), Quiet(s.inLegs.v[k]), k, vm, Bye(Declined),
                          id, o);
      }
    }
  }

  lemma {:induction false} DeclineStays(s: State, c: Sock, asked: Option<CallId>, vm: Voicemail, id: CallId, o: Sock)
    requires Kept(s, id, o)
    ensures Kept(Decline(s, c, asked, vm), id, o)
  {
    hide RouteLocalOr, Hangup;
    if c in s.userOf.v && (asked.Some? || c in s.callOf.v) {
      var k := if asked.Some? then asked.value else s.callOf.v[c];
      var s1 := s.(rings := Cell(s.rings.v - {k}));
      if k in s.rings.v {
        RouteLocalStays(s1.(callOf := Cell(Freed(s.callOf.v, c, k))), s.rings.v[k], k, vm, Declined, id, o);
      }
      HangupStays(s1, c, vm, id, o);
    }
  }

  lemma {:induction false} TimersStay(s: State, k: CallId, vm: Voicemail, id: CallId, o: Sock)
    requires Kept(s, id, o)
    ensures Kept(RingTimeout(s, k, vm), id, o)
    ensures Kept(InboundTimeout(s, k, vm), id, o)
  {
    hide RouteLocalOr, RouteInboundOr;
    if k in s.rings.v {
      RouteLocalStays(End(s.(rings := Cell(s.rings.v - {k})), s.rings.v[k].callee, k, NoAnswer), s.rings.v[k], k, vm,
                      NoAnswer, id, o);
    }
    if k in s.inLegs.v && !s.inLegs.v[k].answered && s.inLegs.v[k].callee.Some? {
      RouteInboundStays(End(s, s.inLegs.v[k].callee.value, k, NoAnswer), Quiet(s.inLegs.v[k]), k, vm, Bye(NoAnswer),
                        id, o);
    }
  }

  lemma {:induction false} ExpireStays(s: State, n: Number, vm: Voicemail, id: CallId, o: Sock)
    requires Kept(s, id, o)
    ensures Kept(Expire(s, n, vm), id, o)
  {
    hide RouteLocalOr, RouteInboundOr;
    if n in s.pending.v {
      var p := s.pending.v[n];
      var s1 := s.(pending := Cell(s.pending.v - {n}));
      if p.Waiting? {
        RouteLocalStays(s1, Ring(p.caller, p.caller, n), p.id, vm, NoAnswer, id, o);
      } else if p.id in s.inLegs.v {
        RouteInboundStays(s1, s.inLegs.v[p.id], p.id, vm, Bye(NoAnswer), id, o);
      }
    }
  }

  lemma {:induction false} InviteStays(s: State, st: Stream, k: CallId, n: Number, host: Hosting, line: Line,
                                       vm: Voicemail, id: CallId, o: Sock)
    requires Kept(s, id, o) && k != id
    ensures Kept(InInvite(s, st, k, n, host, line, vm), id, o)
  {}

  lemma {:induction false} CleanUpsStay(s: State, ids: seq<CallId>, id: CallId, o: Sock)
    requires Kept(s, id, o)
    ensures Kept(CleanUps(s, ids), id, o)
    decreases |ids|
  {
    if ids != [] {
      assert Kept(CleanUp(s, ids[0]), id, o);
      CleanUpsStay(CleanUp(s, ids[0]), ids[1..], id, o);
    }
  }

  /** Answered stays answered: no step sends the leg to a recorder. */
  lemma {:induction false} StepStays(s: State, e: Event, id: CallId, o: Sock)
    requires Possible(s, e) && Kept(s, id, o)
    ensures Kept(Step(s, e), id, o)
  {
    hide Kept, Register, Disconnect, Call, Hangup, Decline, RingTimeout, Expire, InboundTimeout, InInvite, InEnd;
    hide ServiceCall, PlaceCross, Answer, LocalIce, InboundSelfEnd, LocalSelfEnd, StreamOpen, InIce, InBye, OutEvent,
         OutEnd;
    KeptKnown(s, id, o);
    match e
    case ERegister(c, n) => RegisterStays(s, c, n, id, o);
    case EDisconnect(c, vm) => DisconnectStays(s, c, vm, id, o);
    case ECall(c, n, k, k2, line, vm) => CallStays(s, c, n, k, k2, line, vm, id, o);
    case EHangup(c, vm) => HangupStays(s, c, vm, id, o);
    case EDecline(c, asked, vm) => DeclineStays(s, c, asked, vm, id, o);
    case ERingTimeout(k, vm) => TimersStay(s, k, vm, id, o);
    case EExpire(n, vm) => ExpireStays(s, n, vm, id, o);
    case EInboundTimeout(k, vm) => TimersStay(s, k, vm, id, o);
    case EInInvite(st, k, n, host, line, vm) => InviteStays(s, st, k, n, host, line, vm, id, o);
    case EInEnd(st) => InEndStays(s, st, id, o);
    case EServiceCall(c, k, accepts) => OwnStay(s, c, k, accepts, id, o);
    case EPlaceCross(c, k, n, reachable) => PlaceStays(s, c, k, n, reachable, id, o);
    case EAnswer(c, k, pick) => AnswerStays(s, c, k, pick, id, o);
    case ELocalIce(c, k, cand) => LocalIceStays(s, c, k, cand, id, o);
    case EInboundSelfEnd(k) => SelfEndStays(s, o, k, id, o);
    case ELocalSelfEnd(c, k) => SelfEndStays(s, c, k, id, o);
    case EStreamOpen(st) => OpenStays(s, st, id, o);
    case EInIce(k, cand) => InIceStays(s, k, cand, id, o);
    case EInBye(k, why) => ByeStays(s, k, why, id, o);
    case EOutEvent(k, m) => OutStays(s, k, m, true, id, o);
    case EOutEnd(k, eof) => OutStays(s, k, Alerting, eof, id, o);
  }

  lemma {:induction false} KeptKnown(s: State, id: CallId, o: Sock)
    requires Kept(s, id, o)
    ensures id in s.kind.v
  {}

  lemma {:induction false} OwnStay(s: State, c: Sock, k: CallId, accepts: bool, id: CallId, o: Sock)
    requires Kept(s, id, o) && k != id
    ensures Kept(ServiceCall(s, c, k, accepts), id, o)
  {}

  lemma {:induction false} PlaceStays(s: State, c: Sock, k: CallId, n: Number, reachable: bool, id: CallId, o: Sock)
    requires Kept(s, id, o) && k != id
    ensures Kept(PlaceCross(s, c, k, n, reachable), id, o)
  {}

  lemma {:induction false} AnswerStays(s: State, c: Sock, k: CallId, pick: Sock, id: CallId, o: Sock)
    requires Kept(s, id, o)
    ensures Kept(Answer(s, c, k, pick), id, o)
  {}

  lemma {:induction false} LocalIceStays(s: State, c: Sock, k: CallId, cand: Candidate, id: CallId, o: Sock)
    requires Kept(s, id, o)
    ensures Kept(LocalIce(s, c, k, cand), id, o)
  {}

  lemma {:induction false} InIceStays(s: State, k: CallId, cand: Candidate, id: CallId, o: Sock)
    requires Kept(s, id, o)
    ensures Kept(InIce(s, k, cand), id, o)
  {}

  lemma {:induction false} SelfEndStays(s: State, c: Sock, k: CallId, id: CallId, o: Sock)
    requires Kept(s, id, o)
    ensures Kept(InboundSelfEnd(s, k), id, o)
    ensures Kept(LocalSelfEnd(s, c, k), id, o)
  {}

  lemma {:induction false} OpenStays(s: State, st: Stream, id: CallId, o: Sock)
    requires Kept(s, id, o)
    ensures Kept(StreamOpen(s, st), id, o)
  {}

  lemma {:induction false} ByeStays(s: State, k: CallId, why: Reason, id: CallId, o: Sock)
    requires Kept(s, id, o)
    ensures Kept(InBye(s, k, why), id, o)
  {}

  lemma {:induction false} InEndStays(s: State, st: Stream, id: CallId, o: Sock)
    requires Kept(s, id, o)
    ensures Kept(InEnd(s, st), id, o)
  {
    hide CleanUps;
    if st in s.streams.v {
      CleanUpsStay(s, s.streams.v[st], id, o);
    }
  }

  lemma {:induction false} OutStays(s: State, k: CallId, m: PeerMsg, eof: bool, id: CallId, o: Sock)
    requires Kept(s, id, o)
    ensures Kept(OutEvent(s, k, m), id, o)
    ensures Kept(OutEnd(s, k, eof), id, o)
  {}

  lemma {:induction false} RunStays(states: seq<State>, events: seq<Event>, i: nat, j: nat, id: CallId, o: Sock)
    requires Run(states, events) && i <= j < |states| && Kept(states[i], id, o)
    ensures Kept(states[j], id, o)
  {
    hide Kept, Step, Possible;
    if i < j {
      RunStays(states, events, i, j - 1, id, o);
      StepStays(states[j - 1], events[j - 1], id, o);
    }
  }

  /** From the moment its callee has answered, an inbound call gets no recorder, whatever fires later. */
  lemma {:induction false} AnsweredNeverRedirected(states: seq<State>, events: seq<Event>, i: nat, j: nat, id: CallId)
    requires Run(states, events) && i <= j < |states|
    requires id in states[i].inLegs.v && states[i].inLegs.v[id].answered && states[i].inLegs.v[id].service.NoService?
    ensures id !in states[j].recorders.v && states[j].attempts.v[id] == 0
    ensures id in states[j].inLegs.v ==>
              var leg := states[j].inLegs.v[id];
              leg.answered && leg.service.NoService? && leg.callee == states[i].inLegs.v[id].callee
  {
    RunKeeps(states, events, i);
    RunKeeps(states, events, j);
    AnsweredIsKept(states[i], id);
    RunStays(states, events, i, j, id, states[i].inLegs.v[id].callee.value);
    RecordersTried(states[j], id);
    hide Inv;
  }

  lemma {:induction false} AnsweredIsKept(s: State, id: CallId)
    requires Inv(s) && id in s.inLegs.v && s.inLegs.v[id].answered && s.inLegs.v[id].service.NoService?
    ensures s.inLegs.v[id].callee.Some? && Kept(s, id, s.inLegs.v[id].callee.value)
  {}

  lemma {:induction false} RecordersTried(s: State, id: CallId)
    requires Inv(s)
    ensures id in s.recorders.v ==> s.attempts.v[id] >= 1
  {}
}
