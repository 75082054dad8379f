/**
  Calls that slip away: what the timers, the recorders and late messages still reach.
 */
module StrayCalls {
  import opened Options
  import opened Exchange
  import opened CallInvariants
  import opened OneCallPerLine
  import opened ServedCalls

  // ---- Over whole runs ----

  /** A known call that is in no such table never is again: no timer will find it, and no recorder answers it. */
  lemma {:induction false} NowhereStays(states: seq<State>, events: seq<Event>, i: nat, j: nat, id: CallId)
    requires Run(states, events) && i <= j < |states| && Nowhere(states[i], id)
    ensures Nowhere(states[j], id)
    decreases j
  {
    hide Step, Possible;
    if i < j {
      NowhereStays(states, events, i, j - 1, id);
      StepFlows(states[j - 1], events[j - 1], id);
    }
  }

  lemma {:induction false} ReachableUnserved(s: State, id: CallId)
    requires Inv(s)
    ensures Reachable(s, id) ==> id !in s.svc.v
  {}

  lemma {:induction false} DesertedOver(s: State, e: Event, id: CallId)
    requires Inv(s) && Possible(s, e) && Deserted(s, e, id)
    ensures !Reachable(Step(s, e), id)
  {
    RingPlace(s, id);
    StepFlows(s, e, id);
    BusyRegistered(s, e.c);
    RingUnserved(s, id);
    hide Inv, Queued;
    RingGone(s, e.c, e.vm);
  }

  lemma {:induction false} RingGone(s: State, c: Sock, vm: Voicemail)
    requires c in s.userOf.v && c in s.callOf.v
    ensures s.callOf.v[c] !in Disconnect(s, c, vm).rings.v
    ensures s.callOf.v[c] in s.kind.v ==> s.callOf.v[c] in Disconnect(s, c, vm).kind.v
  {
    hide LeaveCall;
    LeftCall(s.(callOf := Cell(s.callOf.v - {c})), c, s.callOf.v[c], vm);
  }

  lemma {:induction false} LeftCall(s: State, c: Sock, id: CallId, vm: Voicemail)
    ensures var s' := LeaveCall(s, c, id, vm); id !in s'.rings.v && s'.kind == s.kind
  {
    hide Unqueued, Others, LeaveRing;
    var s1 := CloseLeg(s, c, id, Disconnected);
    LeftRing(s1.(pending := Cell(Unqueued(s1.pending.v, id))), c, id, vm);
  }

  lemma {:induction false} LeftRing(s: State, c: Sock, id: CallId, vm: Voicemail)
    ensures var s' := LeaveRing(s, c, id, vm); id !in s'.rings.v && s'.kind == s.kind
  {
    hide Freed, Online;
  }

  /** Up to i the service of call id has kept its client exactly if that never strayed. */
  ghost predicate Kept(states: seq<State>, events: seq<Event>, i: nat, id: CallId)
    requires i < |states| && i <= |events|
  {
    && Alone(states[i], id)
    && (id in states[i].svc.v ==> (Attended(states[i], id) <==> NeverStrayed(states, events, i, id)))
    && (Reachable(states[i], id) ==> NeverStrayed(states, events, i, id))
  }

  ghost predicate NeverStrayed(states: seq<State>, events: seq<Event>, i: nat, id: CallId)
    requires i <= |states| && i <= |events|
  {
    forall j | 0 <= j < i :: !Strays(states[j], events[j], id)
  }

  lemma {:induction false} KeptAll(states: seq<State>, events: seq<Event>, i: nat, id: CallId)
    requires UndisturbedRun(states, events) && i < |states|
    ensures Kept(states, events, i, id)
  {
    hide Step, Possible, Undisturbed, Strays, Reachable, Inv, Lines, Alone, Attended, Flows, Serves;
    if i == 0 {
      StartAlone(id);
    } else {
      KeptAll(states, events, i - 1, id);
      RunKeeps(states, events, i - 1);
      RunKeeps(states, events, i);
      RunLines(states, events, i - 1);
      var s, e := states[i - 1], events[i - 1];
      ServiceStep(s, e, id);
      StepFlows(s, e, id);
      ReachableUnserved(s, id);
      KeptStep(s, e, id);
      assert NeverStrayed(states, events, i, id) <==> NeverStrayed(states, events, i - 1, id) && !Strays(s, e, id);
    }
  }

  lemma {:induction false} StartAlone(id: CallId)
    ensures Alone(START, id) && id !in START.svc.v
  {}

  lemma {:induction false} KeptStep(s: State, e: Event, id: CallId)
    requires Inv(s) && Possible(s, e) && Serves(s, Step(s, e), id, Strays(s, e, id)) && Flows(s, Step(s, e), id)
    ensures var s' := Step(s, e);
            && Alone(s', id)
            && (id in s'.svc.v ==> (Attended(s', id) <==> !Strays(s, e, id) && (id in s.svc.v ==> Attended(s, id))))
            && (id in s'.svc.v && id !in s.svc.v ==> Reachable(s, id))
            && (Reachable(s', id) ==> Reachable(s, id) && !Strays(s, e, id))
  {
    ReachableUnserved(s, id);
    if Deserted(s, e, id) {
      DesertedOver(s, e, id);
    }
    hide Inv, Possible, Step, Alone, Attended;
  }

  /**
    The client of a service is in the call, exactly if so far no callee hung up its socket while the call rang, and no
    step gave the client another call since.
   */
  lemma {:induction false} ServiceClientIff(states: seq<State>, events: seq<Event>, i: nat, id: CallId)
    requires UndisturbedRun(states, events) && i < |states| && id in states[i].svc.v
    ensures i <= |events| && (In(states[i].callOf.v, states[i].svc.v[id], id) <==> NeverStrayed(states, events, i, id))
  {
    RunLength(states, events) by { assert Run(states, events); }
    hide UndisturbedRun, Strays, Alone, Reachable;
    KeptAll(states, events, i, id);
  }

  /** A service goes on for a socket that is gone only where its client strayed before. */
  lemma {:induction false} GoneClientsStrayed(states: seq<State>, events: seq<Event>, i: nat, id: CallId)
    requires UndisturbedRun(states, events) && i < |states| && id in states[i].svc.v
    requires states[i].svc.v[id] in states[i].gone.v
    ensures i <= |events| && !NeverStrayed(states, events, i, id)
  {
    ServiceClientIff(states, events, i, id);
    RunKeeps(states, events, i);
    GoneIdle(states[i], states[i].svc.v[id]);
  }

  lemma {:induction false} GoneIdle(s: State, x: Sock)
    requires Inv(s) && x in s.gone.v
    ensures x !in s.callOf.v
  {}

  /**
    When the callee of a ring hangs up its socket, the caller is recorded exactly if voicemail answers and the caller is
    online; and then it is told that it is connected and that the call has ended, and is in no call while it is
    recorded.
   */
  lemma {:induction false} DesertionIff(s: State, c: Sock, vm: Voicemail, id: CallId)
    requires Inv(s) && Lines(s) && Deserted(s, EDisconnect(c, vm), id)
    ensures var s', x := Disconnect(s, c, vm), s.rings.v[id].caller;
            && (id in s'.svc.v <==> vm.Works? && Online(s, x))
            && (id in s'.svc.v ==>
                  && s'.svc.v[id] == x && !In(s'.callOf.v, x, id)
                  && s'.told.v[(x, Connected(id))] > s.told.v[(x, Connected(id))]
                  && s'.told.v[(x, Ended(id, Disconnected))] > s.told.v[(x, Ended(id, Disconnected))])
  {
    RingUnserved(s, id);
    RingFacts(s, id);
    RingPlace(s, id);
    BusyRegistered(s, c);
    LinesAt(s, id);
    assert In(s.callOf.v, s.rings.v[id].caller, id);
    forall x | In(s.callOf.v, x, id) ensures x == s.rings.v[id].caller || x == c { RingParties(s, id, x); }
    hide Inv, Lines, LineOk;
    DesertedLeaves(s, c, vm);
    hide LeaveCall, Alone;
  }

  /** A late call_answer reaches the client of a recorder exactly if that is listed and still in the call. */
  lemma {:induction false} LateAnswerIff(s: State, c: Sock, id: CallId, pick: Sock)
    requires Inv(s) && Alone(s, id) && Possible(s, EAnswer(c, id, pick)) && id in s.svc.v
      && c != s.svc.v[id] && c in s.userOf.v
    ensures var x := s.svc.v[id];
            (s.told.v[(x, Connected(id))] < Answer(s, c, id, pick).told.v[(x, Connected(id))])
              <==> In(s.callOf.v, x, id) && Online(s, x)
  {
    var x := s.svc.v[id];
    ServedPlace(s, id);
    ListedOnline(s, x);
    hide Inv;
    forall y | y in Others(s, c, id) ensures y == x { assert In(s.callOf.v, y, id); }
    if In(s.callOf.v, x, id) && Online(s, x) {
      assert x in Others(s, c, id);
    }
  }

  lemma {:induction false} NumberOf(clients: map<Number, Sock>, x: Sock) returns (n: Number)
    requires x in clients.Values
    ensures n in clients && clients[n] == x
  {
    if forall k | k in clients :: clients[k] != x {
      assert false;
    }
    n :| n in clients && clients[n] == x;
  }

  lemma {:induction false} ListedOnline(s: State, x: Sock)
    requires Inv(s)
    ensures x in s.clients.v.Values <==> Online(s, x)
  {
    if x in s.clients.v.Values {
      var n := NumberOf(s.clients.v, x);
    }
    if Online(s, x) {
      assert s.clients.v[s.userOf.v[x]] == x;
    }
  }

  // ---- A queued call that is lost ----

  /** Socket c is in call id, whose callee was offered nothing, and neither a timer nor a service has the call. */
  predicate Stranded(s: State, id: CallId, c: Sock) {
    In(s.callOf.v, c, id) && Nowhere(s, id) && id !in s.offered.v
  }

  /** The step strands the call that caller c has queued for number n. */
  predicate Loses(s: State, e: Event, n: Number, c: Sock)
    requires n in s.pending.v
  {
    match e
    case ERegister(x, m) => m == n && !Delivered(s, x, m)
    case ECall(x, m, _, _, line, _) => m == n && x != c && x in s.userOf.v && line.Push?
    case EInInvite(_, _, m, host, line, _) => m == n && host.NotHosted? && line.Push?
    case EExpire(m, _) => m == n && !Online(s, c)
    case EInBye(k, _) => k == s.pending.v[n].id
    case _ => false
  }

  /** The entry stays in the queue. */
  predicate Stays(s: State, s': State, n: Number)
    requires n in s.pending.v
  {
    n in s'.pending.v && s'.pending.v[n] == s.pending.v[n]
  }

  lemma {:induction false} StaysQueued(s: State, s': State, n: Number, c: Sock)
    requires n in s.pending.v && Stays(s, s', n)
    ensures !Stranded(s', s.pending.v[n].id, c)
  {
    QueuedThere(s'.pending.v, n);
  }

  /**
    A queued local call is lost, its caller left waiting with nothing to end it, exactly in these steps: another call
    for the same number takes its place in the queue; the callee registers, or the entry expires, while its caller is
    not online; or another server ends a call of this id.
   */
  lemma {:induction false} StrandedIff(s: State, e: Event, n: Number)
    requires Inv(s) && Possible(s, e) && n in s.pending.v && s.pending.v[n].Waiting?
    requires In(s.callOf.v, s.pending.v[n].caller, s.pending.v[n].id)
    ensures Stranded(Step(s, e), s.pending.v[n].id, s.pending.v[n].caller) <==> Loses(s, e, n, s.pending.v[n].caller)
  {
    var id, c := s.pending.v[n].id, s.pending.v[n].caller;
    QueuedFacts(s, n);
    QueuedPlace(s, n);
    AsleepNow(s, n);
    if From(e).Some? {
      ClientStrandedIff(s, e, n);
    } else {
      InnerStrandedIff(s, e, n);
    }
  }

  lemma {:induction false} AsleepNow(s: State, n: Number)
    requires Inv(s) && n in s.pending.v
    ensures n !in s.clients.v
  {}

  lemma {:induction false} ClientStrandedIff(s: State, e: Event, n: Number)
    requires Inv(s) && Possible(s, e) && n in s.pending.v && s.pending.v[n].Waiting? && From(e).Some?
    requires In(s.callOf.v, s.pending.v[n].caller, s.pending.v[n].id)
    ensures Stranded(Step(s, e), s.pending.v[n].id, s.pending.v[n].caller) <==> Loses(s, e, n, s.pending.v[n].caller)
  {
    var id, c := s.pending.v[n].id, s.pending.v[n].caller;
    QueuedFacts(s, n);
    AsleepNow(s, n);
    if e.EHangup? || e.EDecline? || e.EDisconnect? {
      LeavingUnstranded(s, e, n);
      hide Step, Inv, Stranded, Possible;
    } else if e.ERegister? {
      hide Inv, Stranded, Delivered, Register;
      RegisterStrandedIff(s, e.c, e.n, n);
    } else if e.ECall? {
      hide Inv, Stranded, Call;
      CallStrandedIff(s, e, n);
    } else {
      hide Inv, Stranded;
      ClientStays(s, e, n);
      hide Step, Possible;
      StaysQueued(s, Step(s, e), n, c);
    }
  }

  lemma {:induction false} ClientStays(s: State, e: Event, n: Number)
    requires n in s.pending.v && (e.EServiceCall? || e.EPlaceCross? || e.EAnswer? || e.ELocalIce?)
    ensures Stays(s, Step(s, e), n)
  {
    hide Others, OnLeg;
  }

  lemma {:induction false} RegisterStrandedIff(s: State, x: Sock, m: Number, n: Number)
    requires n in s.pending.v && s.pending.v[n].Waiting? && In(s.callOf.v, s.pending.v[n].caller, s.pending.v[n].id)
    requires var id := s.pending.v[n].id;
             && id in s.kind.v && id !in s.rings.v && id !in s.svc.v && id !in s.offered.v
             && forall m | m in s.pending.v && m != n :: s.pending.v[m].id != id
    ensures Stranded(Register(s, x, m), s.pending.v[n].id, s.pending.v[n].caller)
      <==> Loses(s, ERegister(x, m), n, s.pending.v[n].caller)
  {
    if m != n {
      assert Stays(s, Register(s, x, m), n);
      StaysQueued(s, Register(s, x, m), n, s.pending.v[n].caller);
    }
  }

  lemma {:induction false} CallStrandedIff(s: State, e: Event, n: Number)
    requires e.ECall? && n in s.pending.v && s.pending.v[n].Waiting?
      && In(s.callOf.v, s.pending.v[n].caller, s.pending.v[n].id)
    requires var id := s.pending.v[n].id;
             && id in s.kind.v && id !in s.rings.v && id !in s.svc.v && id !in s.offered.v && id != e.id && id != e.id2
             && n !in s.clients.v && forall m | m in s.pending.v && m != n :: s.pending.v[m].id != id
    ensures Stranded(Step(s, e), s.pending.v[n].id, s.pending.v[n].caller) <==> Loses(s, e, n, s.pending.v[n].caller)
  {
    if e.n != n || !e.line.Push? || e.c !in s.userOf.v {
      assert Stays(s, Step(s, e), n);
      StaysQueued(s, Step(s, e), n, s.pending.v[n].caller);
    } else {
      hide RecordOrFail;
      PushStrands(s, e, n);
    }
  }

  lemma {:induction false} PushStrands(s: State, e: Event, n: Number)
    requires e.ECall? && n in s.pending.v && s.pending.v[n].Waiting?
      && In(s.callOf.v, s.pending.v[n].caller, s.pending.v[n].id)
    requires var id := s.pending.v[n].id;
             && id in s.kind.v && id !in s.rings.v && id !in s.svc.v && id !in s.offered.v && id != e.id && id != e.id2
             && n !in s.clients.v && forall m | m in s.pending.v && m != n :: s.pending.v[m].id != id
    requires e.n == n && e.line.Push? && e.c in s.userOf.v
    ensures Stranded(Step(s, e), s.pending.v[n].id, s.pending.v[n].caller) <==> e.c != s.pending.v[n].caller
  {}

  /** Who leaves a call, or declines one, strands nobody. */
  lemma {:induction false} LeavingUnstranded(s: State, e: Event, n: Number)
    requires Inv(s) && n in s.pending.v && s.pending.v[n].Waiting? && (e.EHangup? || e.EDecline? || e.EDisconnect?)
    ensures !Stranded(Step(s, e), s.pending.v[n].id, s.pending.v[n].caller)
  {
    var id, c := s.pending.v[n].id, s.pending.v[n].caller;
    QueuedFacts(s, n);
    match e
    case EHangup(x, vm) => HangupUnstranded(s, x, vm, n);
    case EDecline(x, asked, vm) => DeclineUnstranded(s, x, asked, vm, n);
    case EDisconnect(x, vm) => DisconnectUnstranded(s, x, vm, n);
  }

  lemma {:induction false} HangupUnstranded(s: State, x: Sock, vm: Voicemail, n: Number)
    requires Inv(s) && n in s.pending.v && s.pending.v[n].Waiting?
    ensures !Stranded(Hangup(s, x, vm), s.pending.v[n].id, s.pending.v[n].caller)
  {
    var id, c := s.pending.v[n].id, s.pending.v[n].caller;
    QueuedFacts(s, n);
    QueuedPlace(s, n);
    if x in s.userOf.v && x in s.callOf.v && s.callOf.v[x] == id {
      QueuedParty(s, n, x);
      QueuedThere(s.pending.v, n);
      hide Inv, Unqueued, Queued;
    } else {
      hide Inv;
      HangupQueue(s, x, vm, n);
      hide Hangup;
      StaysQueued(s, Hangup(s, x, vm), n, c);
    }
  }

  lemma {:induction false} HangupQueue(s: State, x: Sock, vm: Voicemail, n: Number)
    requires n in s.pending.v && (x in s.callOf.v ==> s.callOf.v[x] != s.pending.v[n].id)
    ensures Stays(s, Hangup(s, x, vm), n)
  {
    hide Others, Freed, Queued;
  }

  lemma {:induction false} DeclineUnstranded(s: State, x: Sock, asked: Option<CallId>, vm: Voicemail, n: Number)
    requires Inv(s) && n in s.pending.v && s.pending.v[n].Waiting?
    ensures !Stranded(Decline(s, x, asked, vm), s.pending.v[n].id, s.pending.v[n].caller)
  {
    hide Inv, Hangup, Stranded, RouteLocalOr, Stays;
    if x in s.userOf.v && (asked.Some? || x in s.callOf.v) {
      var k := if asked.Some? then asked.value else s.callOf.v[x];
      var s1 := s.(rings := Cell(s.rings.v - {k}));
      TakingKeeps(s, k);
      HangupUnstranded(s1, x, vm, n);
      if k in s.rings.v && s.rings.v[k].callee == x {
        RouteStays(s, s1.(callOf := Cell(Freed(s.callOf.v, x, k))), s.rings.v[k], k, vm, n);
        StaysQueued(s, Decline(s, x, asked, vm), n, s.pending.v[n].caller);
      }
    } else {
      SelfStays(s, n);
      StaysQueued(s, s, n, s.pending.v[n].caller);
    }
  }

  lemma {:induction false} RouteStays(s: State, s1: State, r: Ring, k: CallId, vm: Voicemail, n: Number)
    requires n in s.pending.v && s1.pending == s.pending
    ensures Stays(s, RouteLocalOr(s1, r, k, vm, Declined), n)
  {}

  lemma {:induction false} SelfStays(s: State, n: Number)
    requires n in s.pending.v
    ensures Stays(s, s, n)
  {}

  lemma {:induction false} DisconnectUnstranded(s: State, x: Sock, vm: Voicemail, n: Number)
    requires Inv(s) && n in s.pending.v && s.pending.v[n].Waiting?
    ensures !Stranded(Disconnect(s, x, vm), s.pending.v[n].id, s.pending.v[n].caller)
  {
    var id, c := s.pending.v[n].id, s.pending.v[n].caller;
    QueuedFacts(s, n);
    QueuedPlace(s, n);
    if x in s.userOf.v && x in s.callOf.v && s.callOf.v[x] == id {
      QueuedParty(s, n, x);
      hide Inv;
      GoneFromCall(s, x, vm);
    } else {
      BusyRegistered(s, x);
      hide Inv;
      DisconnectQueue(s, x, vm, n);
      hide Disconnect;
      StaysQueued(s, Disconnect(s, x, vm), n, c);
    }
  }

  lemma {:induction false} GoneFromCall(s: State, x: Sock, vm: Voicemail)
    requires x in s.userOf.v && x in s.callOf.v && s.callOf.v[x] !in s.rings.v
    ensures !In(Disconnect(s, x, vm).callOf.v, x, s.callOf.v[x])
  {
    hide Unqueued, Others;
  }

  lemma {:induction false} DisconnectQueue(s: State, x: Sock, vm: Voicemail, n: Number)
    requires n in s.pending.v && (x in s.callOf.v ==> s.callOf.v[x] != s.pending.v[n].id)
    ensures Stays(s, Disconnect(s, x, vm), n)
  {
    hide Others, Freed;
  }

  lemma {:induction false} InnerStrandedIff(s: State, e: Event, n: Number)
    requires Inv(s) && Possible(s, e) && n in s.pending.v && s.pending.v[n].Waiting? && From(e).None?
    requires In(s.callOf.v, s.pending.v[n].caller, s.pending.v[n].id)
    ensures Stranded(Step(s, e), s.pending.v[n].id, s.pending.v[n].caller) <==> Loses(s, e, n, s.pending.v[n].caller)
  {
    var id, c := s.pending.v[n].id, s.pending.v[n].caller;
    QueuedFacts(s, n);
    QueuedPlace(s, n);
    AsleepNow(s, n);
    match e
    case EExpire(m, vm) => hide Inv; ExpireStrandedIff(s, m, vm, n);
    case EInInvite(_, _, _, _, _, _) => hide Inv; InviteStrandedIff(s, e, n);
    case EInBye(k, why) => ServedLocal(s, k); hide Inv; ByeStrandedIff(s, k, why, n);
    case EInEnd(st) => StreamIncoming(s, st); hide Inv; EndStreamStays(s, st, n); StaysQueued(s, Step(s, e), n, c);
    case _ =>
      hide Inv;
      OtherStays(s, e, n);
      StaysQueued(s, Step(s, e), n, c);
  }

  lemma {:induction false} OtherStays(s: State, e: Event, n: Number)
    requires n in s.pending.v && From(e).None?
    requires !e.EExpire? && !e.EInInvite? && !e.EInBye? && !e.EInEnd?
    ensures Stays(s, Step(s, e), n)
  {
    hide Others, Freed;
  }

  lemma {:induction false} ExpireStrandedIff(s: State, m: Number, vm: Voicemail, n: Number)
    requires n in s.pending.v && s.pending.v[n].Waiting? && In(s.callOf.v, s.pending.v[n].caller, s.pending.v[n].id)
    requires var id := s.pending.v[n].id;
             && id in s.kind.v && id !in s.rings.v && id !in s.svc.v && id !in s.offered.v
             && forall m | m in s.pending.v && m != n :: s.pending.v[m].id != id
    ensures Stranded(Expire(s, m, vm), s.pending.v[n].id, s.pending.v[n].caller)
      <==> Loses(s, EExpire(m, vm), n, s.pending.v[n].caller)
  {
    if m != n {
      assert Stays(s, Expire(s, m, vm), n);
      StaysQueued(s, Expire(s, m, vm), n, s.pending.v[n].caller);
    }
  }

  lemma {:induction false} InviteStrandedIff(s: State, e: Event, n: Number)
    requires e.EInInvite? && n in s.pending.v && s.pending.v[n].Waiting?
    requires In(s.callOf.v, s.pending.v[n].caller, s.pending.v[n].id)
    requires var id := s.pending.v[n].id;
             && id in s.kind.v && id !in s.rings.v && id !in s.svc.v && id !in s.offered.v && id != e.id
             && n !in s.clients.v && forall m | m in s.pending.v && m != n :: s.pending.v[m].id != id
    ensures Stranded(Step(s, e), s.pending.v[n].id, s.pending.v[n].caller) <==> Loses(s, e, n, s.pending.v[n].caller)
  {
    if !(e.n == n && e.host.NotHosted? && e.line.Push?) {
      InviteQueue(s, e, n);
      hide Step;
      StaysQueued(s, Step(s, e), n, s.pending.v[n].caller);
    }
  }

  lemma {:induction false} InviteQueue(s: State, e: Event, n: Number)
    requires e.EInInvite? && n in s.pending.v && n !in s.clients.v && !(e.n == n && e.host.NotHosted? && e.line.Push?)
    ensures Stays(s, Step(s, e), n)
  {}

  lemma {:induction false} ByeStrandedIff(s: State, k: CallId, why: Reason, n: Number)
    requires n in s.pending.v && s.pending.v[n].Waiting? && In(s.callOf.v, s.pending.v[n].caller, s.pending.v[n].id)
    requires var id := s.pending.v[n].id;
             && id in s.kind.v && id !in s.rings.v && id !in s.svc.v && id !in s.offered.v && id !in s.inLegs.v
    ensures Stranded(InBye(s, k, why), s.pending.v[n].id, s.pending.v[n].caller)
      <==> Loses(s, EInBye(k, why), n, s.pending.v[n].caller)
  {
    if k != s.pending.v[n].id {
      assert Stays(s, InBye(s, k, why), n);
      StaysQueued(s, InBye(s, k, why), n, s.pending.v[n].caller);
    }
  }

  lemma {:induction false} StreamIncoming(s: State, st: Stream)
    requires Inv(s)
    ensures st in s.streams.v ==> forall k | k in s.streams.v[st] :: k in s.kind.v && s.kind.v[k].Incoming?
  {}

  lemma {:induction false} EndStreamStays(s: State, st: Stream, n: Number)
    requires n in s.pending.v && s.pending.v[n].id in s.kind.v && s.kind.v[s.pending.v[n].id].Local?
    requires st in s.streams.v ==> forall k | k in s.streams.v[st] :: k in s.kind.v && s.kind.v[k].Incoming?
    ensures Stays(s, InEnd(s, st), n)
  {
    hide CleanUps;
    if st in s.streams.v {
      CleanUpsStays(s, s.streams.v[st], n);
    }
  }

  lemma {:induction false} CleanUpsStays(s: State, ids: seq<CallId>, n: Number)
    requires n in s.pending.v && s.pending.v[n].id !in ids
    ensures Stays(s, CleanUps(s, ids), n)
    decreases |ids|
  {
    hide CleanUp;
    if ids != [] {
      CleanUpStays(s, ids[0], n);
      CleanUpsStays(CleanUp(s, ids[0]), ids[1..], n);
    }
  }

  lemma {:induction false} CleanUpStays(s: State, k: CallId, n: Number)
    requires n in s.pending.v && s.pending.v[n].id != k
    ensures Stays(s, CleanUp(s, k), n)
  {}

  /** Once the callee of a waiting call registers, no timer finds the call again, and no recorder takes it. */
  lemma {:induction false} WokenUntimed(states: seq<State>, events: seq<Event>, i: nat, j: nat)
    requires Run(states, events) && i < j < |states| && i < |events| && events[i].ERegister?
    requires events[i].n in states[i].pending.v && states[i].pending.v[events[i].n].Waiting?
    ensures Nowhere(states[j], states[i].pending.v[events[i].n].id)
  {
    var s, e := states[i], events[i];
    var id := s.pending.v[e.n].id;
    assert states[i + 1] == Register(s, e.c, e.n);
    RunKeeps(states, events, i);
    QueuedFacts(s, e.n);
    NowhereStays(states, events, i + 1, j, id) by {
      hide Inv, Run;
    }
  }

  // ---- All of this happens ----

  lemma {:induction false} OneMore(states: seq<State>, events: seq<Event>, e: Event)
    returns (states': seq<State>, events': seq<Event>)
    requires Run(states, events) && Possible(states[|events|], e)
    ensures Run(states', events') && events' == events + [e] && states' == states + [Step(states[|events|], e)]
    ensures |states'| == |events'| + 1 && states'[|events'|] == Step(states[|events|], e)
  {
    hide Step, Possible;
    states', events' := states + [Step(states[|events|], e)], events + [e];
  }

  /** Lines 10 and 20 are online on sockets 1 and 2, and nothing has happened yet. */
  predicate Opening(s: State) {
    && s.clients.v == map[10 := 1, 20 := 2] && s.userOf.v == map[1 := 10, 2 := 20]
    && s.callOf.v == map[] && s.rings.v == map[] && s.pending.v == map[] && s.svc.v == map[] && s.inLegs.v == map[]
    && s.outLegs.v == {} && s.kind.v == map[] && s.offered.v == map[] && s.gone.v == {}
    && s.told.v == multiset{(1, Registered), (2, Registered)}
  }

  lemma {:induction false} Opened() returns (states: seq<State>, events: seq<Event>)
    ensures Run(states, events) && |states| == |events| + 1 && Opening(states[|events|])
  {
    states, events := [START], [];
    assert Run(states, events);
    hide Run;
    states, events := OneMore(states, events, ERegister(1, 10));
    states, events := OneMore(states, events, ERegister(2, 20));
  }

  /** A second call for the same number takes the first one's place in the queue; the first caller waits for ever. */
  lemma {:induction false} Overwritten() returns (states: seq<State>, events: seq<Event>)
    ensures Run(states, events) && |states| == |events| + 1 && Stranded(states[|events|], 1, 1)
  {
    states, events := Opened();
    hide Run;
    states, events := OneMore(states, events, ECall(1, 30, 1, 2, Push(true), Off));
    var s := states[|events|];
    assert s.pending.v == map[30 := Waiting(1, 1)] && s.callOf.v == map[1 := 1] && s.kind.v == map[1 := Local(1, 30)];
    states, events := OneMore(states, events, ECall(2, 30, 3, 4, Push(true), Off));
    assert states[|events|].pending.v == map[30 := Waiting(3, 2)];
  }

  /** Line 10 calls line 20, which rings. */
  lemma {:induction false} Rung() returns (states: seq<State>, events: seq<Event>)
    ensures Run(states, events) && |states| == |events| + 1
    ensures var s := states[|events|];
            && s.clients.v == map[10 := 1, 20 := 2] && s.userOf.v == map[1 := 10, 2 := 20]
            && s.callOf.v == map[1 := 1, 2 := 1] && s.rings.v == map[1 := Ring(1, 2, 20)] && s.pending.v == map[]
            && s.svc.v == map[] && s.inLegs.v == map[] && s.outLegs.v == {} && s.gone.v == {}
            && s.kind.v == map[1 := Local(1, 20)] && s.offered.v == map[1 := 2]
            && s.told.v[(1, Connected(1))] == 0
  {
    states, events := Opened();
    hide Run;
    states, events := OneMore(states, events, ECall(1, 20, 1, 2, Unknown, Off));
  }

  /** The ring times out, the caller is recorded, and the callee answers all the same: the caller is told twice. */
  lemma {:induction false} LateAnswerReaches() returns (states: seq<State>, events: seq<Event>)
    ensures Run(states, events) && |states| == |events| + 1
    ensures var s := states[|events|]; s.svc.v == map[1 := 1] && s.told.v[(1, Connected(1))] == 2
  {
    states, events := Rung();
    hide Run;
    states, events := OneMore(states, events, ERingTimeout(1, Works));
    var s := states[|events|];
    assert s.svc.v == map[1 := 1] && s.callOf.v == map[1 := 1] && s.told.v[(1, Connected(1))] == 1;
    assert s.clients.v[10] == 1 && 1 in s.clients.v.Values;
    forall x | x in Others(s, 2, 1) ensures x == 1 { assert x in s.callOf.v; }
    assert 1 in Others(s, 2, 1);
    states, events := OneMore(states, events, EAnswer(2, 1, 1));
  }

  /** The callee's socket closes while it rings; the caller is recorded and put out. */
  lemma {:induction false} Deserting() returns (states: seq<State>, events: seq<Event>)
    ensures Run(states, events) && |states| == |events| + 1
    ensures var s := states[|events|];
            1 in s.svc.v && s.svc.v[1] == 1 && s.gone.v == {2} && 1 in s.userOf.v && 1 !in s.callOf.v
  {
    states, events := Rung();
    var s := states[|events|];
    RunKeeps(states, events, |events|);
    LinesOfRing(s);
    hide Run, Inv, Lines;
    DesertionIff(s, 2, Works, 1);
    DesertedRest(s);
    hide Disconnect, Deserted;
    states, events := OneMore(states, events, EDisconnect(2, Works));
  }

  /** Then the caller's socket closes too, and the recorder goes on for it. */
  lemma {:induction false} DesertedRun() returns (states: seq<State>, events: seq<Event>)
    ensures Run(states, events) && |states| == |events| + 1
    ensures var s := states[|events|]; 1 in s.svc.v && s.svc.v[1] == 1 && s.gone.v == {1, 2}
  {
    states, events := Deserting();
    hide Run;
    ClosesIdle(states[|events|], 1);
    hide Disconnect;
    states, events := OneMore(states, events, EDisconnect(1, Off));
  }

  lemma {:induction false} LinesOfRing(s: State)
    requires s.callOf.v == map[1 := 1, 2 := 1] && s.rings.v == map[1 := Ring(1, 2, 20)] && s.pending.v == map[]
    requires s.inLegs.v == map[] && s.outLegs.v == {}
    ensures Lines(s)
  {}

  lemma {:induction false} DesertedRest(s: State)
    requires s.gone.v == {} && s.userOf.v == map[1 := 10, 2 := 20]
      && s.callOf.v == map[1 := 1, 2 := 1]
    ensures var s' := Disconnect(s, 2, Works);
            s'.gone.v == {2} && s'.userOf.v == s.userOf.v && (1 in s'.callOf.v ==> s'.callOf.v[1] == 1)
  {
    hide LeaveCall;
    LeavesUsers(s.(callOf := Cell(s.callOf.v - {2})), 2, 1, Works);
    LeavesCalls(s.(callOf := Cell(s.callOf.v - {2})), 2, 1, Works, 1);
  }

  /** Leaving a call puts nobody into another one. */
  lemma {:induction false} LeavesCalls(s: State, c: Sock, k: CallId, vm: Voicemail, x: Sock)
    ensures var callOf := LeaveCall(s, c, k, vm).callOf.v;
            x in callOf ==> callOf[x] == k || (x in s.callOf.v && callOf[x] == s.callOf.v[x])
  {
    hide Unqueued, Others, Online, Put;
  }

  lemma {:induction false} LeavesUsers(s: State, c: Sock, k: CallId, vm: Voicemail)
    ensures LeaveCall(s, c, k, vm).userOf == s.userOf && LeaveCall(s, c, k, vm).gone == s.gone
  {
    hide Unqueued, Others, Freed;
  }

  lemma {:induction false} ClosesIdle(s: State, c: Sock)
    requires c !in s.callOf.v
    ensures Disconnect(s, c, Off).svc == s.svc && Disconnect(s, c, Off).gone.v == s.gone.v + {c}
  {}

  /** While its call rings, a caller places another: the ring goes on naming a socket that is in the other call. */
  lemma {:induction false} DisturbedRun() returns (states: seq<State>, events: seq<Event>)
    ensures Run(states, events) && |states| == |events| + 1 && !Lines(states[|events|])
  {
    states, events := Rung();
    hide Run;
    states, events := OneMore(states, events, ECall(1, 30, 3, 4, Push(true), Off));
    assert !LineOk(states[|events|], 1);
  }
}
