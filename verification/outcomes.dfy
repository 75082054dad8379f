/**
  What a run owes its sockets.
 */
module CallOutcomes {
  import opened Options
  import opened Exchange
  import opened CallInvariants
  import opened CallTheorems
  import opened OneCallPerLine
  import opened CallLaws
  import opened CallTables

  // ---- What was told, and why ----

  /** In how many of the first i steps x was owed m. */
  ghost function Times(states: seq<State>, events: seq<Event>, i: nat, x: Sock, m: ClientMsg): nat
    requires i <= |states| && i <= |events|
  {
    if i == 0 then 0
    else Times(states, events, i - 1, x, m) + if Owed(states[i - 1], events[i - 1], x, m) then 1 else 0
  }

  /** Each socket has been told each thing exactly as often as it was owed. */
  lemma {:induction false} ToldAsOwed(states: seq<State>, events: seq<Event>, i: nat, x: Sock, m: ClientMsg)
    requires Run(states, events) && i < |states|
    ensures i <= |events| && states[i].told.v[(x, m)] == Times(states, events, i, x, m)
  {
    hide Step, Possible, Inv, Owed;
    if i > 0 {
      ToldAsOwed(states, events, i - 1, x, m);
      RunKeeps(states, events, i - 1);
      StepTells(states[i - 1], events[i - 1], x, m);
    }
  }

  lemma {:induction false} OwedOnce(states: seq<State>, events: seq<Event>, i: nat, x: Sock, m: ClientMsg)
    returns (j: nat)
    requires i <= |states| && i <= |events| && Times(states, events, i, x, m) > 0
    ensures j < i && Owed(states[j], events[j], x, m)
  {
    hide Owed;
    if Owed(states[i - 1], events[i - 1], x, m) {
      j := i - 1;
    } else {
      j := OwedOnce(states, events, i - 1, x, m);
    }
  }

  /**
    Nobody is told "connected" for nothing: a recorder or a service took the call, the phone that it was offered to
    answered it, or the other server said so.
   */
  lemma {:induction false} ConnectedIsEarned(states: seq<State>, events: seq<Event>, i: nat, x: Sock, id: CallId)
    returns (j: nat)
    requires Run(states, events) && i < |states| && (x, Connected(id)) in states[i].told.v
    ensures j < i && j < |events|
    ensures var s, e := states[j], events[j];
            || (Recorded(s, e, x, id) && Recording(e).Works?)
            || (e.EServiceCall? && e.c == x && e.id == id && e.accepts)
            || (e.EAnswer? && e.id == id && id in s.offered.v && s.offered.v[id] == e.c != x && In(s.callOf.v, x, id))
            || (e == EOutEvent(id, Accept) && id in s.readers.v && s.readers.v[id] == x)
  {
    ToldAsOwed(states, events, i, x, Connected(id));
    j := OwedOnce(states, events, i, x, Connected(id));
    assert Possible(states[j], events[j]);
    hide Step, Recorded, Online;
  }

  // ---- Offers ----

  /** A call is offered to one phone at most, once, and that is a phone of the line that was dialled. */
  ghost predicate OffersOk(s: State, id: CallId) {
    && (forall x :: s.told.v[(x, Offer(id))] == if id in s.offered.v && s.offered.v[id] == x then 1 else 0)
    && (id in s.offered.v ==>
          && id in s.kind.v && s.offered.v[id] in s.userOf.v
          && Dialled(s.kind.v[id]) == Some(s.userOf.v[s.offered.v[id]]))
  }

  lemma {:induction false} OfferedOnce(states: seq<State>, events: seq<Event>, i: nat, id: CallId)
    requires Run(states, events) && i < |states|
    ensures OffersOk(states[i], id)
  {
    hide Step, Possible, Inv, OffersOk;
    if i == 0 {
      NoOffers(id);
    } else {
      OfferedOnce(states, events, i - 1, id);
      RunKeeps(states, events, i - 1);
      OffersStep(states[i - 1], events[i - 1], id);
    }
  }

  lemma {:induction false} NoOffers(id: CallId)
    ensures OffersOk(START, id)
  {}

  /** Numbers and kinds stay; a call is offered exactly when its phone is owed the offer. */
  ghost predicate FiledOk(s: State, e: Event, s': State, id: CallId) {
    && (forall c | c in s.userOf.v :: c in s'.userOf.v && s'.userOf.v[c] == s.userOf.v[c])
    && (id in s.kind.v ==> id in s'.kind.v && s'.kind.v[id] == s.kind.v[id])
    && (forall x :: (id in s'.offered.v && s'.offered.v[id] == x)
                      <==> OfferOwed(s, e, x, id) || (id in s.offered.v && s.offered.v[id] == x))
    && (forall x | OfferOwed(s, e, x, id) ::
          && id !in s.offered.v && id in s'.kind.v && x in s'.userOf.v
          && Dialled(s'.kind.v[id]) == Some(s'.userOf.v[x]))
  }

  lemma {:induction false} PlainRecords(s: State, e: Event, id: CallId)
    requires !e.ERegister? && !e.ECall? && !e.EInInvite? && !e.EServiceCall? && !e.EPlaceCross?
    ensures FiledOk(s, e, Step(s, e), id)
  {
    PlainFrames(s, e);
    hide Step;
  }

  lemma {:induction false} PlainFrames(s: State, e: Event)
    requires !e.ERegister? && !e.ECall? && !e.EInInvite? && !e.EServiceCall? && !e.EPlaceCross?
    ensures var s' := Step(s, e); s'.userOf == s.userOf && s'.kind == s.kind && s'.offered == s.offered
  {
    hide Step;
    if From(e).Some? {
      ClientFrames(s, e);
    } else {
      InnerFrames(s, e);
    }
  }

  lemma {:induction false} ClientFrames(s: State, e: Event)
    requires e.EAnswer? || e.EHangup? || e.EDecline? || e.EDisconnect? || e.ELocalIce?
    ensures var s' := Step(s, e); s'.userOf == s.userOf && s'.kind == s.kind && s'.offered == s.offered
  {
    hide Put, Freed, Unqueued, Others, Each, Online, LeaveCall, HangupIn;
    if e.c in s.callOf.v {
      var s0 := s.(callOf := Cell(s.callOf.v - {e.c}));
      LeaveFiles(s0, e.c, s.callOf.v[e.c], Recording(e));
      HangupFiles(s0, e.c, s.callOf.v[e.c], Recording(e));
      if e.EDecline? && Meant(s, e.c, e.asked).Some? {
        HangupFiles(s0.(rings := Cell(s.rings.v - {Meant(s, e.c, e.asked).value})), e.c, s.callOf.v[e.c], e.vm);
      }
    }
  }

  lemma {:induction false} LeaveFiles(s: State, c: Sock, k: CallId, vm: Voicemail)
    ensures var s' := LeaveCall(s, c, k, vm); s'.userOf == s.userOf && s'.kind == s.kind && s'.offered == s.offered
  {
    hide Put, Freed, Unqueued, Others, Each, Online;
  }

  lemma {:induction false} HangupFiles(s: State, c: Sock, k: CallId, vm: Voicemail)
    ensures var s' := HangupIn(s, c, k, vm); s'.userOf == s.userOf && s'.kind == s.kind && s'.offered == s.offered
  {
    hide Put, Freed, Unqueued, Others, Each, Online;
  }

  lemma {:induction false} InnerFrames(s: State, e: Event)
    requires From(e).None? && !e.EInInvite?
    ensures var s' := Step(s, e); s'.userOf == s.userOf && s'.kind == s.kind && s'.offered == s.offered
  {
    hide Put, Freed, Unqueued, Others, Each, Online, CleanUps;
    if e.EInEnd? && e.st in s.streams.v {
      CleanUpsFrames(s, s.streams.v[e.st]);
    }
  }

  lemma {:induction false} CleanUpsFrames(s: State, ids: seq<CallId>)
    ensures var s' := CleanUps(s, ids); s'.userOf == s.userOf && s'.kind == s.kind && s'.offered == s.offered
    decreases |ids|
  {
    hide Freed, Unqueued;
    if ids != [] {
      CleanUpsFrames(CleanUp(s, ids[0]), ids[1..]);
    }
  }

  lemma {:induction false} PlaceRecords(s: State, e: Event, id: CallId)
    requires Possible(s, e) && (e.EServiceCall? || e.EPlaceCross?)
    ensures FiledOk(s, e, Step(s, e), id)
  {}

  lemma {:induction false} CallRecords(s: State, e: Event, id: CallId)
    requires Inv(s) && Possible(s, e) && e.ECall?
    ensures FiledOk(s, e, Step(s, e), id)
  {
    hide Inv;
    OffersKnown(s, e.id);
    ListedNumber(s, e.n);
  }

  lemma {:induction false} InviteRecords(s: State, e: Event, id: CallId)
    requires Inv(s) && Possible(s, e) && e.EInInvite?
    ensures FiledOk(s, e, Step(s, e), id)
  {
    hide Inv, Put;
    OffersKnown(s, e.id);
    ListedNumber(s, e.n);
  }

  lemma {:induction false} OffersKnown(s: State, id: CallId)
    requires Inv(s)
    ensures id in s.offered.v ==> id in s.kind.v
  {}

  lemma {:induction false} ListedNumber(s: State, n: Number)
    requires Inv(s)
    ensures n in s.clients.v ==> s.clients.v[n] in s.userOf.v && s.userOf.v[s.clients.v[n]] == n
  {}

  lemma {:induction false} RegisterRecords(s: State, e: Event, id: CallId)
    requires Inv(s) && Possible(s, e) && e.ERegister?
    ensures FiledOk(s, e, Step(s, e), id)
  {
    hide Inv;
    QueuedFor(s, e.n);
  }

  lemma {:induction false} QueuedFor(s: State, n: Number)
    requires Inv(s)
    ensures n in s.pending.v ==>
      var id := s.pending.v[n].id; id !in s.offered.v && id in s.kind.v && Dialled(s.kind.v[id]) == Some(n)
  {}

  lemma {:induction false} StepRecords(s: State, e: Event, id: CallId)
    requires Inv(s) && Possible(s, e)
    ensures FiledOk(s, e, Step(s, e), id)
  {
    hide Inv, Possible, Step, FiledOk;
    match e
    case ERegister(_, _) => RegisterRecords(s, e, id);
    case ECall(_, _, _, _, _, _) => CallRecords(s, e, id);
    case EServiceCall(_, _, _) => PlaceRecords(s, e, id);
    case EPlaceCross(_, _, _, _) => PlaceRecords(s, e, id);
    case EInInvite(_, _, _, _, _, _) => InviteRecords(s, e, id);
    case _ => PlainRecords(s, e, id);
  }

  lemma {:induction false} OffersStep(s: State, e: Event, id: CallId)
    requires Inv(s) && Possible(s, e) && OffersOk(s, id)
    ensures OffersOk(Step(s, e), id)
  {
    hide Inv, Possible, Step, OfferOwed;
    StepRecords(s, e, id);
    var s' := Step(s, e);
    forall x
      ensures s'.told.v[(x, Offer(id))] == s.told.v[(x, Offer(id))] + if OfferOwed(s, e, x, id) then 1 else 0
    {
      StepTells(s, e, x, Offer(id));
    }
    if id in s'.offered.v {
      var owed := OfferOwed(s, e, s'.offered.v[id], id);
    }
  }

  // ---- Answering for good ----

  /**
    Once the phone that an inbound call was offered to has answered it, the call is that phone's: it never gets a
    recorder, and as long as its leg lasts the phone is at the end of it, whatever timers fire.
   */
  lemma {:induction false} AnswerStands(states: seq<State>, events: seq<Event>, i: nat, j: nat, c: Sock, id: CallId,
                                        pick: Sock)
    requires Run(states, events) && i < j < |states| && events[i] == EAnswer(c, id, pick) && c in states[i].userOf.v
    requires id in states[i].inLegs.v && states[i].inLegs.v[id].service.NoService?
    ensures id !in states[j].recorders.v && states[j].attempts.v[id] == 0
    ensures id in states[j].inLegs.v ==>
              var leg := states[j].inLegs.v[id]; leg.callee == Some(c) && leg.answered && leg.service.NoService?
  {
    var s, e := states[i], events[i];
    assert Possible(s, e) && states[i + 1] == Step(s, e);
    RunKeeps(states, events, i);
    AnsweredBy(s, e);
    hide Inv, Step, Run;
    StepLegsOk(s, e, id);
    assert id in states[i + 1].inLegs.v by { NoBye(s, e); }
    AnsweredNeverRedirected(states, events, i + 1, j, id);
  }

  lemma {:induction false} NoBye(s: State, e: Event)
    requires e.EAnswer?
    ensures !LegOver(s, e, e.id)
  {}

  lemma {:induction false} AnsweredBy(s: State, e: Event)
    requires Inv(s) && Possible(s, e) && e.EAnswer? && e.id in s.inLegs.v && s.inLegs.v[e.id].service.NoService?
    ensures s.inLegs.v[e.id].callee == Some(e.c)
  {}

  /** And when that phone hangs up, the other server is told so, and the leg is gone. */
  lemma {:induction false} HangupAfterAnswer(states: seq<State>, events: seq<Event>, i: nat, j: nat, c: Sock,
                                             id: CallId, pick: Sock, vm: Voicemail)
    requires Run(states, events) && i < j < |events| && events[i] == EAnswer(c, id, pick) && c in states[i].userOf.v
    requires id in states[i].inLegs.v && states[i].inLegs.v[id].service.NoService?
    requires events[j] == EHangup(c, vm) && In(states[j].callOf.v, c, id)
    ensures At(states[j + 1].sent.v, id) == At(states[j].sent.v, id) + [Bye(HungUp)] && id !in states[j + 1].inLegs.v
  {
    var s, e := states[j], events[j];
    assert Possible(s, e) && states[j + 1] == Step(s, e);
    hide Inv, Step, Run;
    RunKeeps(states, events, i);
    RunKeeps(states, events, j);
    LegKnown(states[i], id);
    AnswerStands(states, events, i, j, c, id, pick);
    KindStays(states, events, i, j, id);
    InLegHeld(states[i], s, c, id);
    StepSends(s, e, id, Bye(HungUp));
    StepLegsOk(s, e, id);
  }

  lemma {:induction false} KindStays(states: seq<State>, events: seq<Event>, i: nat, j: nat, id: CallId)
    requires Run(states, events) && i <= j < |states| && id in states[i].kind.v
    ensures id in states[j].kind.v && states[j].kind.v[id] == states[i].kind.v[id]
    decreases j
  {
    hide Step, Possible;
    if i < j {
      KindStays(states, events, i, j - 1, id);
      RunKeeps(states, events, j - 1);
      StepRecords(states[j - 1], events[j - 1], id);
    }
  }

  /** Whoever is in an inbound call is at the end of its leg. */
  lemma {:induction false} InLegHeld(s: State, t: State, c: Sock, id: CallId)
    requires Inv(s) && Inv(t) && id in s.inLegs.v && id in s.kind.v && id in t.kind.v && t.kind.v[id] == s.kind.v[id]
    requires In(t.callOf.v, c, id)
    ensures id in t.inLegs.v && c in t.userOf.v && c !in t.gone.v
  {}

  // ---- Services end once ----

  /** The service of local call id is with client x, or has been told, once, that the call is over. */
  ghost predicate WithOrOver(s: State, id: CallId, x: Sock) {
    if id in s.svc.v then s.svc.v[id] == x && s.ended.v[id] == 0 else s.ended.v[id] == 1
  }

  /** A service that got a local call keeps its client until it is told that the call is over, and is told once. */
  lemma {:induction false} ServiceEndsOnce(states: seq<State>, events: seq<Event>, i: nat, j: nat, id: CallId)
    requires Run(states, events) && i <= j < |states| && id in states[i].svc.v
    ensures WithOrOver(states[j], id, states[i].svc.v[id])
    decreases j
  {
    hide Step, Possible, Inv;
    RunKeeps(states, events, j);
    ServiceNow(states[j], id);
    if i < j {
      ServiceEndsOnce(states, events, i, j - 1, id);
      RunKeeps(states, events, j - 1);
      var s, e := states[j - 1], events[j - 1];
      if id in s.svc.v {
        ServiceStays(s, e, id);
      } else {
        ServiceGone(s, e, id);
      }
      StepAsks(s, e, id);
    }
  }

  lemma {:induction false} ServiceNow(s: State, id: CallId)
    requires Inv(s)
    ensures id in s.svc.v ==> s.ended.v[id] == 0
    ensures s.ended.v[id] <= 1
  {
    assert id in s.ended.v ==> s.ended.v[id] == 1;
  }

  lemma {:induction false} ServiceStays(s: State, e: Event, id: CallId)
    requires Inv(s) && Possible(s, e) && id in s.svc.v
    ensures var s', x := Step(s, e), s.svc.v[id];
            if ServiceTold(s, e, id) then id !in s'.svc.v else id in s'.svc.v && s'.svc.v[id] == x
  {
    hide Inv, Possible, Step;
    var x, s' := s.svc.v[id], Step(s, e);
    StepServices(s, e, x, id);
    OneTable(s, id);
    NotNew(s, e, id);
    ServedNotQueued(s, id);
    if id in s'.svc.v {
      StepServices(s, e, s'.svc.v[id], id);
    }
  }

  lemma {:induction false} ServedNotQueued(s: State, id: CallId)
    requires Inv(s) && id in s.svc.v
    ensures id in s.kind.v && s.kind.v[id].Local? && forall n | n in s.pending.v :: s.pending.v[n].id != id
  {}

  lemma {:induction false} NotNew(s: State, e: Event, id: CallId)
    requires Inv(s) && Possible(s, e) && (id in s.svc.v || s.ended.v[id] > 0)
    ensures id in s.kind.v
    ensures e.ECall? ==> e.id != id && e.id2 != id
    ensures e.EServiceCall? || e.EInInvite? ==> e.id != id
  {
    assert s.ended.v[id] > 0 ==> id in s.ended.v;
  }

  lemma {:induction false} ServiceGone(s: State, e: Event, id: CallId)
    requires Inv(s) && Possible(s, e) && id !in s.svc.v && s.ended.v[id] == 1
    ensures id !in Step(s, e).svc.v
  {
    hide Inv, Possible, Step;
    NotNew(s, e, id);
    EndedIdle(s, id);
    if id in Step(s, e).svc.v {
      StepServices(s, e, Step(s, e).svc.v[id], id);
    }
  }

  lemma {:induction false} EndedIdle(s: State, id: CallId)
    requires Inv(s) && s.ended.v[id] == 1
    ensures id !in s.rings.v && forall n | n in s.pending.v && s.pending.v[n].Waiting? :: s.pending.v[n].id != id
  {}
}
