/**
  The handlers of signaling/server.go and signaling/bridge.go over mutable fields, each
  proved to do what its specification in module Exchange says.

  Per-client fields (`user`, `callID`) are maps from the client. What goes out, to clients,
  to peers and to services, and the history the invariants speak of, are ghost.

  Each handler requires the invariant of call control, and that its message, timer or event is one that can come now,
  and ensures the invariant again.
 */
module Signaling {
  import opened Options
  import opened Exchange
  import opened CallInvariants

  /** What went out to clients, peers and services, and what happened before. */
  datatype Log = Log(
    told: Cell<multiset<(Sock, ClientMsg)>>, sent: Cell<map<CallId, seq<PeerMsg>>>,
    kind: Cell<map<CallId, Kind>>, offered: Cell<map<CallId, Sock>>, attempts: Cell<multiset<CallId>>,
    mailbox: Cell<map<CallId, Number>>, ended: Cell<multiset<CallId>>, selfEnded: Cell<set<CallId>>,
    recorders: Cell<set<CallId>>, rang: Cell<set<CallId>>, heard: Cell<map<CallId, seq<Candidate>>>,
    fed: Cell<map<CallId, seq<Candidate>>>, gone: Cell<set<Sock>>)
  {
    function Tell(c: Sock, m: ClientMsg): Log { this.(told := Cell(told.v + multiset{(c, m)})) }
    function Send(id: CallId, m: PeerMsg): Log { this.(sent := Cell(Put(sent.v, id, [m]))) }
    function Try(id: CallId, box: Number): Log {
      this.(attempts := Cell(attempts.v + multiset{id}), mailbox := Cell(mailbox.v[id := box]))
    }
    function EndService(id: CallId): Log { this.(ended := Cell(ended.v + multiset{id})) }
    function Feed(id: CallId, cs: seq<Candidate>): Log { this.(fed := Cell(Put(fed.v, id, cs))) }
  }

  lemma {:induction false} PutMore<T>(m: map<CallId, seq<T>>, id: CallId, xs: seq<T>, ys: seq<T>)
    ensures Put(Put(m, id, xs), id, ys) == Put(m, id, xs + ys)
  {
    assert At(m, id) + (xs + ys) == At(m, id) + xs + ys;
  }

  ghost predicate Distinct(pending: map<Number, Pending>) {
    forall n, m | n in pending && m in pending && n != m :: pending[n].id != pending[m].id
  }

  lemma {:induction false} QueueDistinct(s: State)
    requires Inv(s)
    ensures Distinct(s.pending.v)
    ensures forall n | n in s.pending.v :: s.pending.v[n].id in s.kind.v
  {
    forall n | n in s.pending.v ensures s.pending.v[n].id in s.kind.v { QueuedFacts(s, n); }
    forall n, m | n in s.pending.v && m in s.pending.v && n != m ensures s.pending.v[n].id != s.pending.v[m].id {
      QueuedFacts(s, n);
    }
  }

  lemma {:induction false} OneUnqueued(pending: map<Number, Pending>, n: Number, id: CallId)
    requires n in pending && pending[n].id == id && forall m | m in pending && m != n :: pending[m].id != id
    ensures Unqueued(pending, id) == pending - {n}
  {
    var rest := pending - {n};
    assert forall m | m in pending && m != n :: m in rest && rest[m] == pending[m];
    assert forall m | m in rest :: m in pending && m != n;
  }

  /** The next key of a range loop, whichever it is. */
  method Any(keys: set<int>) returns (k: int)
    requires keys != {}
    ensures k in keys
  {
    if forall x :: x !in keys {
      assert false;
    }
    k :| k in keys;
  }

  class Server {
    var clients: map<Number, Sock>
    var userOf: map<Sock, Number>
    var callOf: map<Sock, CallId>
    var rings: map<CallId, Ring>
    var pending: map<Number, Pending>
    var svc: map<CallId, Sock>
    var outLegs: set<CallId>
    var readers: map<CallId, Sock>
    var inLegs: map<CallId, Leg>
    var streams: map<Stream, seq<CallId>>
    ghost var log: Log

    ghost function Now(): State
      reads this
    {
      State(Cell(clients), Cell(userOf), Cell(callOf), Cell(rings), Cell(pending), Cell(svc), Cell(outLegs),
            Cell(readers), Cell(inLegs), Cell(streams), log.told, log.sent, log.kind, log.offered, log.attempts,
            log.mailbox, log.ended, log.selfEnded, log.recorders, log.rang, log.heard, log.fed, log.gone)
    }

    constructor ()
      ensures Now() == START && Inv(Now())
    {
      clients, userOf, callOf, rings, pending, svc := map[], map[], map[], map[], map[], map[];
      outLegs, readers, inLegs, streams := {}, map[], map[], map[];
      log := Log(START.told, START.sent, START.kind, START.offered, START.attempts, START.mailbox, START.ended,
                 START.selfEnded, START.recorders, START.rang, START.heard, START.fed, START.gone);
      new;
      StartOk();
    }

    // ---- Shared pieces ----

    method SendMessage(c: Sock, m: ClientMsg)
      modifies this
      ensures Now() == Told(old(Now()), c, m)
    {
      log := log.Tell(c, m);
    }

    method ClearCallID(c: Sock, id: CallId)
      modifies this
      ensures Now() == old(Now()).(callOf := Cell(Freed(old(callOf), c, id)))
    {
      if c in callOf && callOf[c] == id {
        callOf := callOf - {c};
      }
    }

    method EndForClient(c: Sock, id: CallId, why: Reason)
      modifies this
      ensures Now() == End(old(Now()), c, id, why)
    {
      ClearCallID(c, id);
      SendMessage(c, Ended(id, why));
    }

    method TakeRing(id: CallId) returns (r: Option<Ring>)
      modifies this
      ensures Now() == old(Now()).(rings := Cell(old(rings) - {id}))
      ensures r == if id in old(rings) then Some(old(rings)[id]) else None
    {
      r := None;
      if id in rings {
        r := Some(rings[id]);
      }
      rings := rings - {id};
    }

    method IsOnline(c: Sock) returns (online: bool)
      ensures online <==> Online(Now(), c)
    {
      online := c in userOf && userOf[c] in clients && clients[userOf[c]] == c;
    }

    /** The first entry with this id goes; there is never a second. */
    method RemovePendingByCallID(id: CallId) returns (found: bool)
      requires Distinct(pending)
      modifies this
      ensures Now() == old(Now()).(pending := Cell(Unqueued(old(pending), id)))
      ensures found <==> Queued(old(pending), id)
    {
      found := false;
      var todo := pending.Keys;
      while todo != {}
        invariant !found && Now() == old(Now()) && todo <= pending.Keys
        invariant forall n | n in pending && n !in todo :: pending[n].id != id
        decreases |todo|
      {
        var n := Any(todo);
        todo := todo - {n};
        if pending[n].id == id {
          OneUnqueued(pending, n, id);
          pending := pending - {n};
          return true;
        }
      }
      assert forall n | n in pending :: pending[n].id != id;
      assert Unqueued(pending, id) == pending;
    }

    // ---- Voicemail ----

    method RouteToVoicemail(caller: Sock, box: Number, id: CallId, vm: Voicemail) returns (ok: bool)
      modifies this
      ensures Now() == RouteLocal(old(Now()), caller, box, id, vm)
      ensures ok <==> Routed(old(Now()), caller, vm)
    {
      hide Online;
      var online := IsOnline(caller);
      ok := false;
      if !vm.Off? && online {
        log := log.Try(id, box);
        if !vm.Fails? {
          svc := svc[id := caller];
          callOf := callOf[caller := id];
          SendMessage(caller, Connected(id));
          ok := true;
        }
      }
    }

    /** routeInboundVoicemail for a leg that is in the table, then giving it up if that fails. */
    method RouteInboundVoicemailOr(leg: Leg, id: CallId, vm: Voicemail, m: PeerMsg) returns (recorded: bool)
      modifies this
      ensures recorded <==> vm.Works?
      ensures Now() == RouteInboundOr(old(Now()), leg, id, vm, m)
    {
      if !vm.Off? {
        inLegs := inLegs[id := leg.(callee := None, service := Recorder, answered := true)];
        log := log.Try(id, leg.calleeNum);
        if vm.Works? {
          log := log.(recorders := Cell(log.recorders.v + {id})).Send(id, Accept);
          ReplayCandidates(id, leg.candidates);
          return true;
        }
        log := log.EndService(id);
      }
      log := log.Send(id, m);
      inLegs := inLegs - {id};
      assert inLegs == old(inLegs) - {id};
      return false;
    }

    /** The caller's candidates, buffered while the callee's phone rang. */
    method ReplayCandidates(id: CallId, cs: seq<Candidate>)
      modifies this
      ensures Now() == old(Now()).(fed := Cell(Put(old(log).fed.v, id, cs)))
    {
      log := log.Feed(id, []);
      var i := 0;
      while i < |cs|
        invariant 0 <= i <= |cs| && Now() == old(Now()).(fed := Cell(Put(old(log).fed.v, id, cs[..i])))
      {
        PutMore(old(log).fed.v, id, cs[..i], [cs[i]]);
        assert cs[..i + 1] == cs[..i] + [cs[i]];
        log := log.Feed(id, [cs[i]]);
        i := i + 1;
      }
      assert cs[..i] == cs;
    }

    // ---- Registration and disconnection ----

    method HandleRegister(c: Sock, n: Number)
      requires Inv(Now()) && Possible(Now(), ERegister(c, n))
      modifies this
      ensures Now() == Register(old(Now()), c, n)
      ensures Inv(Now())
    {
      hide Inv, Deliver;
      RegisterKeeps(Now(), c, n);
      clients := clients[n := c];
      userOf := userOf[c := n];
      SendMessage(c, Registered);
      DeliverPendingCall(c, n);
    }

    method DeliverPendingCall(c: Sock, n: Number)
      modifies this
      ensures var s := old(Now()).(pending := Cell(old(pending) - {n}));
              Now() == if n in old(pending) then Deliver(s, old(pending)[n], c) else s
    {
      hide Online;
      if n !in pending {
        assert pending - {n} == pending;
        return;
      }
      var p := pending[n];
      pending := pending - {n};
      match p
      case Remote(id) =>
        if id !in inLegs {
          return;
        }
        inLegs := inLegs[id := inLegs[id].(callee := Some(c))];
        Offers(c, id);
        callOf := callOf[c := id];
      case Waiting(id, caller) =>
        var online := IsOnline(caller);
        if !online {
          return;
        }
        Offers(c, id);
        callOf := callOf[caller := id];
        callOf := callOf[c := id];
    }

    /** IncomingCall to a client. */
    method Offers(c: Sock, id: CallId)
      modifies this
      ensures Now()
        == old(Now()).(offered := Cell(old(log).offered.v[id := c]), told := old(log).Tell(c, Offer(id)).told)
    {
      log := log.(offered := Cell(log.offered.v[id := c])).Tell(c, Offer(id));
    }

    method UnregisterClient(c: Sock, vm: Voicemail)
      requires Inv(Now()) && Possible(Now(), EDisconnect(c, vm))
      modifies this
      ensures Now() == Disconnect(old(Now()), c, vm)
      ensures Inv(Now())
    {
      hide Inv, LeaveCall;
      DisconnectKeeps(Now(), c, vm);
      if c !in userOf {
        log := log.(gone := Cell(log.gone.v + {c}));
        return;
      }
      if c in callOf {
        var id := callOf[c];
        LegOf(Now(), c);
        FreeingKeeps(Now(), callOf - {c});
        callOf := callOf - {c};
        Leave(c, id, vm);
      }
      log := log.(gone := Cell(log.gone.v + {c}));
      if userOf[c] in clients && clients[userOf[c]] == c {
        clients := clients - {userOf[c]};
      }
    }

    /** The part of unregisterClient for a client that was in a call. */
    method Leave(c: Sock, id: CallId, vm: Voicemail)
      requires Inv(Now()) && c !in callOf && Unheld(Now(), id) && id in Now().kind.v
      modifies this
      ensures Now() == LeaveCall(old(Now()), c, id, vm) && userOf == old(userOf)
    {
      hide Inv, CloseLeg, LeaveRing, LeaveService, EndOthers, Unheld;
      LeaveCallKeeps(Now(), c, id, vm);
      CloseLegKeeps(Now(), c, id, Disconnected);
      var _ := CloseLocalLeg(c, id, Disconnected);
      QueueDistinct(Now());
      var _ := RemovePendingByCallID(id);
      LeaveTheRing(c, id, vm);
      LeaveTheService(c, id);
      EndTheOthers(c, id, Disconnected);
    }

    method LeaveTheRing(c: Sock, id: CallId, vm: Voicemail)
      modifies this
      ensures Now() == LeaveRing(old(Now()), c, id, vm)
    {
      hide RouteLocal, Routed, Online, End;
      assert id !in rings ==> rings - {id} == rings;
      var taken := TakeRing(id);
      if taken.Some? {
        var r := taken.value;
        if r.callee == c {
          var online := IsOnline(r.caller);
          if online {
            RouteToVoicemailOr(r, id, vm, Disconnected);
          }
        } else if r.caller == c {
          EndForClient(r.callee, id, Disconnected);
        }
      }
    }

    method LeaveTheService(c: Sock, id: CallId)
      modifies this
      ensures Now() == LeaveService(old(Now()), c, id)
    {
      if id in svc && svc[id] == c {
        svc := svc - {id};
        log := log.EndService(id);
      }
    }

    method RouteToVoicemailOr(r: Ring, id: CallId, vm: Voicemail, why: Reason)
      modifies this
      ensures Now() == RouteLocalOr(old(Now()), r, id, vm, why)
    {
      hide RouteLocal, Routed, End;
      var ok := RouteToVoicemail(r.caller, r.mailbox, id, vm);
      if !ok {
        EndForClient(r.caller, id, why);
      }
    }

    /** Every other registered client in the call is told it is over. */
    method EndTheOthers(c: Sock, id: CallId, why: Reason)
      modifies this
      ensures Now() == EndOthers(old(Now()), c, id, why)
    {
      hide Each, Others;
      ghost var s, m := Now(), Ended(id, why);
      ghost var xs: set<Sock> := {};
      NoneYet(callOf, log.told.v, m);
      var todo := clients.Keys;
      while todo != {}
        invariant todo <= clients.Keys && xs <= Others(s, c, id)
        invariant forall n | n in clients && n !in todo && clients[n] in Others(s, c, id) :: clients[n] in xs
        invariant Now() == s.(callOf := Cell(s.callOf.v - xs), told := Cell(s.told.v + Each(xs, m)))
        decreases |todo|
      {
        var n := Any(todo);
        todo := todo - {n};
        var x := clients[n];
        OtherOrNot(s, c, id, n);
        if x in callOf && callOf[x] == id && x != c {
          OneMore(s.callOf.v, s.told.v, xs, x, m);
          callOf := callOf - {x};
          log := log.Tell(x, m);
          xs := xs + {x};
        }
      }
      AllOthers(s, c, id, xs);
    }

    /** closeLocalLeg. */
    method CloseLocalLeg(c: Sock, id: CallId, why: Reason) returns (handled: bool)
      modifies this
      ensures Now() == CloseLeg(old(Now()), c, id, why)
      ensures handled <==> OnLeg(old(Now()), c, id)
    {
      if id in outLegs {
        outLegs := outLegs - {id};
        log := log.Send(id, Bye(why));
        return true;
      }
      if id in inLegs && inLegs[id].callee == Some(c) {
        inLegs := inLegs - {id};
        log := log.Send(id, Bye(why));
        return true;
      }
      return false;
    }

    // ---- Placing calls ----

    method HandleCall(c: Sock, n: Number, id: CallId, id2: CallId, line: Line, vm: Voicemail)
      requires Inv(Now()) && Possible(Now(), ECall(c, n, id, id2, line, vm))
      modifies this
      ensures Now() == Call(old(Now()), c, n, id, id2, line, vm)
      ensures Inv(Now())
    {
      hide Inv, RecordOrFail;
      CallKeeps(Now(), c, n, id, id2, line, vm);
      if c !in userOf {
        SendMessage(c, Failed(401));
      } else if n !in clients {
        CallOffline(c, n, id, id2, line, vm);
      } else {
        var b := clients[n];
        log := log.(kind := Cell(log.kind.v[id := Local(c, n)]));
        Offers(b, id);
        callOf := callOf[c := id];
        callOf := callOf[b := id];
        SendMessage(c, Ringing(id));
        rings := rings[id := Ring(c, b, n)];
        TwoTold(old(log).told.v, b, c, id);
      }
    }

    method CallOffline(c: Sock, n: Number, id: CallId, id2: CallId, line: Line, vm: Voicemail)
      requires c in userOf && n !in clients && id !in Now().kind.v && Inv(Now())
      modifies this
      ensures Now() == Call(old(Now()), c, n, id, id2, line, vm)
    {
      hide Inv, RecordOrFail;
      match line
      case Unknown => SendMessage(c, Failed(404));
      case NoPush =>
        log := log.(kind := Cell(log.kind.v[id := Local(c, n)]));
        VoicemailOrFail(c, n, id, vm);
      case Push(pushed) =>
        log := log.(kind := Cell(log.kind.v[id := Local(c, n)]));
        pending := pending[n := Waiting(id, c)];
        callOf := callOf[c := id];
        if pushed {
          SendMessage(c, Ringing(id));
        } else {
          QueueDistinct(old(Now()));
          WithoutFresh(old(Now()), Now(), n, c, id);
          var _ := RemovePendingByCallID(id);
          ClearCallID(c, id);
          log := log.(kind := Cell(log.kind.v[id2 := Local(c, n)]));
          VoicemailOrFail(c, n, id2, vm);
        }
    }

    method VoicemailOrFail(c: Sock, n: Number, id: CallId, vm: Voicemail)
      modifies this
      ensures Now() == RecordOrFail(old(Now()), c, n, id, vm)
    {
      hide RouteLocal, Routed;
      var ok := RouteToVoicemail(c, n, id, vm);
      if !ok {
        SendMessage(c, Failed(404));
      }
    }

    method HandleServiceCall(c: Sock, id: CallId, accepts: bool)
      requires Inv(Now()) && Possible(Now(), EServiceCall(c, id, accepts))
      modifies this
      ensures Now() == ServiceCall(old(Now()), c, id, accepts)
      ensures Inv(Now())
    {
      hide Inv;
      ServiceCallKeeps(Now(), c, id, accepts);
      if c !in userOf {
        SendMessage(c, Failed(401));
      } else if !accepts {
        SendMessage(c, Failed(500));
      } else {
        log := log.(kind := Cell(log.kind.v[id := Local(c, 0)]));
        svc := svc[id := c];
        callOf := callOf[c := id];
        SendMessage(c, Connected(id));
      }
    }

    /** startCrossCall and startServiceCall. */
    method StartCrossCall(c: Sock, id: CallId, to: Number, reachable: bool)
      requires Inv(Now()) && Possible(Now(), EPlaceCross(c, id, to, reachable))
      modifies this
      ensures Now() == PlaceCross(old(Now()), c, id, to, reachable)
      ensures Inv(Now())
    {
      hide Inv;
      PlaceCrossKeeps(Now(), c, id, to, reachable);
      if c !in userOf {
        SendMessage(c, Failed(401));
      } else if !reachable {
        SendMessage(c, Failed(502));
      } else {
        log := log.(kind := Cell(log.kind.v[id := Outgoing(c)])).Send(id, Invite(to));
        callOf := callOf[c := id];
        outLegs := outLegs + {id};
        readers := readers[id := c];
      }
    }

    // ---- Messages from clients ----

    /** handleCallAnswer; a local answer goes to the last client found in the call. */
    method HandleCallAnswer(c: Sock, id: CallId) returns (pick: Sock)
      requires Inv(Now()) && c !in Now().gone.v && id in Now().offered.v && Now().offered.v[id] == c
      modifies this
      ensures Now() == Answer(old(Now()), c, id, pick)
      ensures pick == c || pick in Others(old(Now()), c, id)
      ensures c in old(userOf) && id !in old(inLegs) && Others(old(Now()), c, id) != {} ==>
        pick in Others(old(Now()), c, id)
      ensures Inv(Now())
    {
      hide Inv, Others;
      ghost var s := Now();
      AnswerKeeps(s, c, id, c);
      pick := c;
      if c !in userOf {
        SendMessage(c, Failed(401));
        return;
      }
      var _ := TakeRing(id);
      if id in inLegs {
        var leg := inLegs[id];
        inLegs := inLegs[id := leg.(timer := false, answered := true,
                                    callee := if leg.callee.None? then Some(c) else leg.callee)];
        log := log.Send(id, Accept);
        return;
      }
      pick := Peer(c, id);
      AnswerKeeps(s, c, id, pick);
      OthersFrame(old(Now()), Now(), c, id);
      SendMessage(if pick == c then c else pick, if pick == c then Failed(404) else Connected(id));
    }

    /** Some registered client in the call other than c, or c if there is none. */
    method Peer(c: Sock, id: CallId) returns (pick: Sock)
      ensures if Others(Now(), c, id) == {} then pick == c else pick in Others(Now(), c, id)
      ensures pick == c || pick in Others(Now(), c, id)
      ensures c !in Others(Now(), c, id)
    {
      hide Others;
      pick := c;
      var todo := clients.Keys;
      NotOneself(Now(), c, id);
      while todo != {}
        invariant todo <= clients.Keys && (pick == c || pick in Others(Now(), c, id))
        invariant forall n | n in clients && n !in todo && clients[n] in Others(Now(), c, id) :: pick != c
        decreases |todo|
      {
        var n := Any(todo);
        todo := todo - {n};
        OtherOrNot(Now(), c, id, n);
        if clients[n] in callOf && callOf[clients[n]] == id && clients[n] != c {
          pick := clients[n];
        }
      }
      if pick == c {
        AllOthers(Now(), c, id, {});
      }
    }

    method HandleCallHangup(c: Sock, vm: Voicemail)
      requires Inv(Now()) && Possible(Now(), EHangup(c, vm))
      modifies this
      ensures Now() == Hangup(old(Now()), c, vm)
      ensures Inv(Now())
    {
      hide Inv, HangupIn;
      HangupKeeps(Now(), c, vm);
      if c !in userOf || c !in callOf {
        return;
      }
      var id := callOf[c];
      QueueDistinct(Now());
      callOf := callOf - {c};
      HangUpOn(c, id, vm);
    }

    /** handleCallHangup for a client that was in a call. */
    method HangUpOn(c: Sock, id: CallId, vm: Voicemail)
      requires Distinct(pending)
      modifies this
      ensures Now() == HangupIn(old(Now()), c, id, vm)
    {
      hide RouteLocalOr, RouteInboundOr, EndOthers, CloseLeg, End, Unqueued;
      var taken := TakeRing(id);
      if taken.Some? {
        var r := taken.value;
        if r.callee == c {
          RouteToVoicemailOr(r, id, vm, Declined);
        } else {
          EndForClient(r.callee, id, HungUp);
        }
        return;
      }
      assert rings == old(rings);
      var declined := DeclineInboundCallee(c, id, vm);
      if declined {
        return;
      }
      var closed := CloseLocalLeg(c, id, HungUp);
      if closed {
        return;
      }
      NotClosed(old(Now()), c, id);
      var queued := RemovePendingByCallID(id);
      if queued {
        return;
      }
      NotQueued(old(pending), id);
      if id in svc {
        svc := svc - {id};
        log := log.EndService(id);
        return;
      }
      EndTheOthers(c, id, HungUp);
    }

    /** A callee that hangs up or declines while its phone still rings. */
    method DeclineInboundCallee(c: Sock, id: CallId, vm: Voicemail) returns (handled: bool)
      modifies this
      ensures handled <==> Declinable(old(Now()), c, id)
      ensures Now() == if handled then DeclineInbound(old(Now()), c, id, vm) else old(Now())
    {
      hide RouteInboundOr, Freed;
      if id !in inLegs || inLegs[id].callee != Some(c) || inLegs[id].answered || !inLegs[id].service.NoService? {
        return false;
      }
      var leg := inLegs[id].(timer := false, callee := None);
      ClearCallID(c, id);
      var _ := RouteInboundVoicemailOr(leg, id, vm, Bye(Declined));
      return true;
    }

    method HandleCallDecline(c: Sock, asked: Option<CallId>, vm: Voicemail)
      requires Inv(Now()) && Possible(Now(), EDecline(c, asked, vm))
      modifies this
      ensures Now() == Decline(old(Now()), c, asked, vm)
      ensures Inv(Now())
    {
      hide Inv, Hangup, RouteLocalOr, Freed;
      DeclineKeeps(Now(), c, asked, vm);
      if c !in userOf || (asked.None? && c !in callOf) {
        return;
      }
      var id := if asked.Some? then asked.value else callOf[c];
      TakingKeeps(Now(), id);
      var taken := TakeRing(id);
      if taken.None? || taken.value.callee != c {
        HandleCallHangup(c, vm);
      } else {
        ClearCallID(c, id);
        RouteToVoicemailOr(taken.value, id, vm, Declined);
      }
    }

    method HandleICECandidate(c: Sock, id: CallId, cand: Candidate)
      requires Inv(Now()) && Possible(Now(), ELocalIce(c, id, cand))
      modifies this
      ensures Now() == LocalIce(old(Now()), c, id, cand)
      ensures Inv(Now())
    {
      hide Inv, Others, Each;
      LocalIceKeeps(Now(), c, id, cand);
      if c !in userOf {
        return;
      }
      if id in svc {
        log := log.Feed(id, [cand]);
      } else if id in outLegs || (id in inLegs && inLegs[id].callee == Some(c)) {
        log := log.Send(id, Ice(cand));
      } else {
        TellTheOthers(c, id, Trickle(id, cand));
      }
    }

    /** m to every other registered client in the call, once each. */
    method TellTheOthers(c: Sock, id: CallId, m: ClientMsg)
      requires Inv(Now())
      modifies this
      ensures Now() == old(Now()).(told := Cell(old(log).told.v + Each(Others(old(Now()), c, id), m)))
    {
      hide Inv, Others, Each;
      ghost var s := Now();
      ghost var xs: set<Sock> := {};
      NoneYet(callOf, log.told.v, m);
      var todo := clients.Keys;
      while todo != {}
        invariant todo <= clients.Keys && xs <= Others(s, c, id)
        invariant forall n | n in clients && n !in todo && clients[n] in Others(s, c, id) :: clients[n] in xs
        invariant forall n | n in todo :: clients[n] !in xs
        invariant Now() == s.(told := Cell(s.told.v + Each(xs, m)))
        decreases |todo|
      {
        var n := Any(todo);
        todo := todo - {n};
        var x := clients[n];
        OtherOrNot(s, c, id, n);
        if x in callOf && callOf[x] == id && x != c {
          OneNumberEach(s, n);
          OneMore(s.callOf.v, s.told.v, xs, x, m);
          log := log.Tell(x, m);
          xs := xs + {x};
        }
      }
      AllOthers(s, c, id, xs);
    }

    // ---- Timers and self-ending recorders ----

    method OnRingTimeout(id: CallId, vm: Voicemail)
      requires Inv(Now()) && Possible(Now(), ERingTimeout(id, vm))
      modifies this
      ensures Now() == RingTimeout(old(Now()), id, vm)
      ensures Inv(Now())
    {
      hide Inv, RouteLocalOr, Online, End;
      RingTimeoutKeeps(Now(), id, vm);
      var taken := TakeRing(id);
      if taken.None? {
        assert rings == old(rings);
        return;
      }
      var r := taken.value;
      EndForClient(r.callee, id, NoAnswer);
      var online := IsOnline(r.caller);
      if online {
        RouteToVoicemailOr(r, id, vm, NoAnswer);
      }
    }

    /** expirePendingCalls for one number whose time is up. */
    method ExpirePendingCall(n: Number, vm: Voicemail)
      requires Inv(Now()) && Possible(Now(), EExpire(n, vm))
      modifies this
      ensures Now() == Expire(old(Now()), n, vm)
      ensures Inv(Now())
    {
      hide Inv, RouteLocalOr, RouteInboundOr, Online;
      ExpireKeeps(Now(), n, vm);
      if n !in pending {
        return;
      }
      var p := pending[n];
      pending := pending - {n};
      match p
      case Remote(id) =>
        if id in inLegs {
          var _ := RouteInboundVoicemailOr(inLegs[id], id, vm, Bye(NoAnswer));
        }
      case Waiting(id, caller) =>
        StillOnline(old(Now()), Now(), caller);
        var online := IsOnline(caller);
        if online {
          RouteToVoicemailOr(Ring(caller, caller, n), id, vm, NoAnswer);
        }
    }

    method OnInboundRingTimeout(id: CallId, vm: Voicemail)
      requires Inv(Now()) && Possible(Now(), EInboundTimeout(id, vm))
      modifies this
      ensures Now() == InboundTimeout(old(Now()), id, vm)
      ensures Inv(Now())
    {
      hide Inv, RouteInboundOr, End;
      InboundTimeoutKeeps(Now(), id, vm);
      if id !in inLegs || inLegs[id].callee.None? || inLegs[id].answered || !inLegs[id].service.NoService? {
        return;
      }
      var leg := inLegs[id];
      EndForClient(leg.callee.value, id, NoAnswer);
      var _ := RouteInboundVoicemailOr(leg.(timer := false, callee := None), id, vm, Bye(NoAnswer));
    }

    /** OnSelfEnd of an inbound leg's recorder. */
    method InboundRecorderEnds(id: CallId)
      requires Inv(Now()) && Possible(Now(), EInboundSelfEnd(id))
      modifies this
      ensures Now() == InboundSelfEnd(old(Now()), id)
      ensures Inv(Now())
    {
      hide Inv;
      InboundSelfEndKeeps(Now(), id);
      log := log.(selfEnded := Cell(log.selfEnded.v + {id})).Send(id, Bye(VoicemailComplete));
      inLegs := inLegs - {id};
    }

    /** endServiceCall, as a local caller's recorder calls it. */
    method EndServiceCall(c: Sock, id: CallId)
      requires Inv(Now()) && Possible(Now(), ELocalSelfEnd(c, id))
      modifies this
      ensures Now() == LocalSelfEnd(old(Now()), c, id)
      ensures Inv(Now())
    {
      hide Inv, End;
      LocalSelfEndKeeps(Now(), c, id);
      log := log.(selfEnded := Cell(log.selfEnded.v + {id}));
      var serving := id in svc;
      EndFrame(Now(), c, id, VoicemailComplete);
      EndForClient(c, id, VoicemailComplete);
      if serving {
        svc := svc - {id};
        log := log.EndService(id);
      }
    }

    // ---- Inbound bridge streams ----

    /** serveInbound starts. */
    method ServeInbound(st: Stream)
      requires Inv(Now()) && Possible(Now(), EStreamOpen(st))
      modifies this
      ensures Now() == StreamOpen(old(Now()), st)
      ensures Inv(Now())
    {
      hide Inv;
      StreamOpenKeeps(Now(), st);
      streams := streams[st := []];
    }

    method InboundIncoming(st: Stream, id: CallId, n: Number, host: Hosting, line: Line, vm: Voicemail)
      requires Inv(Now()) && Possible(Now(), EInInvite(st, id, n, host, line, vm))
      modifies this
      ensures Now() == InInvite(old(Now()), st, id, n, host, line, vm)
      ensures Inv(Now())
    {
      hide Inv, RouteInbound, RouteInboundOr, Refuse;
      InInviteKeeps(Now(), st, id, n, host, line, vm);
      FreshInvite(Now(), id, n, st);
      log := log.(kind := Cell(log.kind.v[id := Incoming(n, st)]));
      var leg := Leg(st, n, None, NoService, false, false, []);
      match host
      case HostedHere(accepts, answerSent) =>
        inLegs := inLegs[id := leg.(service := Hosted)];
        if !accepts {
          RefuseInbound(old(inLegs), id, ServiceError);
        } else if !answerSent {
          inLegs := inLegs - {id};
          assert inLegs == old(inLegs);
        } else {
          log := log.Send(id, Accept);
          streams := Put(streams, st, [id]);
        }
      case NotHosted =>
        if n in clients {
          RingOnlineCallee(st, id, n, leg);
        } else {
          InviteOffline(old(Now()), st, id, n, line, vm, leg);
        }
    }

    method RefuseInbound(ghost before: map<CallId, Leg>, id: CallId, why: Reason)
      requires id !in before && inLegs - {id} == before
      modifies this
      ensures Now() == Refuse(old(Now()).(inLegs := Cell(before)), id, why)
    {
      log := log.Send(id, Busy(why));
      inLegs := inLegs - {id};
      assert before - {id} == before;
    }

    method RingOnlineCallee(st: Stream, id: CallId, n: Number, leg: Leg)
      requires n in clients
      modifies this
      ensures var b := old(clients)[n];
              Now() == old(Now()).(inLegs := Cell(old(inLegs)[id := leg.(callee := Some(b), timer := true)]),
                                   rang := Cell(old(log).rang.v + {id}), callOf := Cell(old(callOf)[b := id]),
                                   offered := Cell(old(log).offered.v[id := b]),
                                   told := old(log).Tell(b, Offer(id)).told,
                                   streams := Cell(Put(old(streams), st, [id])),
                                   sent := old(log).Send(id, Alerting).sent)
    {
      var b := clients[n];
      inLegs := inLegs[id := leg.(callee := Some(b), timer := true)];
      callOf := callOf[b := id];
      log := log.(rang := Cell(log.rang.v + {id}));
      Offers(b, id);
      log := log.Send(id, Alerting);
      streams := Put(streams, st, [id]);
    }

    method InviteOffline(ghost s: State, st: Stream, id: CallId, n: Number, line: Line, vm: Voicemail, leg: Leg)
      requires id !in inLegs && n !in clients && leg == Blank(st, n)
      requires Now() == s.(kind := Cell(s.kind.v[id := Incoming(n, st)]))
      modifies this
      ensures Now() == InInvite(s, st, id, n, NotHosted, line, vm)
    {
      hide RouteInbound, RouteInboundOr, Refuse;
      ghost var before := inLegs;
      inLegs := inLegs[id := leg];
      assert inLegs - {id} == before;
      match line
      case Unknown => RefuseInbound(before, id, Unavailable);
      case NoPush =>
        LegFirst(old(Now()), leg, id, vm, Busy(Unavailable));
        RouteStreams(old(Now()), leg, id, Put(streams, st, [id]));
        var recorded := RouteInboundVoicemailOr(leg, id, vm, Busy(Unavailable));
        if recorded {
          streams := Put(streams, st, [id]);
        }
      case Push(pushed) =>
        pending := pending[n := Remote(id)];
        if pushed {
          log := log.Send(id, Alerting);
          streams := Put(streams, st, [id]);
        } else {
          assert old(pending)[n := Remote(id)] - {n} == old(pending) - {n};
          pending := pending - {n};
          RefuseInbound(before, id, Unavailable);
        }
    }

    method HandleInboundICE(id: CallId, cand: Candidate)
      requires Inv(Now()) && Possible(Now(), EInIce(id, cand))
      modifies this
      ensures Now() == InIce(old(Now()), id, cand)
      ensures Inv(Now())
    {
      hide Inv;
      InIceKeeps(Now(), id, cand);
      if id !in inLegs {
        return;
      }
      var leg := inLegs[id];
      log := log.(heard := Cell(Put(log.heard.v, id, [cand])));
      if leg.callee.Some? {
        inLegs := inLegs[id := leg.(candidates := leg.candidates + [cand])];
      }
      if !leg.service.NoService? {
        log := log.Feed(id, [cand]);
      } else if leg.callee.Some? {
        SendMessage(leg.callee.value, Trickle(id, cand));
      }
    }

    method InboundRemoteHangup(id: CallId, why: Reason)
      requires Inv(Now()) && Possible(Now(), EInBye(id, why))
      modifies this
      ensures Now() == InBye(old(Now()), id, why)
      ensures Inv(Now())
    {
      hide Inv, EndLeg, Unqueued;
      InByeKeeps(Now(), id, why);
      QueueDistinct(Now());
      if id in inLegs {
        DropLeg(id, why);
      } else {
        var _ := RemovePendingByCallID(id);
      }
    }

    /** A leg goes, and whoever is at its local end is told. */
    method DropLeg(id: CallId, why: Reason)
      requires id in inLegs && Distinct(pending)
      modifies this
      ensures Now() == EndLeg(old(Now()), id, why)
      ensures Distinct(pending)
    {
      hide Freed, Unqueued;
      var leg := inLegs[id];
      inLegs := inLegs - {id};
      StillDistinct(pending, id);
      if !leg.service.NoService? {
        log := log.EndService(id);
      } else if leg.callee.Some? {
        EndForClient(leg.callee.value, id, why);
      } else {
        var _ := RemovePendingByCallID(id);
      }
    }

    /** serveInbound returns: every call it ids is cleaned up. */
    method StopServing(st: Stream)
      requires Inv(Now()) && Possible(Now(), EInEnd(st))
      modifies this
      ensures Now() == InEnd(old(Now()), st)
      ensures Inv(Now())
    {
      hide Inv, CleanUp, Distinct;
      InEndKeeps(Now(), st);
      QueueDistinct(Now());
      if st !in streams {
        return;
      }
      var ids := streams[st];
      var i := 0;
      assert ids[..0] == [];
      while i < |ids|
        invariant 0 <= i <= |ids| && Distinct(pending)
        invariant Now() == CleanUps(old(Now()), ids[..i])
      {
        CleanUpOneMore(old(Now()), ids[..i], ids[i]);
        assert ids[..i + 1] == ids[..i] + [ids[i]];
        CleanUpCall(ids[i]);
        i := i + 1;
      }
      assert ids[..i] == ids;
      streams := streams - {st};
    }

    method CleanUpCall(id: CallId)
      requires Distinct(pending)
      modifies this
      ensures Now() == CleanUp(old(Now()), id) && Distinct(pending)
    {
      hide EndLeg, Unqueued, Distinct;
      if id in inLegs {
        DropLeg(id, Disconnected);
      }
      StillDistinct(pending, id);
      var _ := RemovePendingByCallID(id);
    }

    // ---- Outbound bridge streams ----

    /** One event in outboundReadLoop. */
    method HandleOutbound(id: CallId, m: PeerMsg)
      requires Inv(Now()) && Possible(Now(), EOutEvent(id, m))
      modifies this
      ensures Now() == OutEvent(old(Now()), id, m)
      ensures Inv(Now())
    {
      hide Inv, Freed;
      OutEventKeeps(Now(), id, m);
      if id !in readers {
        return;
      }
      var c := readers[id];
      match m
      case Alerting => SendMessage(c, Ringing(id));
      case Accept => SendMessage(c, Connected(id));
      case Ice(cand) => SendMessage(c, Trickle(id, cand));
      case Bye(why) => SendMessage(c, Ended(id, why)); ReturnFromLoop(c, id);
      case Busy(why) => SendMessage(c, Ended(id, why)); ReturnFromLoop(c, id);
      case Invite(_) =>
    }

    /** outboundReadLoop's Recv fails. */
    method OutboundEnds(id: CallId, eof: bool)
      requires Inv(Now()) && Possible(Now(), EOutEnd(id, eof))
      modifies this
      ensures Now() == OutEnd(old(Now()), id, eof)
      ensures Inv(Now())
    {
      hide Inv, Freed;
      OutEndKeeps(Now(), id, eof);
      if id !in readers {
        return;
      }
      var c := readers[id];
      if !eof {
        SendMessage(c, Ended(id, Disconnected));
      }
      ReturnFromLoop(c, id);
    }

    /** The deferred part of outboundReadLoop. */
    method ReturnFromLoop(c: Sock, id: CallId)
      modifies this
      ensures Now() == ReaderReturns(old(Now()), c, id)
    {
      outLegs := outLegs - {id};
      readers := readers - {id};
      ClearCallID(c, id);
    }
  }

  lemma {:induction false} OtherOrNot(s: State, c: Sock, id: CallId, n: Number)
    requires n in s.clients.v
    ensures var x := s.clients.v[n]; x in Others(s, c, id) <==> x != c && x in s.callOf.v && s.callOf.v[x] == id
  {}

  lemma {:induction false} NoneYet(callOf: map<Sock, CallId>, told: multiset<(Sock, ClientMsg)>, m: ClientMsg)
    ensures callOf - {} == callOf && told + Each({}, m) == told
  {}

  lemma {:induction false} OneMore(callOf: map<Sock, CallId>, told: multiset<(Sock, ClientMsg)>, xs: set<Sock>,
                                   x: Sock, m: ClientMsg)
    requires x !in xs
    ensures callOf - xs - {x} == callOf - (xs + {x})
    ensures told + Each(xs, m) + multiset{(x, m)} == told + Each(xs + {x}, m)
  {
    assert (set y | y in xs + {x} :: (y, m)) == (set y | y in xs :: (y, m)) + {(x, m)};
    assert Each(xs + {x}, m) == Each(xs, m) + multiset{(x, m)};
  }

  lemma {:induction false} AllOthers(s: State, c: Sock, id: CallId, xs: set<Sock>)
    requires xs <= Others(s, c, id)
    requires forall n | n in s.clients.v && s.clients.v[n] in Others(s, c, id) :: s.clients.v[n] in xs
    ensures xs == Others(s, c, id)
  {
    forall x | x in Others(s, c, id)
      ensures x in xs
    {
      assert x in s.clients.v.Values;
      if forall n | n in s.clients.v :: s.clients.v[n] != x {
        assert false;
      }
    }
  }

  lemma {:induction false} TwoTold(told: multiset<(Sock, ClientMsg)>, b: Sock, c: Sock, id: CallId)
    ensures told + multiset{(b, Offer(id))} + multiset{(c, Ringing(id))}
      == told + multiset{(b, Offer(id)), (c, Ringing(id))}
  {}

  /** Queueing a call and taking it back leaves only the number unqueued and the caller idle. */
  lemma {:induction false} WithoutFresh(s: State, s': State, n: Number, c: Sock, id: CallId)
    requires Distinct(s.pending.v) && (forall m | m in s.pending.v :: s.pending.v[m].id != id)
    requires s'.pending.v == s.pending.v[n := Waiting(id, c)] && s'.callOf.v == s.callOf.v[c := id]
    ensures Distinct(s'.pending.v) && Unqueued(s'.pending.v, id) == s.pending.v - {n}
    ensures Freed(s'.callOf.v, c, id) == s.callOf.v - {c}
  {
    OneUnqueued(s'.pending.v, n, id);
    assert s'.pending.v - {n} == s.pending.v - {n};
  }

  /** routeInboundVoicemail finds the leg already in the table; a refusal takes it out again. */
  lemma {:induction false} LegFirst(s: State, leg: Leg, id: CallId, vm: Voicemail, m: PeerMsg)
    requires id !in s.inLegs.v
    ensures var s' := s.(inLegs := Cell(s.inLegs.v[id := leg]));
            RouteInboundOr(s', leg, id, vm, m) == if vm.Works? then RouteInbound(s, leg, id)
              else RouteInboundOr(s, leg, id, vm, m)
  {
    var recording := leg.(callee := None, service := Recorder, answered := true);
    assert s.inLegs.v[id := leg] - {id} == s.inLegs.v - {id};
    assert s.inLegs.v[id := leg][id := recording] == s.inLegs.v[id := recording];
  }

  lemma {:induction false} RouteStreams(s: State, leg: Leg, id: CallId, streams: map<Stream, seq<CallId>>)
    ensures RouteInbound(s.(streams := Cell(streams)), leg, id) == RouteInbound(s, leg, id).(streams := Cell(streams))
    ensures RouteInbound(s, leg, id).streams == s.streams
  {}

  lemma {:induction false} StillDistinct(pending: map<Number, Pending>, id: CallId)
    requires Distinct(pending)
    ensures Distinct(Unqueued(pending, id))
  {}

  lemma {:induction false} CleanUpOneMore(s: State, ids: seq<CallId>, id: CallId)
    ensures CleanUps(s, ids + [id]) == CleanUp(CleanUps(s, ids), id)
    decreases |ids|
  {
    hide CleanUp;
    if ids == [] {
      assert CleanUps(CleanUp(s, id), []) == CleanUp(s, id);
    } else {
      assert (ids + [id])[1..] == ids[1..] + [id];
      CleanUpOneMore(CleanUp(s, ids[0]), ids[1..], id);
    }
  }

  lemma {:induction false} OthersFrame(s: State, s': State, c: Sock, id: CallId)
    requires s'.clients == s.clients && s'.callOf == s.callOf
    ensures Others(s', c, id) == Others(s, c, id)
  {}

  lemma {:induction false} NotOneself(s: State, c: Sock, id: CallId)
    ensures c !in Others(s, c, id)
  {}

  lemma {:induction false} NotClosed(s: State, c: Sock, id: CallId)
    requires !OnLeg(s, c, id)
    ensures CloseLeg(s, c, id, HungUp) == s
  {}

  lemma {:induction false} NotQueued(pending: map<Number, Pending>, id: CallId)
    requires !Queued(pending, id)
    ensures Unqueued(pending, id) == pending
  {
    assert forall n | n in pending :: pending[n].id != id;
  }

  /** No client is registered under two numbers. */
  lemma {:induction false} OneNumberEach(s: State, n: Number)
    requires Inv(s) && n in s.clients.v
    ensures forall m | m in s.clients.v && m != n :: s.clients.v[m] != s.clients.v[n]
  {}

  lemma {:induction false} StillOnline(s: State, s': State, c: Sock)
    requires s'.clients == s.clients && s'.userOf == s.userOf
    ensures Online(s', c) <==> Online(s, c)
  {}

  lemma {:induction false} EndFrame(s: State, c: Sock, id: CallId, why: Reason)
    ensures End(s, c, id, why).svc == s.svc
  {}
}
