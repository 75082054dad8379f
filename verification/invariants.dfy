/**
  What every handler of an exchange keeps, whatever happens in whatever order.

  The invariant has four parts. SocketsOk: a listed number leads to a live socket of that number, and a socket is
  in no call that it has neither placed nor been offered. LocalOk: a ring, a queued call and a service each fit
  the call they are for, no local call is in two of the tables, and none that still waits has been recorded.
  BridgeOk: an out-leg has its reader and an in-leg its stream, a leg's callee, service and answer fit together,
  and its candidates are where they should be. HistoryOk: a call is recorded once at most, for the line that
  was dialled, and that recording is ended once at most.

  Each clause takes just the fields it speaks of, so a handler owes a proof only for
  the clauses whose fields it writes.
 */
module CallInvariants {
  import opened Options
  import opened Exchange

  type Kinds = map<CallId, Kind>

  // ---- The invariant ----

  /** A number leads to a live socket registered under it. */
  ghost predicate Listed(clients: map<Number, Sock>, userOf: map<Sock, Number>, gone: set<Sock>) {
    forall n | n in clients :: clients[n] in userOf && userOf[clients[n]] == n && clients[n] !in gone
  }

  /** c takes part in call id only if it placed the call or was offered it. */
  predicate Party(kind: Kinds, offered: map<CallId, Sock>, c: Sock, id: CallId) {
    || (id in kind && !kind[id].Incoming? && kind[id].who == c)
    || (id in offered && offered[id] == c)
  }

  ghost predicate Busied(callOf: map<Sock, CallId>, userOf: map<Sock, Number>, gone: set<Sock>, kind: Kinds,
                         offered: map<CallId, Sock>) {
    forall c | c in callOf :: c in userOf && c !in gone && Party(kind, offered, c, callOf[c])
  }

  ghost predicate Offers(offered: map<CallId, Sock>, kind: Kinds) {
    forall id | id in offered :: id in kind && !kind[id].Outgoing?
  }

  ghost predicate Rings(rings: map<CallId, Ring>, kind: Kinds, offered: map<CallId, Sock>) {
    forall id | id in rings ::
      && id in kind && kind[id] == Local(rings[id].caller, rings[id].mailbox)
      && id in offered && offered[id] == rings[id].callee
      && rings[id].caller != rings[id].callee
  }

  /** The numbers with a queued call are not online. */
  ghost predicate Asleep(pending: map<Number, Pending>, clients: map<Number, Sock>) {
    forall n | n in pending :: n !in clients
  }

  ghost predicate Queue(pending: map<Number, Pending>, kind: Kinds, offered: map<CallId, Sock>) {
    forall n | n in pending ::
      && pending[n].id in kind && pending[n].id !in offered
      && (pending[n].Waiting? ==> kind[pending[n].id] == Local(pending[n].caller, n))
      && (pending[n].Remote? ==> kind[pending[n].id].Incoming? && kind[pending[n].id].line == n)
  }

  ghost predicate Services(svc: map<CallId, Sock>, kind: Kinds) {
    forall id | id in svc :: id in kind && kind[id].Local? && kind[id].who == svc[id]
  }

  /** A local call is ringing, queued or with a service, never two of these. */
  ghost predicate Phases(rings: map<CallId, Ring>, pending: map<Number, Pending>, svc: map<CallId, Sock>) {
    && (forall id | id in rings :: id !in svc)
    && (forall n | n in pending && pending[n].Waiting? :: pending[n].id !in rings && pending[n].id !in svc)
  }

  predicate Unrecorded(attempts: multiset<CallId>, ended: multiset<CallId>, id: CallId) {
    attempts[id] == 0 && ended[id] == 0
  }

  /** Ringing and queued calls have had no recorder yet; no running service has been ended. */
  ghost predicate Unheard(rings: map<CallId, Ring>, pending: map<Number, Pending>, svc: map<CallId, Sock>,
                          attempts: multiset<CallId>, ended: multiset<CallId>) {
    && (forall id | id in rings :: Unrecorded(attempts, ended, id))
    && (forall n | n in pending && pending[n].Waiting? :: Unrecorded(attempts, ended, pending[n].id))
    && (forall id | id in svc :: ended[id] == 0)
  }

  ghost predicate Outbound(outLegs: set<CallId>, readers: map<CallId, Sock>, kind: Kinds) {
    && (forall id | id in outLegs :: id in readers)
    && (forall id | id in readers :: id in kind && kind[id] == Outgoing(readers[id]))
  }

  /** An inbound leg belongs to the stream that opened it. */
  ghost predicate Owned(inLegs: map<CallId, Leg>, streams: map<Stream, seq<CallId>>, kind: Kinds) {
    && (forall id | id in inLegs ::
          && id in kind && kind[id] == Incoming(inLegs[id].calleeNum, inLegs[id].stream)
          && inLegs[id].stream in streams && id in streams[inLegs[id].stream])
    && (forall st, id | st in streams && id in streams[st] :: id in kind && kind[id].Incoming? && kind[id].on == st)
  }

  /** How far a leg has come. */
  predicate Stage(leg: Leg, id: CallId, offered: map<CallId, Sock>, rang: set<CallId>,
                  attempts: multiset<CallId>, recorders: set<CallId>) {
    match leg.service
    case NoService =>
      && attempts[id] == 0
      && (if leg.callee.None? then !leg.answered && id !in offered && id !in rang
          else id in offered && offered[id] == leg.callee.value)
    case Hosted => attempts[id] == 0 && id !in offered && id !in rang
    case Recorder => attempts[id] == 1 && id in recorders && leg.answered
  }

  ghost predicate Staged(inLegs: map<CallId, Leg>, offered: map<CallId, Sock>, rang: set<CallId>,
                         attempts: multiset<CallId>, ended: multiset<CallId>, recorders: set<CallId>) {
    forall id | id in inLegs :: ended[id] == 0 && Stage(inLegs[id], id, offered, rang, attempts, recorders)
  }

  /**
    The only socket in an inbound call is the callee of its leg, and only while the leg lasts and no service has it.
   */
  ghost predicate Engaged(callOf: map<Sock, CallId>, inLegs: map<CallId, Leg>, kind: Kinds) {
    forall c | c in callOf && callOf[c] in kind && kind[callOf[c]].Incoming? ::
      callOf[c] in inLegs && inLegs[callOf[c]].service.NoService? && inLegs[callOf[c]].callee == Some(c)
  }

  /** A remote call that is queued still has its leg, untouched. */
  ghost predicate QueuedLegs(pending: map<Number, Pending>, inLegs: map<CallId, Leg>) {
    forall n | n in pending && pending[n].Remote? ::
      && pending[n].id in inLegs
      && var leg := inLegs[pending[n].id];
         leg.calleeNum == n && leg.callee.None? && leg.service.NoService? && !leg.answered
  }

  /** Legs whose callee was online: what was heard is buffered while ringing and with the recorder afterwards. */
  ghost predicate Candidates(inLegs: map<CallId, Leg>, rang: set<CallId>, heard: map<CallId, seq<Candidate>>,
                             fed: map<CallId, seq<Candidate>>) {
    forall id | id in inLegs && id in rang ::
      && (inLegs[id].service.NoService? ==> inLegs[id].candidates == At(heard, id) && At(fed, id) == [])
      && (inLegs[id].service.Recorder? ==> At(fed, id) == At(heard, id))
  }

  function Dialled(k: Kind): Option<Number> {
    match k
    case Local(_, to) => Some(to)
    case Outgoing(_) => None
    case Incoming(line, _) => Some(line)
  }

  /** Nothing is recorded, or ended, twice. */
  ghost predicate Once(attempts: multiset<CallId>, ended: multiset<CallId>, kind: Kinds) {
    && (forall id | id in attempts :: id in kind && attempts[id] == 1)
    && (forall id | id in ended :: id in kind && ended[id] == 1)
  }

  /** Every recorder addresses the line that was dialled. */
  ghost predicate Boxes(mailbox: map<CallId, Number>, kind: Kinds) {
    forall id | id in mailbox :: id in kind && Dialled(kind[id]) == Some(mailbox[id])
  }

  /** A recorder that answered an inbound leg is still on it, or is over. */
  ghost predicate Settled(recorders: set<CallId>, inLegs: map<CallId, Leg>, attempts: multiset<CallId>,
                          ended: multiset<CallId>, selfEnded: set<CallId>) {
    forall id | id in recorders ::
      && id in attempts
      && ((id in inLegs && inLegs[id].service.Recorder?) || id in ended || id in selfEnded)
  }

  ghost predicate Known(sent: set<CallId>, heard: set<CallId>, fed: set<CallId>, rang: set<CallId>,
                        recorders: set<CallId>, kind: Kinds) {
    && sent <= kind.Keys && heard <= kind.Keys && fed <= kind.Keys && rang <= kind.Keys
    && forall id | id in recorders :: id in kind && kind[id].Incoming?
  }

  ghost predicate SocketsOk(s: State) {
    && Listed(s.clients.v, s.userOf.v, s.gone.v)
    && Busied(s.callOf.v, s.userOf.v, s.gone.v, s.kind.v, s.offered.v)
    && Offers(s.offered.v, s.kind.v)
    && Asleep(s.pending.v, s.clients.v)
  }

  ghost predicate LocalOk(s: State) {
    && Rings(s.rings.v, s.kind.v, s.offered.v)
    && Queue(s.pending.v, s.kind.v, s.offered.v)
    && Services(s.svc.v, s.kind.v)
    && Phases(s.rings.v, s.pending.v, s.svc.v)
    && Unheard(s.rings.v, s.pending.v, s.svc.v, s.attempts.v, s.ended.v)
  }

  ghost predicate BridgeOk(s: State) {
    && Outbound(s.outLegs.v, s.readers.v, s.kind.v)
    && Owned(s.inLegs.v, s.streams.v, s.kind.v)
    && Staged(s.inLegs.v, s.offered.v, s.rang.v, s.attempts.v, s.ended.v, s.recorders.v)
    && Engaged(s.callOf.v, s.inLegs.v, s.kind.v)
    && QueuedLegs(s.pending.v, s.inLegs.v)
    && Candidates(s.inLegs.v, s.rang.v, s.heard.v, s.fed.v)
  }

  ghost predicate HistoryOk(s: State) {
    && Once(s.attempts.v, s.ended.v, s.kind.v)
    && Boxes(s.mailbox.v, s.kind.v)
    && Settled(s.recorders.v, s.inLegs.v, s.attempts.v, s.ended.v, s.selfEnded.v)
    && Known(s.sent.v.Keys, s.heard.v.Keys, s.fed.v.Keys, s.rang.v, s.recorders.v, s.kind.v)
  }

  ghost predicate Inv(s: State) {
    SocketsOk(s) && LocalOk(s) && BridgeOk(s) && HistoryOk(s)
  }

  // ---- Small steps ----

  lemma {:induction false} EndingKeeps(s: State, c: Sock, id: CallId, why: Reason)
    requires Inv(s)
    ensures var s' := End(s, c, id, why);
            && Inv(s') && s'.userOf == s.userOf && s'.callOf.v.Keys <= s.callOf.v.Keys
            && s'.inLegs == s.inLegs && s'.streams == s.streams
  {}

  lemma {:induction false} EndingOthersKeeps(s: State, c: Sock, id: CallId, why: Reason)
    requires Inv(s)
    ensures var s' := EndOthers(s, c, id, why); Inv(s') && s'.userOf == s.userOf && s'.callOf.v.Keys <= s.callOf.v.Keys
  {}

  lemma {:induction false} FreeingKeeps(s: State, callOf: map<Sock, CallId>)
    requires Inv(s) && callOf.Keys <= s.callOf.v.Keys && (forall c | c in callOf :: callOf[c] == s.callOf.v[c])
    ensures Inv(s.(callOf := Cell(callOf)))
  {}

  lemma {:induction false} TakingKeeps(s: State, id: CallId)
    requires Inv(s)
    ensures Inv(s.(rings := Cell(s.rings.v - {id})))
  {}

  lemma {:induction false} UnqueueingKeeps(s: State, pending: map<Number, Pending>)
    requires Inv(s) && pending.Keys <= s.pending.v.Keys && (forall n | n in pending :: pending[n] == s.pending.v[n])
    ensures Inv(s.(pending := Cell(pending)))
  {}

  lemma {:induction false} EndingServiceKeeps(s: State, id: CallId)
    requires Inv(s) && id in s.svc.v
    ensures Inv(EndService(s, id))
  {}

  /** A new call id is in none of the tables. */
  lemma {:induction false} FreshKeeps(s: State, id: CallId, k: Kind)
    requires Inv(s) && id !in s.kind.v
    ensures Inv(s.(kind := Cell(s.kind.v[id := k])))
    ensures id !in s.rings.v && id !in s.svc.v && id !in s.readers.v && id !in s.outLegs.v && id !in s.inLegs.v
    ensures id !in s.offered.v && id !in s.recorders.v && id !in s.rang.v && id !in s.heard.v
      && id !in s.fed.v && id !in s.sent.v
    ensures Unrecorded(s.attempts.v, s.ended.v, id) && Detached(s, id)
  {
    assert Detached(s, id);
    FreshLocal(s, id, k);
    FreshBridge(s, id, k);
  }

  lemma {:induction false} FreshLocal(s: State, id: CallId, k: Kind)
    requires SocketsOk(s) && LocalOk(s) && id !in s.kind.v
    ensures var s' := s.(kind := Cell(s.kind.v[id := k])); SocketsOk(s') && LocalOk(s')
  {}

  lemma {:induction false} FreshBridge(s: State, id: CallId, k: Kind)
    requires BridgeOk(s) && HistoryOk(s) && id !in s.kind.v && Detached(s, id)
    ensures var s' := s.(kind := Cell(s.kind.v[id := k])); BridgeOk(s') && HistoryOk(s')
  {}

  /** No socket is in the call, and it is not queued. */
  ghost predicate Detached(s: State, id: CallId) {
    && (forall c | c in s.callOf.v :: s.callOf.v[c] != id)
    && (forall n | n in s.pending.v :: s.pending.v[n].id != id)
  }

  lemma {:induction false} OnlineAlive(s: State, c: Sock)
    requires Inv(s) && Online(s, c)
    ensures c in s.userOf.v && c !in s.gone.v
  {
    var n := s.userOf.v[c];
    assert s.clients.v[n] !in s.gone.v;
  }

  // ---- Local calls ----

  /** A local call that is in no table and has not been recorded. */
  ghost predicate Loose(s: State, id: CallId, caller: Sock, box: Number) {
    && id in s.kind.v && s.kind.v[id] == Local(caller, box)
    && id !in s.rings.v && id !in s.svc.v && Unrecorded(s.attempts.v, s.ended.v, id)
    && (forall n | n in s.pending.v :: s.pending.v[n].id != id)
  }

  lemma {:induction false} RoutingLocalKeeps(s: State, caller: Sock, box: Number, id: CallId, vm: Voicemail)
    requires Inv(s) && Loose(s, id, caller, box)
    ensures Inv(RouteLocal(s, caller, box, id, vm))
  {
    AttemptKeeps(s, caller, box, id);
    if Routed(s, caller, vm) {
      OnlineAlive(s, caller);
      var s1 := s.(attempts := Cell(s.attempts.v + multiset{id}), mailbox := Cell(s.mailbox.v[id := box]));
      ServingKeeps(s1, RouteLocal(s, caller, box, id, vm), caller, id);
    }
  }

  lemma {:induction false} AttemptKeeps(s: State, caller: Sock, box: Number, id: CallId)
    requires Inv(s) && Loose(s, id, caller, box)
    ensures Inv(s.(attempts := Cell(s.attempts.v + multiset{id}), mailbox := Cell(s.mailbox.v[id := box])))
  {}

  /** A service takes over a call: local calls of its placer only. */
  lemma {:induction false} ServingKeeps(s: State, s': State, c: Sock, id: CallId)
    requires Inv(s) && c in s.userOf.v && c !in s.gone.v && id in s.kind.v && s.kind.v[id].Local?
      && s.kind.v[id].who == c
    requires id !in s.rings.v && s.ended.v[id] == 0 && forall n | n in s.pending.v :: s.pending.v[n].id != id
    requires s' == s.(svc := Cell(s.svc.v[id := c]), callOf := Cell(s.callOf.v[c := id]), told := s'.told)
    ensures Inv(s')
  {
    TakingOnKeeps(s, c, id);
    EnteringKeeps(s.(svc := Cell(s.svc.v[id := c])), s', c, id);
  }

  lemma {:induction false} TakingOnKeeps(s: State, c: Sock, id: CallId)
    requires Inv(s) && id in s.kind.v && s.kind.v[id].Local? && s.kind.v[id].who == c
    requires id !in s.rings.v && s.ended.v[id] == 0 && forall n | n in s.pending.v :: s.pending.v[n].id != id
    ensures Inv(s.(svc := Cell(s.svc.v[id := c])))
  {}

  lemma {:induction false} EnteringKeeps(s: State, s': State, c: Sock, id: CallId)
    requires Inv(s) && c in s.userOf.v && c !in s.gone.v && id in s.kind.v && Party(s.kind.v, s.offered.v, c, id)
    requires s.kind.v[id].Incoming? ==>
      id in s.inLegs.v && s.inLegs.v[id].service.NoService? && s.inLegs.v[id].callee == Some(c)
    requires s' == s.(callOf := Cell(s.callOf.v[c := id]), told := s'.told)
    ensures Inv(s')
  {}

  lemma {:induction false} RoutingLocalOrKeeps(s: State, r: Ring, id: CallId, vm: Voicemail, why: Reason)
    requires Inv(s) && Loose(s, id, r.caller, r.mailbox)
    ensures var s' := RouteLocalOr(s, r, id, vm, why);
            Inv(s') && s'.userOf == s.userOf && s'.callOf.v.Keys <= s.callOf.v.Keys + {r.caller}
  {
    hide Inv, End;
    RoutingLocalKeeps(s, r.caller, r.mailbox, id, vm);
    EndingKeeps(RouteLocal(s, r.caller, r.mailbox, id, vm), r.caller, id, why);
  }

  /** A ring that has just been taken is loose. */
  lemma {:induction false} TakenIsLoose(s: State, id: CallId)
    requires Inv(s) && id in s.rings.v
    ensures var s' := s.(rings := Cell(s.rings.v - {id}));
            Inv(s') && Loose(s', id, s.rings.v[id].caller, s.rings.v[id].mailbox)
  {
    TakingKeeps(s, id);
    forall n | n in s.pending.v ensures s.pending.v[n].id != id {
      assert s.pending.v[n].id !in s.offered.v;
    }
  }

  // ---- Inbound legs ----

  /** Taking an unanswered leg from its callee, or from the queue, and sending the caller to voicemail. */
  lemma {:induction false} RoutingInboundKeeps(s: State, leg: Leg, id: CallId, vm: Voicemail, m: PeerMsg)
    requires Inv(s) && Detached(s, id) && id in s.inLegs.v && s.inLegs.v[id].service.NoService?
    requires leg == s.inLegs.v[id].(timer := leg.timer, callee := None)
    ensures Inv(RouteInboundOr(s, leg, id, vm, m))
  {
    match vm
    case Works => RecordingKeeps(s, RouteInbound(s, leg, id), leg.(service := Recorder, answered := true), id);
    case Off => DroppingKeeps(s, RouteInboundOr(s, leg, id, vm, m), id);
    case Fails =>
      var s1 := s.(inLegs := Cell(s.inLegs.v - {id}), sent := Cell(Put(s.sent.v, id, [m])));
      DroppingKeeps(s, s1, id);
      WritingOffKeeps(s1, id);
  }

  ghost predicate Records(s: State, s': State, leg: Leg, id: CallId) {
    && Detached(s, id) && id in s.inLegs.v && s.inLegs.v[id].service.NoService?
    && leg == s.inLegs.v[id].(timer := leg.timer, callee := None, service := Recorder, answered := true)
    && s' == s.(attempts := Cell(s.attempts.v + multiset{id}), mailbox := Cell(s.mailbox.v[id := leg.calleeNum]),
                inLegs := Cell(s.inLegs.v[id := leg]), recorders := Cell(s.recorders.v + {id}),
                sent := Cell(Put(s.sent.v, id, [Accept])), fed := Cell(Put(s.fed.v, id, leg.candidates)))
  }

  lemma {:induction false} RecordingKeeps(s: State, s': State, leg: Leg, id: CallId)
    requires Inv(s) && Records(s, s', leg, id)
    ensures Inv(s')
  {
    RecordingLocal(s, s', leg, id);
    RecordingBridge(s, s', leg, id);
    RecordingHistory(s, s', leg, id);
    hide SocketsOk, LocalOk, BridgeOk, HistoryOk;
  }

  lemma {:induction false} RecordingLocal(s: State, s': State, leg: Leg, id: CallId)
    requires Inv(s) && Records(s, s', leg, id)
    ensures SocketsOk(s') && LocalOk(s')
  {}

  lemma {:induction false} RecordingBridge(s: State, s': State, leg: Leg, id: CallId)
    requires BridgeOk(s) && Records(s, s', leg, id)
    ensures BridgeOk(s')
  {
    RecordedLegs(s.inLegs.v, s.offered.v, s.rang.v, s.attempts.v, s.ended.v, s.recorders.v, s.heard.v, s.fed.v, leg,
                 id);
  }

  lemma {:induction false} RecordingHistory(s: State, s': State, leg: Leg, id: CallId)
    requires BridgeOk(s) && HistoryOk(s) && Records(s, s', leg, id)
    ensures HistoryOk(s')
  {}

  lemma {:induction false} RecordedLegs(inLegs: map<CallId, Leg>, offered: map<CallId, Sock>, rang: set<CallId>,
                     attempts: multiset<CallId>, ended: multiset<CallId>, recorders: set<CallId>,
                     heard: map<CallId, seq<Candidate>>, fed: map<CallId, seq<Candidate>>, leg: Leg, id: CallId)
    requires Staged(inLegs, offered, rang, attempts, ended, recorders) && Candidates(inLegs, rang, heard, fed)
    requires id in inLegs && inLegs[id].service.NoService?
    requires leg == inLegs[id].(timer := leg.timer, callee := None, service := Recorder, answered := true)
    ensures Staged(inLegs[id := leg], offered, rang, attempts + multiset{id}, ended, recorders + {id})
    ensures Candidates(inLegs[id := leg], rang, heard, Put(fed, id, leg.candidates))
  {}

  lemma {:induction false} DroppingKeeps(s: State, s': State, id: CallId)
    requires Inv(s) && Detached(s, id)
    requires id in s.inLegs.v ==> !s.inLegs.v[id].service.Recorder?
    requires s' == s.(inLegs := Cell(s.inLegs.v - {id}), sent := s'.sent) && s'.sent.v.Keys <= s.sent.v.Keys + {id}
      && id in s.kind.v
    ensures Inv(s')
  {}

  lemma {:induction false} WritingOffKeeps(s: State, id: CallId)
    requires Inv(s) && id in s.kind.v && s.kind.v[id].Incoming? && id !in s.inLegs.v
      && Unrecorded(s.attempts.v, s.ended.v, id)
    ensures Inv(s.(attempts := Cell(s.attempts.v + multiset{id}), mailbox := Cell(s.mailbox.v[id := s.kind.v[id].line]),
                   ended := Cell(s.ended.v + multiset{id})))
  {}

  // ---- Registration and disconnection ----

  lemma {:induction false} RegisterKeeps(s: State, c: Sock, n: Number)
    requires Inv(s) && c !in s.gone.v && (c in s.userOf.v ==> s.userOf.v[c] == n)
    ensures Inv(Register(s, c, n))
  {
    var s0 := s.(pending := Cell(s.pending.v - {n}));
    var s1 := s.(clients := Cell(s.clients.v[n := c]), userOf := Cell(s.userOf.v[c := n]),
                 pending := Cell(s.pending.v - {n}),
                 told := Cell(s.told.v + multiset{(c, ClientMsg.Registered)}));
    UnqueueingKeeps(s, s0.pending.v);
    ListingKeeps(s0, s1, c, n);
    if n in s.pending.v {
      QueuedFacts(s, n);
      DeliverKeeps(s1, n, s.pending.v[n], c);
    }
  }

  lemma {:induction false} ListingKeeps(s: State, s': State, c: Sock, n: Number)
    requires Inv(s) && c !in s.gone.v && (c in s.userOf.v ==> s.userOf.v[c] == n) && n !in s.pending.v
    requires s' == s.(clients := Cell(s.clients.v[n := c]), userOf := Cell(s.userOf.v[c := n]), told := s'.told)
    ensures Inv(s')
  {}

  /** What a queued call still is. */
  lemma {:induction false} QueuedFacts(s: State, n: Number)
    requires Inv(s) && n in s.pending.v
    ensures var p := s.pending.v[n];
            && p.id in s.kind.v && p.id !in s.offered.v && p.id !in s.rings.v && p.id !in s.svc.v
            && (forall m | m in s.pending.v && m != n :: s.pending.v[m].id != p.id)
            && (p.Waiting? ==> s.kind.v[p.id] == Local(p.caller, n) && Unrecorded(s.attempts.v, s.ended.v, p.id))
            && (p.Remote? ==>
                  && p.id in s.inLegs.v && s.inLegs.v[p.id].callee.None? && s.inLegs.v[p.id].service.NoService?
                  && !s.inLegs.v[p.id].answered && s.inLegs.v[p.id].calleeNum == n && s.kind.v[p.id].Incoming?
                  && forall c | c in s.callOf.v :: s.callOf.v[c] != p.id)
  {}

  lemma {:induction false} DeliverKeeps(s: State, n: Number, p: Pending, c: Sock)
    requires Inv(s) && c in s.userOf.v && c !in s.gone.v && p.id in s.kind.v && p.id !in s.offered.v
    requires forall m | m in s.pending.v :: s.pending.v[m].id != p.id
    requires p.Waiting? ==> s.kind.v[p.id] == Local(p.caller, n)
    requires p.Remote? ==> p.id in s.inLegs.v && s.inLegs.v[p.id].callee.None? && s.inLegs.v[p.id].service.NoService?
    ensures Inv(Deliver(s, p, c))
  {
    var s' := Deliver(s, p, c);
    match p
    case Remote(id) =>
      hide Inv;
      var leg := s.inLegs.v[id].(callee := Some(c));
      var s1 := s.(inLegs := Cell(s.inLegs.v[id := leg]), offered := Cell(s.offered.v[id := c]));
      OfferingLegKeeps(s, s1, leg, id, c);
      EnteringKeeps(s1, s', c, id);
    case Waiting(id, caller) =>
      hide Inv;
      if Online(s, caller) {
        OnlineAlive(s, caller);
        OfferingKeeps(s, id, c);
        var s1 := s.(offered := Cell(s.offered.v[id := c]));
        var s2 := s1.(callOf := Cell(s1.callOf.v[caller := id]));
        assert id !in s.inLegs.v by { LocalHasNoLeg(s, id); }
        EnteringKeeps(s1, s2, caller, id);
        EnteringKeeps(s2, s', c, id);
      }
  }

  lemma {:induction false} LocalHasNoLeg(s: State, id: CallId)
    requires Inv(s) && id in s.kind.v && s.kind.v[id].Local?
    ensures id !in s.inLegs.v
  {}

  lemma {:induction false} OfferingKeeps(s: State, id: CallId, c: Sock)
    requires Inv(s) && id in s.kind.v && s.kind.v[id].Local? && id !in s.offered.v
    requires forall n | n in s.pending.v :: s.pending.v[n].id != id
    ensures Inv(s.(offered := Cell(s.offered.v[id := c])))
  {}

  lemma {:induction false} OfferingLegKeeps(s: State, s': State, leg: Leg, id: CallId, c: Sock)
    requires Inv(s) && id in s.inLegs.v && s.inLegs.v[id].callee.None? && s.inLegs.v[id].service.NoService?
    requires leg == s.inLegs.v[id].(callee := Some(c)) && forall n | n in s.pending.v :: s.pending.v[n].id != id
    requires s' == s.(inLegs := Cell(s.inLegs.v[id := leg]), offered := Cell(s.offered.v[id := c]))
    ensures Inv(s')
  {
    OfferedLocal(s, id, c);
    OfferedLeg(s, leg, id, c);
  }

  lemma {:induction false} OfferedLocal(s: State, id: CallId, c: Sock)
    requires SocketsOk(s) && LocalOk(s) && id in s.kind.v && !s.kind.v[id].Outgoing? && id !in s.offered.v
    requires forall n | n in s.pending.v :: s.pending.v[n].id != id
    ensures var s' := s.(offered := Cell(s.offered.v[id := c])); SocketsOk(s') && LocalOk(s')
  {}

  lemma {:induction false} OfferedLeg(s: State, leg: Leg, id: CallId, c: Sock)
    requires BridgeOk(s) && id in s.inLegs.v && s.inLegs.v[id].callee.None? && s.inLegs.v[id].service.NoService?
    requires leg == s.inLegs.v[id].(callee := Some(c)) && forall n | n in s.pending.v :: s.pending.v[n].id != id
    ensures BridgeOk(s.(inLegs := Cell(s.inLegs.v[id := leg]), offered := Cell(s.offered.v[id := c])))
  {}

  lemma {:induction false} DisconnectKeeps(s: State, c: Sock, vm: Voicemail)
    requires Inv(s)
    ensures Inv(Disconnect(s, c, vm))
  {
    if c in s.callOf.v {
      var s1 := s.(callOf := Cell(s.callOf.v - {c}));
      FreeingKeeps(s, s1.callOf.v);
      LegOf(s, c);
      LeaveCallKeeps(s1, c, s.callOf.v[c], vm);
      UnlistKeeps(LeaveCall(s1, c, s.callOf.v[c], vm), c);
    } else {
      UnlistKeeps(s, c);
    }
  }

  lemma {:induction false} UnlistKeeps(s: State, c: Sock)
    requires Inv(s) && c !in s.callOf.v
    ensures c in s.userOf.v ==> Inv(Unlist(s, c, s.userOf.v[c]))
    ensures c !in s.userOf.v ==> Inv(s.(gone := Cell(s.gone.v + {c})))
  {}

  /** An inbound call whose callee has just let go of it. */
  ghost predicate Unheld(s: State, id: CallId) {
    id in s.inLegs.v ==> s.inLegs.v[id].service.NoService? && forall x | x in s.callOf.v :: s.callOf.v[x] != id
  }

  lemma {:induction false} LeaveCallKeeps(s: State, c: Sock, id: CallId, vm: Voicemail)
    requires Inv(s) && c !in s.callOf.v && id in s.kind.v && Unheld(s, id)
    ensures var s' := LeaveCall(s, c, id, vm); Inv(s') && s'.userOf == s.userOf && c !in s'.callOf.v
  {
    hide Inv, CloseLeg, LeaveRing, LeaveService, EndOthers;
    CloseLegKeeps(s, c, id, Disconnected);
    var s1 := CloseLeg(s, c, id, Disconnected);
    var s2 := s1.(pending := Cell(Unqueued(s1.pending.v, id)));
    UnqueueingKeeps(s1, s2.pending.v);
    LeaveRingKeeps(s2, c, id, vm);
    var s3 := LeaveRing(s2, c, id, vm);
    LeaveServiceKeeps(s3, c, id);
    EndingOthersKeeps(LeaveService(s3, c, id), c, id, Disconnected);
  }

  lemma {:induction false} CloseLegKeeps(s: State, c: Sock, id: CallId, why: Reason)
    requires Inv(s) && id in s.kind.v && Unheld(s, id)
    ensures var s' := CloseLeg(s, c, id, why); Inv(s') && s'.userOf == s.userOf && s'.callOf == s.callOf
  {
    if id !in s.outLegs.v && OnLeg(s, c, id) {
      DroppingKeeps(s, CloseLeg(s, c, id, why), id);
    }
  }

  lemma {:induction false} LeaveServiceKeeps(s: State, c: Sock, id: CallId)
    requires Inv(s)
    ensures var s' := LeaveService(s, c, id); Inv(s') && s'.userOf == s.userOf && s'.callOf == s.callOf
  {
    hide Inv;
    if id in s.svc.v {
      EndingServiceKeeps(s, id);
    }
  }

  lemma {:induction false} RingFacts(s: State, id: CallId)
    requires Inv(s) && id in s.rings.v
    ensures s.rings.v[id].caller != s.rings.v[id].callee
  {}

  lemma {:induction false} LeaveRingKeeps(s: State, c: Sock, id: CallId, vm: Voicemail)
    requires Inv(s) && c !in s.callOf.v
    ensures var s' := LeaveRing(s, c, id, vm); Inv(s') && s'.userOf == s.userOf && c !in s'.callOf.v
  {
    hide Inv, Loose, RouteLocalOr, RouteLocal, Routed, Online, End;
    if id in s.rings.v {
      TakenIsLoose(s, id);
      var s1 := s.(rings := Cell(s.rings.v - {id}));
      assert s.rings.v[id].caller != s.rings.v[id].callee by { RingFacts(s, id); }
      RoutingLocalOrKeeps(s1, s.rings.v[id], id, vm, Disconnected);
      EndingKeeps(s1, s.rings.v[id].callee, id, Disconnected);
    }
  }

  // ---- Placing calls ----

  lemma {:induction false} CallKeeps(s: State, c: Sock, n: Number, id: CallId, id2: CallId, line: Line, vm: Voicemail)
    requires Inv(s) && c !in s.gone.v && id !in s.kind.v && id2 !in s.kind.v && id != id2
    requires n in s.clients.v ==> s.clients.v[n] != c
    ensures Inv(Call(s, c, n, id, id2, line, vm))
  {
    hide Inv, RecordOrFail;
    if c !in s.userOf.v {
      TellingKeeps(s, Call(s, c, n, id, id2, line, vm));
    } else if n in s.clients.v {
      CallOnlineKeeps(s, Call(s, c, n, id, id2, line, vm), c, n, id);
    } else {
      CallOfflineKeeps(s, c, n, id, id2, line, vm);
    }
  }

  lemma {:induction false} TellingKeeps(s: State, s': State)
    requires Inv(s) && s' == s.(told := s'.told)
    ensures Inv(s')
  {}

  lemma {:induction false} CallOnlineKeeps(s: State, s': State, c: Sock, n: Number, id: CallId)
    requires Inv(s) && c !in s.gone.v && c in s.userOf.v && id !in s.kind.v && n in s.clients.v && s.clients.v[n] != c
    requires s' == s.(kind := Cell(s.kind.v[id := Local(c, n)]), offered := Cell(s.offered.v[id := s.clients.v[n]]),
                      callOf := Cell(s.callOf.v[c := id][s.clients.v[n] := id]),
                      rings := Cell(s.rings.v[id := Ring(c, s.clients.v[n], n)]), told := s'.told)
    ensures Inv(s')
  {
    hide Inv;
    var b := s.clients.v[n];
    ListedAlive(s, n);
    FreshKeeps(s, id, Local(c, n));
    var s1 := s.(kind := Cell(s.kind.v[id := Local(c, n)]));
    OfferingKeeps(s1, id, b);
    var s2 := s1.(offered := Cell(s1.offered.v[id := b]));
    var s3 := s2.(callOf := Cell(s2.callOf.v[c := id]));
    EnteringKeeps(s2, s3, c, id);
    var s4 := s3.(callOf := Cell(s3.callOf.v[b := id]));
    EnteringKeeps(s3, s4, b, id);
    RingingKeeps(s4, s', id, Ring(c, b, n));
  }

  lemma {:induction false} ListedAlive(s: State, n: Number)
    requires Inv(s) && n in s.clients.v
    ensures s.clients.v[n] in s.userOf.v && s.clients.v[n] !in s.gone.v
  {}

  lemma {:induction false} RingingKeeps(s: State, s': State, id: CallId, r: Ring)
    requires Inv(s) && Loose(s, id, r.caller, r.mailbox) && r.caller != r.callee
    requires id in s.offered.v && s.offered.v[id] == r.callee
    requires s' == s.(rings := Cell(s.rings.v[id := r]), told := s'.told)
    ensures Inv(s')
  {}

  lemma {:induction false} CallOfflineKeeps(s: State, c: Sock, n: Number, id: CallId, id2: CallId, line: Line,
                                            vm: Voicemail)
    requires Inv(s) && c !in s.gone.v && c in s.userOf.v && n !in s.clients.v
    requires id !in s.kind.v && id2 !in s.kind.v && id != id2
    ensures Inv(Call(s, c, n, id, id2, line, vm))
  {
    hide Inv, RecordOrFail, Loose;
    var s' := Call(s, c, n, id, id2, line, vm);
    match line
    case Unknown => TellingKeeps(s, s');
    case NoPush =>
      FreshCall(s, c, n, id);
      RecordOrFailKeeps(s.(kind := Cell(s.kind.v[id := Local(c, n)])), c, n, id, vm);
    case Push(true) => PushedKeeps(s, s', c, n, id);
    case Push(false) => UnpushedKeeps(s, c, n, id, id2, vm);
  }

  lemma {:induction false} FreshCall(s: State, c: Sock, n: Number, id: CallId)
    requires Inv(s) && id !in s.kind.v
    ensures var s' := s.(kind := Cell(s.kind.v[id := Local(c, n)])); Inv(s') && Loose(s', id, c, n)
    ensures id !in s.offered.v && id !in s.inLegs.v && Detached(s, id)
  {
    hide Inv;
    FreshKeeps(s, id, Local(c, n));
  }

  lemma {:induction false} PushedKeeps(s: State, s': State, c: Sock, n: Number, id: CallId)
    requires Inv(s) && c !in s.gone.v && c in s.userOf.v && n !in s.clients.v && id !in s.kind.v
    requires s' == s.(kind := Cell(s.kind.v[id := Local(c, n)]), pending := Cell(s.pending.v[n := Waiting(id, c)]),
                      callOf := Cell(s.callOf.v[c := id]), told := s'.told)
    ensures Inv(s')
  {
    hide Inv;
    FreshCall(s, c, n, id);
    var s1 := s.(kind := Cell(s.kind.v[id := Local(c, n)]));
    var s2 := s1.(callOf := Cell(s1.callOf.v[c := id]));
    EnteringKeeps(s1, s2, c, id);
    QueueingKeeps(s2, s', n, id, c);
  }

  lemma {:induction false} UnpushedKeeps(s: State, c: Sock, n: Number, id: CallId, id2: CallId, vm: Voicemail)
    requires Inv(s) && id !in s.kind.v && id2 !in s.kind.v && id != id2
    ensures Inv(RecordOrFail(s.(kind := Cell(s.kind.v[id := Local(c, n)][id2 := Local(c, n)]),
                                pending := Cell(s.pending.v - {n}),
                                callOf := Cell(s.callOf.v - {c})), c, n, id2, vm))
  {
    hide Inv, RecordOrFail;
    UnqueueingKeeps(s, s.pending.v - {n});
    var s1 := s.(pending := Cell(s.pending.v - {n}));
    FreeingKeeps(s1, s1.callOf.v - {c});
    var s2 := s1.(callOf := Cell(s1.callOf.v - {c}));
    FreshCall(s2, c, n, id);
    var s3 := s2.(kind := Cell(s2.kind.v[id := Local(c, n)]));
    FreshCall(s3, c, n, id2);
    RecordOrFailKeeps(s3.(kind := Cell(s3.kind.v[id2 := Local(c, n)])), c, n, id2, vm);
  }

  lemma {:induction false} RecordOrFailKeeps(s: State, c: Sock, n: Number, id: CallId, vm: Voicemail)
    requires Inv(s) && Loose(s, id, c, n)
    ensures Inv(RecordOrFail(s, c, n, id, vm))
  {
    hide Inv, RouteLocal;
    RoutingLocalKeeps(s, c, n, id, vm);
    var s1 := RouteLocal(s, c, n, id, vm);
    TellingKeeps(s1, Told(s1, c, Failed(404)));
  }

  lemma {:induction false} QueueingKeeps(s: State, s': State, n: Number, id: CallId, c: Sock)
    requires Inv(s) && Loose(s, id, c, n) && id !in s.offered.v && n !in s.clients.v
    requires s' == s.(pending := Cell(s.pending.v[n := Waiting(id, c)]), told := s'.told)
    ensures Inv(s')
  {}

  lemma {:induction false} ServiceCallKeeps(s: State, c: Sock, id: CallId, accepts: bool)
    requires Inv(s) && c !in s.gone.v && id !in s.kind.v
    ensures Inv(ServiceCall(s, c, id, accepts))
  {
    hide Inv;
    var s' := ServiceCall(s, c, id, accepts);
    if c in s.userOf.v && accepts {
      FreshKeeps(s, id, Local(c, 0));
      ServingKeeps(s.(kind := Cell(s.kind.v[id := Local(c, 0)])), s', c, id);
    } else {
      TellingKeeps(s, s');
    }
  }

  lemma {:induction false} PlaceCrossKeeps(s: State, c: Sock, id: CallId, to: Number, reachable: bool)
    requires Inv(s) && c !in s.gone.v && id !in s.kind.v
    ensures Inv(PlaceCross(s, c, id, to, reachable))
  {
    hide Inv;
    var s' := PlaceCross(s, c, id, to, reachable);
    if c in s.userOf.v && reachable {
      FreshKeeps(s, id, Outgoing(c));
      var s1 := s.(kind := Cell(s.kind.v[id := Outgoing(c)]));
      var s2 := s1.(callOf := Cell(s1.callOf.v[c := id]));
      EnteringKeeps(s1, s2, c, id);
      ReadingKeeps(s2, s', c, id);
    } else {
      TellingKeeps(s, s');
    }
  }

  lemma {:induction false} ReadingKeeps(s: State, s': State, c: Sock, id: CallId)
    requires Inv(s) && id in s.kind.v && s.kind.v[id] == Outgoing(c) && id !in s.inLegs.v
    requires s' == s.(sent := s'.sent, outLegs := Cell(s.outLegs.v + {id}), readers := Cell(s.readers.v[id := c]))
    requires s'.sent.v.Keys <= s.sent.v.Keys + {id}
    ensures Inv(s')
  {}

  // ---- Messages from local sockets ----

  lemma {:induction false} AnswerKeeps(s: State, c: Sock, id: CallId, pick: Sock)
    requires Inv(s) && id in s.offered.v && s.offered.v[id] == c
    ensures Inv(Answer(s, c, id, pick))
  {
    hide Inv;
    TakingKeeps(s, id);
    var s1 := s.(rings := Cell(s.rings.v - {id}));
    var s' := Answer(s, c, id, pick);
    if c !in s.userOf.v {
      TellingKeeps(s, s');
    } else if id in s.inLegs.v {
      var leg := s.inLegs.v[id];
      AnsweringKeeps(s1, s', leg.(timer := false, answered := true,
                                  callee := if leg.callee.None? then Some(c) else leg.callee), id);
    } else {
      TellingKeeps(s1, s');
    }
  }

  lemma {:induction false} AnsweringKeeps(s: State, s': State, leg: Leg, id: CallId)
    requires Inv(s) && id in s.inLegs.v && id in s.offered.v
    requires leg == s.inLegs.v[id].(timer := false, answered := true, callee := leg.callee)
    requires if s.inLegs.v[id].callee.None? then leg.callee == Some(s.offered.v[id])
      else leg.callee == s.inLegs.v[id].callee
    requires s' == s.(inLegs := Cell(s.inLegs.v[id := leg]), sent := s'.sent) && s'.sent.v.Keys <= s.sent.v.Keys + {id}
    ensures Inv(s')
  {}

  lemma {:induction false} HangupKeeps(s: State, c: Sock, vm: Voicemail)
    requires Inv(s)
    ensures Inv(Hangup(s, c, vm))
  {
    hide Inv, HangupIn;
    if c in s.userOf.v && c in s.callOf.v {
      var s1 := s.(callOf := Cell(s.callOf.v - {c}));
      FreeingKeeps(s, s1.callOf.v);
      LegOf(s, c);
      HangupInKeeps(s1, c, s.callOf.v[c], vm);
    }
  }

  /** When c is in an inbound call it is alone there, and no service has taken over. */
  lemma {:induction false} LegOf(s: State, c: Sock)
    requires Inv(s) && c in s.callOf.v
    ensures s.callOf.v[c] in s.kind.v
    ensures var id := s.callOf.v[c];
            id in s.inLegs.v ==>
              && s.inLegs.v[id].service.NoService? && s.inLegs.v[id].callee == Some(c)
              && (forall x | x in s.callOf.v && x != c :: s.callOf.v[x] != id)
              && (forall n | n in s.pending.v :: s.pending.v[n].id != id)
  {}

  lemma {:induction false} HangupInKeeps(s: State, c: Sock, id: CallId, vm: Voicemail)
    requires Inv(s) && c !in s.callOf.v && id in s.kind.v
    requires id in s.inLegs.v ==> s.inLegs.v[id].service.NoService? && Detached(s, id)
    ensures Inv(HangupIn(s, c, id, vm))
  {
    hide Inv, Loose, RouteLocalOr, RouteInboundOr, End, CloseLeg, EndOthers, EndService;
    if id in s.rings.v {
      TakenIsLoose(s, id);
      var s1 := s.(rings := Cell(s.rings.v - {id}));
      RoutingLocalOrKeeps(s1, s.rings.v[id], id, vm, Declined);
      EndingKeeps(s1, s.rings.v[id].callee, id, HungUp);
    } else if Declinable(s, c, id) {
      RoutingInboundKeeps(s, Quiet(s.inLegs.v[id]), id, vm, Bye(Declined));
      assert DeclineInbound(s, c, id, vm) == RouteInboundOr(s, Quiet(s.inLegs.v[id]), id, vm, Bye(Declined));
    } else if OnLeg(s, c, id) {
      CloseLegKeeps(s, c, id, HungUp);
    } else if Queued(s.pending.v, id) {
      UnqueueingKeeps(s, Unqueued(s.pending.v, id));
    } else if id in s.svc.v {
      EndingServiceKeeps(s, id);
    } else {
      EndingOthersKeeps(s, c, id, HungUp);
    }
  }

  lemma {:induction false} DeclineKeeps(s: State, c: Sock, asked: Option<CallId>, vm: Voicemail)
    requires Inv(s)
    ensures Inv(Decline(s, c, asked, vm))
  {
    hide Inv, Loose, RouteLocalOr, Hangup;
    if c in s.userOf.v && (asked.Some? || c in s.callOf.v) {
      var id := if asked.Some? then asked.value else s.callOf.v[c];
      var s1 := s.(rings := Cell(s.rings.v - {id}));
      TakingKeeps(s, id);
      if id in s.rings.v && s.rings.v[id].callee == c {
        TakenIsLoose(s, id);
        FreeingKeeps(s1, Freed(s1.callOf.v, c, id));
        var s2 := s1.(callOf := Cell(Freed(s1.callOf.v, c, id)));
        StillLoose(s1, s2, id, s.rings.v[id].caller, s.rings.v[id].mailbox);
        RoutingLocalOrKeeps(s2, s.rings.v[id], id, vm, Declined);
      } else {
        HangupKeeps(s1, c, vm);
      }
    }
  }

  lemma {:induction false} StillLoose(s: State, s': State, id: CallId, caller: Sock, box: Number)
    requires Loose(s, id, caller, box) && s' == s.(callOf := s'.callOf, told := s'.told)
    ensures Loose(s', id, caller, box)
  {}

  lemma {:induction false} LocalIceKeeps(s: State, c: Sock, id: CallId, cand: Candidate)
    requires Inv(s)
    ensures Inv(LocalIce(s, c, id, cand))
  {
    hide Inv, OnLeg, Others, Put;
    if id in s.svc.v {
      FeedingKeeps(s, id, [cand]);
    } else if OnLeg(s, c, id) {
      OnLegKnown(s, c, id);
      SendingKeeps(s, id, [Ice(cand)]);
    } else {
      TellingKeeps(s, LocalIce(s, c, id, cand));
    }
  }

  lemma {:induction false} FeedingKeeps(s: State, id: CallId, cs: seq<Candidate>)
    requires Inv(s) && id in s.svc.v
    ensures Inv(s.(fed := Cell(Put(s.fed.v, id, cs))))
  {}

  lemma {:induction false} OnLegKnown(s: State, c: Sock, id: CallId)
    requires Inv(s) && OnLeg(s, c, id)
    ensures id in s.kind.v
  {}

  lemma {:induction false} SendingKeeps(s: State, id: CallId, ms: seq<PeerMsg>)
    requires Inv(s) && id in s.kind.v
    ensures Inv(s.(sent := Cell(Put(s.sent.v, id, ms))))
  {}

  // ---- Timers and self-ending recorders ----

  lemma {:induction false} RingTimeoutKeeps(s: State, id: CallId, vm: Voicemail)
    requires Inv(s)
    ensures Inv(RingTimeout(s, id, vm))
  {
    hide Inv, Loose, RouteLocalOr, Online;
    if id in s.rings.v {
      var r := s.rings.v[id];
      TakenIsLoose(s, id);
      var s1 := s.(rings := Cell(s.rings.v - {id}));
      EndingKeeps(s1, r.callee, id, NoAnswer);
      var s2 := End(s1, r.callee, id, NoAnswer);
      StillLoose(s1, s2, id, r.caller, r.mailbox);
      RoutingLocalOrKeeps(s2, r, id, vm, NoAnswer);
    }
  }

  lemma {:induction false} ExpireKeeps(s: State, n: Number, vm: Voicemail)
    requires Inv(s)
    ensures Inv(Expire(s, n, vm))
  {
    hide Inv, RouteLocalOr, RouteInboundOr, Online;
    if n in s.pending.v {
      QueuedFacts(s, n);
      var s1 := s.(pending := Cell(s.pending.v - {n}));
      UnqueueingKeeps(s, s1.pending.v);
      match s.pending.v[n]
      case Remote(id) => RoutingInboundKeeps(s1, s1.inLegs.v[id], id, vm, Bye(NoAnswer));
      case Waiting(id, caller) => RoutingLocalOrKeeps(s1, Ring(caller, caller, n), id, vm, NoAnswer);
    }
  }

  lemma {:induction false} InboundTimeoutKeeps(s: State, id: CallId, vm: Voicemail)
    requires Inv(s)
    ensures Inv(InboundTimeout(s, id, vm))
  {
    hide Inv, RouteInboundOr;
    if id in s.inLegs.v && s.inLegs.v[id].callee.Some? && s.inLegs.v[id].service.NoService? {
      var c := s.inLegs.v[id].callee.value;
      EndingKeeps(s, c, id, NoAnswer);
      CalleeAlone(s, id);
      RoutingInboundKeeps(End(s, c, id, NoAnswer), Quiet(s.inLegs.v[id]), id, vm, Bye(NoAnswer));
    }
  }

  lemma {:induction false} CalleeAlone(s: State, id: CallId)
    requires Inv(s) && id in s.inLegs.v && s.inLegs.v[id].callee.Some?
    ensures id in s.kind.v
    ensures forall n | n in s.pending.v :: s.pending.v[n].id != id
    ensures forall x | x in s.callOf.v && s.callOf.v[x] == id :: x == s.inLegs.v[id].callee.value
  {}

  lemma {:induction false} InboundSelfEndKeeps(s: State, id: CallId)
    requires Inv(s) && id in s.recorders.v
    ensures Inv(InboundSelfEnd(s, id))
  {}

  lemma {:induction false} LocalSelfEndKeeps(s: State, c: Sock, id: CallId)
    requires Inv(s)
    ensures Inv(LocalSelfEnd(s, c, id))
  {
    hide Inv;
    var s0 := s.(selfEnded := Cell(s.selfEnded.v + {id}));
    SelfEndedKeeps(s, id);
    EndingKeeps(s0, c, id, VoicemailComplete);
    if id in s.svc.v {
      EndingServiceKeeps(End(s0, c, id, VoicemailComplete), id);
    }
  }

  lemma {:induction false} SelfEndedKeeps(s: State, id: CallId)
    requires Inv(s)
    ensures Inv(s.(selfEnded := Cell(s.selfEnded.v + {id})))
  {}

  // ---- Bridge streams ----

  lemma {:induction false} StreamOpenKeeps(s: State, st: Stream)
    requires Inv(s) && st !in s.streams.v
    ensures Inv(StreamOpen(s, st))
  {}

  lemma {:induction false} InInviteKeeps(s: State, st: Stream, id: CallId, n: Number, host: Hosting, line: Line,
                                         vm: Voicemail)
    requires Inv(s) && st in s.streams.v && id !in s.kind.v
    ensures Inv(InInvite(s, st, id, n, host, line, vm))
  {
    hide Inv, RouteInbound, RouteInboundOr, Refuse;
    FreshInvite(s, id, n, st);
    var s1 := s.(kind := Cell(s.kind.v[id := Incoming(n, st)]));
    match host
    case HostedHere(false, _) => RefusingKeeps(s1, id, ServiceError);
    case HostedHere(true, false) =>
    case HostedHere(true, true) => HostingKeeps(s1, InInvite(s, st, id, n, host, line, vm), st, id, n);
    case NotHosted =>
      if n in s.clients.v {
        InvitingKeeps(s1, InInvite(s, st, id, n, host, line, vm), st, id, n);
      } else {
        match line
        case Unknown => RefusingKeeps(s1, id, Unavailable);
        case NoPush => VoicemailOnlyKeeps(s1, Leg(st, n, None, NoService, false, false, []), id, vm);
        case Push(true) => WakingKeeps(s1, InInvite(s, st, id, n, host, line, vm), st, id, n);
        case Push(false) =>
          UnqueueingKeeps(s1, s1.pending.v - {n});
          RefusingKeeps(s1.(pending := Cell(s1.pending.v - {n})), id, Unavailable);
      }
  }

  lemma {:induction false} FreshInvite(s: State, id: CallId, n: Number, st: Stream)
    requires Inv(s) && id !in s.kind.v
    ensures var s' := s.(kind := Cell(s.kind.v[id := Incoming(n, st)])); Inv(s') && Unseen(s', id)
  {
    hide Inv;
    FreshKeeps(s, id, Incoming(n, st));
  }

  /** A leg as inboundIncoming creates it. */
  function Blank(st: Stream, n: Number): Leg {
    Leg(st, n, None, NoService, false, false, [])
  }

  lemma {:induction false} HostingKeeps(s: State, s': State, st: Stream, id: CallId, n: Number)
    requires Inv(s) && st in s.streams.v && Unseen(s, id) && id in s.kind.v && s.kind.v[id] == Incoming(n, st)
    requires s' == s.(inLegs := Cell(s.inLegs.v[id := Blank(st, n).(service := Hosted)]),
                      streams := Cell(Put(s.streams.v, st, [id])), sent := Cell(Put(s.sent.v, id, [Accept])))
    ensures Inv(s')
  {
    hide Inv;
    NewLegKeeps(s, s', Blank(st, n).(service := Hosted), id);
  }

  lemma {:induction false} InvitingKeeps(s: State, s': State, st: Stream, id: CallId, n: Number)
    requires Inv(s) && st in s.streams.v && Unseen(s, id) && id in s.kind.v
      && s.kind.v[id] == Incoming(n, st) && n in s.clients.v
    requires var b := s.clients.v[n];
             s' == s.(inLegs := Cell(s.inLegs.v[id := Blank(st, n).(callee := Some(b), timer := true)]),
                      rang := Cell(s.rang.v + {id}),
                      callOf := Cell(s.callOf.v[b := id]), offered := Cell(s.offered.v[id := b]), told := s'.told,
                      streams := Cell(Put(s.streams.v, st, [id])), sent := Cell(Put(s.sent.v, id, [Alerting])))
    ensures Inv(s')
  {
    hide Inv;
    var b := s.clients.v[n];
    ListedAlive(s, n);
    var s1 := s'.(callOf := s.callOf);
    NewLegKeeps(s, s1, Blank(st, n).(callee := Some(b), timer := true), id);
    EnteringKeeps(s1, s', b, id);
  }

  lemma {:induction false} WakingKeeps(s: State, s': State, st: Stream, id: CallId, n: Number)
    requires Inv(s) && st in s.streams.v && Unseen(s, id) && id in s.kind.v
      && s.kind.v[id] == Incoming(n, st) && n !in s.clients.v
    requires s' == s.(inLegs := Cell(s.inLegs.v[id := Blank(st, n)]), pending := Cell(s.pending.v[n := Remote(id)]),
                      streams := Cell(Put(s.streams.v, st, [id])), sent := Cell(Put(s.sent.v, id, [Alerting])))
    ensures Inv(s')
  {
    hide Inv;
    var s1 := s'.(pending := s.pending);
    NewLegKeeps(s, s1, Blank(st, n), id);
    QueueingRemoteKeeps(s1, s', n, id);
  }

  /** An inbound call id that has just been learned. */
  ghost predicate Unseen(s: State, id: CallId) {
    && id !in s.offered.v && id !in s.recorders.v && id !in s.rang.v && id !in s.heard.v && id !in s.fed.v
    && id !in s.sent.v
    && id !in s.inLegs.v && Unrecorded(s.attempts.v, s.ended.v, id) && Detached(s, id)
  }

  lemma {:induction false} RefusingKeeps(s: State, id: CallId, why: Reason)
    requires Inv(s) && id in s.kind.v && id !in s.inLegs.v
    ensures Inv(Refuse(s, id, why))
  {
    hide Inv;
    assert s.inLegs.v - {id} == s.inLegs.v;
    SendingKeeps(s, id, [Busy(why)]);
  }

  lemma {:induction false} NewLegKeeps(s: State, s': State, leg: Leg, id: CallId)
    requires Inv(s) && Unseen(s, id) && id in s.kind.v && s.kind.v[id] == Incoming(leg.calleeNum, leg.stream)
    requires leg.stream in s.streams.v && leg.candidates == [] && !leg.answered && !leg.service.Recorder?
    requires leg.callee.Some? ==> leg.service.NoService?
    requires s' == s.(inLegs := Cell(s.inLegs.v[id := leg]), streams := Cell(Put(s.streams.v, leg.stream, [id])),
                      sent := s'.sent, told := s'.told,
                      rang := Cell(if leg.callee.Some? then s.rang.v + {id} else s.rang.v),
                      offered := Cell(if leg.callee.Some? then s.offered.v[id := leg.callee.value] else s.offered.v))
    requires s'.sent.v.Keys <= s.sent.v.Keys + {id}
    ensures Inv(s')
  {
    NewLegLocal(s, s', leg, id);
    NewLegBridge(s, s', leg, id);
    hide SocketsOk, LocalOk, BridgeOk;
  }

  lemma {:induction false} NewLegLocal(s: State, s': State, leg: Leg, id: CallId)
    requires SocketsOk(s) && LocalOk(s) && Unseen(s, id) && id in s.kind.v && s.kind.v[id].Incoming?
    requires s' == s.(inLegs := s'.inLegs, streams := s'.streams, sent := s'.sent, told := s'.told, rang := s'.rang,
                      offered := Cell(if leg.callee.Some? then s.offered.v[id := leg.callee.value] else s.offered.v))
    ensures SocketsOk(s') && LocalOk(s')
  {}

  lemma {:induction false} NewLegBridge(s: State, s': State, leg: Leg, id: CallId)
    requires BridgeOk(s) && Unseen(s, id) && id in s.kind.v && s.kind.v[id] == Incoming(leg.calleeNum, leg.stream)
    requires leg.stream in s.streams.v && leg.candidates == [] && !leg.answered && !leg.service.Recorder?
    requires leg.callee.Some? ==> leg.service.NoService?
    requires s' == s.(inLegs := Cell(s.inLegs.v[id := leg]), streams := Cell(Put(s.streams.v, leg.stream, [id])),
                      sent := s'.sent, told := s'.told,
                      rang := Cell(if leg.callee.Some? then s.rang.v + {id} else s.rang.v),
                      offered := Cell(if leg.callee.Some? then s.offered.v[id := leg.callee.value] else s.offered.v))
    ensures BridgeOk(s')
  {
    NewLegOwned(s.inLegs.v, s.streams.v, s.kind.v, leg, id);
    NewLegStaged(s.inLegs.v, s.offered.v, s.rang.v, s.attempts.v, s.ended.v, s.recorders.v, leg, id);
  }

  lemma {:induction false} NewLegOwned(inLegs: map<CallId, Leg>, streams: map<Stream, seq<CallId>>, kind: Kinds,
                                       leg: Leg, id: CallId)
    requires Owned(inLegs, streams, kind) && leg.stream in streams
    requires id in kind && kind[id] == Incoming(leg.calleeNum, leg.stream)
    ensures Owned(inLegs[id := leg], Put(streams, leg.stream, [id]), kind)
  {}

  lemma {:induction false} NewLegStaged(inLegs: map<CallId, Leg>, offered: map<CallId, Sock>, rang: set<CallId>,
                     attempts: multiset<CallId>, ended: multiset<CallId>, recorders: set<CallId>, leg: Leg, id: CallId)
    requires Staged(inLegs, offered, rang, attempts, ended, recorders)
    requires Unrecorded(attempts, ended, id) && id !in offered && id !in rang && !leg.answered && !leg.service.Recorder?
    requires leg.callee.Some? ==> leg.service.NoService?
    ensures var o := if leg.callee.Some? then offered[id := leg.callee.value] else offered;
            var r := if leg.callee.Some? then rang + {id} else rang;
            Staged(inLegs[id := leg], o, r, attempts, ended, recorders)
  {}

  lemma {:induction false} QueueingRemoteKeeps(s: State, s': State, n: Number, id: CallId)
    requires Inv(s) && id in s.inLegs.v && s.inLegs.v[id].calleeNum == n && s.inLegs.v[id].callee.None?
    requires s.inLegs.v[id].service.NoService? && n !in s.clients.v
    requires s' == s.(pending := Cell(s.pending.v[n := Remote(id)]))
    ensures Inv(s')
  {}

  /** The callee cannot be woken: straight to voicemail, or busy. */
  lemma {:induction false} VoicemailOnlyKeeps(s: State, leg: Leg, id: CallId, vm: Voicemail)
    requires Inv(s) && Unseen(s, id) && id in s.kind.v && s.kind.v[id] == Incoming(leg.calleeNum, leg.stream)
    requires leg.stream in s.streams.v && leg == Leg(leg.stream, leg.calleeNum, None, NoService, false, false, [])
    ensures vm.Works? ==> Inv(RouteInbound(s.(streams := Cell(Put(s.streams.v, leg.stream, [id]))), leg, id))
    ensures !vm.Works? ==> Inv(RouteInboundOr(s, leg, id, vm, Busy(Unavailable)))
  {
    hide Inv;
    if vm.Works? {
      var s1 := s.(inLegs := Cell(s.inLegs.v[id := leg]), streams := Cell(Put(s.streams.v, leg.stream, [id])));
      NewLegKeeps(s, s1, leg, id);
      var s2 := RouteInbound(s1, leg, id);
      RecordingKeeps(s1, s2, leg.(service := Recorder, answered := true), id);
      assert s1.inLegs.v[id := leg.(service := Recorder, answered := true)]
          == s.inLegs.v[id := leg.(service := Recorder, answered := true)];
    } else {
      assert s.inLegs.v - {id} == s.inLegs.v;
      SendingKeeps(s, id, [Busy(Unavailable)]);
      if vm.Fails? {
        WritingOffKeeps(s.(sent := Cell(Put(s.sent.v, id, [Busy(Unavailable)]))), id);
      }
    }
  }

  lemma {:induction false} InIceKeeps(s: State, id: CallId, cand: Candidate)
    requires Inv(s)
    ensures Inv(InIce(s, id, cand))
  {
    hide Inv;
    if id in s.inLegs.v {
      var leg := s.inLegs.v[id];
      assert leg.callee.None? ==> s.inLegs.v[id := leg] == s.inLegs.v;
      var leg' := if leg.callee.None? then leg else leg.(candidates := leg.candidates + [cand]);
      HearingKeeps(s, InIce(s, id, cand), leg', id, cand);
    }
  }

  lemma {:induction false} HearingKeeps(s: State, s': State, leg: Leg, id: CallId, cand: Candidate)
    requires Inv(s) && id in s.inLegs.v
    requires leg == s.inLegs.v[id].(candidates := leg.candidates)
    requires leg.callee.Some? ==> leg.candidates == s.inLegs.v[id].candidates + [cand]
    requires s' == s.(inLegs := Cell(s.inLegs.v[id := leg]), heard := Cell(Put(s.heard.v, id, [cand])), told := s'.told,
                      fed := Cell(if leg.service.NoService? then s.fed.v else Put(s.fed.v, id, [cand])))
    ensures Inv(s')
  {
    SameLegKeeps(s, leg, id);
    var s1 := s.(inLegs := Cell(s.inLegs.v[id := leg]));
    assert LocalOk(s') && SocketsOk(s');
    assert Candidates(s'.inLegs.v, s'.rang.v, s'.heard.v, s'.fed.v) by { HeardCandidates(s, s', leg, id, cand); }
    hide SocketsOk, LocalOk;
  }

  lemma {:induction false} SameLegKeeps(s: State, leg: Leg, id: CallId)
    requires Inv(s) && id in s.inLegs.v && leg == s.inLegs.v[id].(candidates := leg.candidates)
    ensures var inLegs := s.inLegs.v[id := leg];
            && Owned(inLegs, s.streams.v, s.kind.v)
            && Staged(inLegs, s.offered.v, s.rang.v, s.attempts.v, s.ended.v, s.recorders.v)
            && Engaged(s.callOf.v, inLegs, s.kind.v) && QueuedLegs(s.pending.v, inLegs)
            && Settled(s.recorders.v, inLegs, s.attempts.v, s.ended.v, s.selfEnded.v)
  {}

  lemma {:induction false} HeardCandidates(s: State, s': State, leg: Leg, id: CallId, cand: Candidate)
    requires Candidates(s.inLegs.v, s.rang.v, s.heard.v, s.fed.v)
      && Staged(s.inLegs.v, s.offered.v, s.rang.v, s.attempts.v, s.ended.v, s.recorders.v)
    requires id in s.inLegs.v && leg == s.inLegs.v[id].(candidates := leg.candidates)
    requires leg.callee.Some? ==> leg.candidates == s.inLegs.v[id].candidates + [cand]
    requires s' == s.(inLegs := Cell(s.inLegs.v[id := leg]), heard := Cell(Put(s.heard.v, id, [cand])), told := s'.told,
                      fed := Cell(if leg.service.NoService? then s.fed.v else Put(s.fed.v, id, [cand])))
    ensures Candidates(s'.inLegs.v, s'.rang.v, s'.heard.v, s'.fed.v)
  {}

  lemma {:induction false} InByeKeeps(s: State, id: CallId, why: Reason)
    requires Inv(s)
    ensures Inv(InBye(s, id, why))
  {
    hide Inv, EndLeg;
    if id in s.inLegs.v {
      EndLegKeeps(s, id, why);
    } else {
      UnqueueingKeeps(s, Unqueued(s.pending.v, id));
    }
  }

  lemma {:induction false} EndLegKeeps(s: State, id: CallId, why: Reason)
    requires Inv(s) && id in s.inLegs.v
    ensures Inv(EndLeg(s, id, why))
  {
    hide Inv, Freed, Unqueued;
    var leg := s.inLegs.v[id];
    if !leg.service.NoService? {
      ServedLegKeeps(s, id);
    } else if leg.callee.Some? {
      EndingKeeps(s, leg.callee.value, id, why);
      var s1 := End(s, leg.callee.value, id, why);
      LetGo(s, id, why);
      DroppingKeeps(s1, s1.(inLegs := Cell(s.inLegs.v - {id})), id);
    } else {
      WaitingLegKeeps(s, id);
    }
  }

  lemma {:induction false} LetGo(s: State, id: CallId, why: Reason)
    requires Inv(s) && id in s.inLegs.v && s.inLegs.v[id].callee.Some? && s.inLegs.v[id].service.NoService?
    ensures id in s.kind.v && Detached(End(s, s.inLegs.v[id].callee.value, id, why), id)
  {
    hide Inv;
    CalleeAlone(s, id);
  }

  lemma {:induction false} WaitingLegKeeps(s: State, id: CallId)
    requires Inv(s) && id in s.inLegs.v && s.inLegs.v[id].service.NoService? && s.inLegs.v[id].callee.None?
    ensures Inv(s.(inLegs := Cell(s.inLegs.v - {id}), pending := Cell(Unqueued(s.pending.v, id))))
  {
    hide Inv;
    LegKnown(s, id);
    var s1 := s.(pending := Cell(Unqueued(s.pending.v, id)));
    UnqueueingKeeps(s, s1.pending.v);
    DroppingKeeps(s1, s1.(inLegs := Cell(s1.inLegs.v - {id})), id);
  }

  lemma {:induction false} LegKnown(s: State, id: CallId)
    requires Inv(s) && id in s.inLegs.v
    ensures id in s.kind.v
    ensures s.inLegs.v[id].callee.None? ==> forall c | c in s.callOf.v :: s.callOf.v[c] != id
  {}

  lemma {:induction false} ServedLegKeeps(s: State, id: CallId)
    requires Inv(s) && id in s.inLegs.v && !s.inLegs.v[id].service.NoService?
    ensures Inv(s.(inLegs := Cell(s.inLegs.v - {id}), ended := Cell(s.ended.v + multiset{id})))
  {}

  lemma {:induction false} InEndKeeps(s: State, st: Stream)
    requires Inv(s)
    ensures Inv(InEnd(s, st))
  {
    hide Inv, CleanUps;
    if st in s.streams.v {
      CleanUpsKeeps(s, s.streams.v[st]);
      ClosingKeeps(CleanUps(s, s.streams.v[st]), st);
    }
  }

  lemma {:induction false} ClosingKeeps(s: State, st: Stream)
    requires Inv(s) && st in s.streams.v && forall id | id in s.streams.v[st] :: id !in s.inLegs.v
    ensures Inv(s.(streams := Cell(s.streams.v - {st})))
  {}

  lemma {:induction false} CleanUpsKeeps(s: State, ids: seq<CallId>)
    requires Inv(s)
    ensures var s' := CleanUps(s, ids);
            && Inv(s') && s'.streams == s.streams && s'.inLegs.v.Keys <= s.inLegs.v.Keys
            && forall id | id in ids :: id !in s'.inLegs.v
    decreases |ids|
  {
    hide Inv, CleanUp;
    if ids != [] {
      CleanUpKeeps(s, ids[0]);
      CleanUpsKeeps(CleanUp(s, ids[0]), ids[1..]);
    }
  }

  lemma {:induction false} CleanUpKeeps(s: State, id: CallId)
    requires Inv(s)
    ensures var s' := CleanUp(s, id);
            Inv(s') && s'.inLegs.v.Keys <= s.inLegs.v.Keys && id !in s'.inLegs.v && s'.streams == s.streams
  {
    hide Inv, Freed;
    if id in s.inLegs.v {
      EndLegKeeps(s, id, Disconnected);
    }
    var s1 := if id in s.inLegs.v then EndLeg(s, id, Disconnected) else s;
    UnqueueingKeeps(s1, Unqueued(s1.pending.v, id));
  }

  lemma {:induction false} OutEventKeeps(s: State, id: CallId, m: PeerMsg)
    requires Inv(s)
    ensures Inv(OutEvent(s, id, m))
  {
    hide Inv, ReaderReturns;
    if id in s.readers.v && !m.Invite? {
      var c := s.readers.v[id];
      var x := match m case Alerting => Ringing(id) case Accept => Connected(id) case Ice(cand) => Trickle(id, cand)
               case Bye(why) => Ended(id, why) case Busy(why) => Ended(id, why);
      TellingKeeps(s, Told(s, c, x));
      ReaderReturnsKeeps(Told(s, c, x), c, id);
    }
  }

  lemma {:induction false} OutEndKeeps(s: State, id: CallId, eof: bool)
    requires Inv(s)
    ensures Inv(OutEnd(s, id, eof))
  {
    hide Inv, ReaderReturns;
    if id in s.readers.v {
      var c := s.readers.v[id];
      TellingKeeps(s, Told(s, c, Ended(id, Disconnected)));
      ReaderReturnsKeeps(Told(s, c, Ended(id, Disconnected)), c, id);
      ReaderReturnsKeeps(s, c, id);
    }
  }

  lemma {:induction false} ReaderReturnsKeeps(s: State, c: Sock, id: CallId)
    requires Inv(s)
    ensures Inv(ReaderReturns(s, c, id))
  {}

  // ---- Every step, every run ----

  /** Whatever happens, the invariant survives. */
  lemma {:induction false} StepKeeps(s: State, e: Event)
    requires Inv(s) && Possible(s, e)
    ensures Inv(Step(s, e))
  {
    hide Inv, Register, Disconnect, Call, ServiceCall, PlaceCross, Answer, Hangup, Decline, LocalIce, RingTimeout,
         Expire, InboundTimeout, InboundSelfEnd, LocalSelfEnd, StreamOpen, InInvite, InIce, InBye, InEnd, OutEvent,
         OutEnd;
    match e
    case ERegister(c, n) => RegisterKeeps(s, c, n);
    case EDisconnect(c, vm) => DisconnectKeeps(s, c, vm);
    case ECall(c, n, id, id2, line, vm) => CallKeeps(s, c, n, id, id2, line, vm);
    case EServiceCall(c, id, accepts) => ServiceCallKeeps(s, c, id, accepts);
    case EPlaceCross(c, id, n, reachable) => PlaceCrossKeeps(s, c, id, n, reachable);
    case EAnswer(c, id, pick) => AnswerKeeps(s, c, id, pick);
    case EHangup(c, vm) => HangupKeeps(s, c, vm);
    case EDecline(c, asked, vm) => DeclineKeeps(s, c, asked, vm);
    case ELocalIce(c, id, cand) => LocalIceKeeps(s, c, id, cand);
    case ERingTimeout(id, vm) => RingTimeoutKeeps(s, id, vm);
    case EExpire(n, vm) => ExpireKeeps(s, n, vm);
    case EInboundTimeout(id, vm) => InboundTimeoutKeeps(s, id, vm);
    case EInboundSelfEnd(id) => InboundSelfEndKeeps(s, id);
    case ELocalSelfEnd(c, id) => LocalSelfEndKeeps(s, c, id);
    case EStreamOpen(st) => StreamOpenKeeps(s, st);
    case EInInvite(st, id, n, host, line, vm) => InInviteKeeps(s, st, id, n, host, line, vm);
    case EInIce(id, cand) => InIceKeeps(s, id, cand);
    case EInBye(id, why) => InByeKeeps(s, id, why);
    case EInEnd(st) => InEndKeeps(s, st);
    case EOutEvent(id, m) => OutEventKeeps(s, id, m);
    case EOutEnd(id, eof) => OutEndKeeps(s, id, eof);
  }

  lemma {:induction false} RunKeeps(states: seq<State>, events: seq<Event>, i: nat)
    requires Run(states, events) && i < |states|
    ensures Inv(states[i])
  {
    hide Step, Possible, Inv;
    if i == 0 {
      StartOk();
    } else {
      RunKeeps(states, events, i - 1);
      StepKeeps(states[i - 1], events[i - 1]);
    }
  }

  lemma {:induction false} StartOk()
    ensures Inv(START)
  {}
}
