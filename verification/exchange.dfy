/**
  Call control of one exchange (signaling/server.go and signaling/bridge.go).

  `State` is everything the handlers read and write, together with a history of what
  they did. Each handler is one function from state to state; class `Server` in
  server.dfy runs the same handlers over mutable fields and is proved equal to them.

  Identifiers are only ever compared, so they are numbers here. A socket whose callID
  is "" is a socket outside `callOf`.
 */
module Exchange {
  import opened Options

  type Sock = int       // one accepted WebSocket (a *Client)
  type Number = int     // a local line number
  type CallId = int
  type Stream = int     // one inbound BridgeCall stream
  type Candidate = int  // one ICE candidate

  /** Who created a call id, and for which line. */
  datatype Kind = Local(who: Sock, to: Number) | Outgoing(who: Sock) | Incoming(line: Number, on: Stream)

  datatype Ring = Ring(caller: Sock, callee: Sock, mailbox: Number)
  datatype Pending = Waiting(id: CallId, caller: Sock) | Remote(id: CallId)
  datatype Service = NoService | Hosted | Recorder
  datatype Leg = Leg(stream: Stream, calleeNum: Number, callee: Option<Sock>, service: Service,
                     answered: bool, timer: bool, candidates: seq<Candidate>)

  datatype Reason = HungUp | Declined | NoAnswer | Disconnected | VoicemailComplete | Unavailable | ServiceError
  datatype ClientMsg =
    | Registered | Offer(id: CallId) | Ringing(id: CallId) | Connected(id: CallId)
    | Ended(id: CallId, reason: Reason) | Trickle(id: CallId, cand: Candidate) | Failed(code: int)
  datatype PeerMsg = Invite(to: Number) | Alerting | Accept | Ice(cand: Candidate)
                   | Bye(why: Reason) | Busy(why: Reason)

  /** What a handler finds outside the exchange: the recorder, the callee's line and its
      push channel, a hosted 800/900 number. */
  datatype Voicemail = Off | Fails | Works
  datatype Line = Unknown | NoPush | Push(sent: bool)
  datatype Hosting = NotHosted | HostedHere(accepts: bool, answerSent: bool)

  datatype State = State(
    clients: Cell<map<Number, Sock>>,
    userOf: Cell<map<Sock, Number>>,
    callOf: Cell<map<Sock, CallId>>,
    rings: Cell<map<CallId, Ring>>,
    pending: Cell<map<Number, Pending>>,
    svc: Cell<map<CallId, Sock>>,
    outLegs: Cell<set<CallId>>,
    readers: Cell<map<CallId, Sock>>,            // running outboundReadLoops and their caller
    inLegs: Cell<map<CallId, Leg>>,
    streams: Cell<map<Stream, seq<CallId>>>,      // running serveInbounds and their opened list
    // what has been sent
    told: Cell<multiset<(Sock, ClientMsg)>>,
    sent: Cell<map<CallId, seq<PeerMsg>>>,       // per call id, everything put on its bridge stream
    // history
    kind: Cell<map<CallId, Kind>>,               // every call id seen so far
    offered: Cell<map<CallId, Sock>>,            // whom each call was offered to (incoming_call)
    attempts: Cell<multiset<CallId>>,            // LeaveService.HandleCall invocations
    mailbox: Cell<map<CallId, Number>>,          // whose voicemail each attempt addressed
    ended: Cell<multiset<CallId>>,               // Service.EndCall invocations by call control
    selfEnded: Cell<set<CallId>>,                // recorders that reached their cap
    recorders: Cell<set<CallId>>,                // recorders answering on an inbound leg
    rang: Cell<set<CallId>>,                     // inbound calls whose callee was online at INVITE
    heard: Cell<map<CallId, seq<Candidate>>>,    // remote caller's candidates on each inbound leg
    fed: Cell<map<CallId, seq<Candidate>>>,      // candidates handed to each call's service
    gone: Cell<set<Sock>>                        // sockets whose readPump has returned
  )

  const START := State(Cell(map[]), Cell(map[]), Cell(map[]), Cell(map[]), Cell(map[]), Cell(map[]), Cell({}),
                       Cell(map[]), Cell(map[]), Cell(map[]), Cell(multiset{}), Cell(map[]), Cell(map[]),
                       Cell(map[]), Cell(multiset{}), Cell(map[]), Cell(multiset{}), Cell({}), Cell({}), Cell({}),
                       Cell(map[]), Cell(map[]), Cell({}))

  // ---- What the handlers share ----

  function Put<T>(m: map<CallId, seq<T>>, id: CallId, xs: seq<T>): map<CallId, seq<T>> {
    m[id := At(m, id) + xs]
  }

  /** clearCallID. */
  function Freed(callOf: map<Sock, CallId>, c: Sock, id: CallId): map<Sock, CallId> {
    if c in callOf && callOf[c] == id then callOf - {c} else callOf
  }

  /** removePendingByCallID. */
  function Unqueued(pending: map<Number, Pending>, id: CallId): map<Number, Pending> {
    map n | n in pending && pending[n].id != id :: pending[n]
  }

  predicate Queued(pending: map<Number, Pending>, id: CallId) {
    exists n :: n in pending && pending[n].id == id
  }

  /** isOnline. */
  predicate Online(s: State, c: Sock) {
    c in s.userOf.v && s.userOf.v[c] in s.clients.v && s.clients.v[s.userOf.v[c]] == c
  }

  /** Registered sockets other than c that are in call id. */
  function Others(s: State, c: Sock, id: CallId): set<Sock> {
    set x | x in s.clients.v.Values && x != c && x in s.callOf.v && s.callOf.v[x] == id
  }

  /** m to every socket in xs. */
  function Each(xs: set<Sock>, m: ClientMsg): multiset<(Sock, ClientMsg)> {
    multiset(set x | x in xs :: (x, m))
  }

  function Told(s: State, c: Sock, m: ClientMsg): State {
    s.(told := Cell(s.told.v + multiset{(c, m)}))
  }

  /** endForClient. */
  function End(s: State, c: Sock, id: CallId, why: Reason): State {
    s.(callOf := Cell(Freed(s.callOf.v, c, id)), told := Cell(s.told.v + multiset{(c, Ended(id, why))}))
  }

  function EndOthers(s: State, c: Sock, id: CallId, why: Reason): State {
    var xs := Others(s, c, id);
    s.(callOf := Cell(s.callOf.v - xs), told := Cell(s.told.v + Each(xs, Ended(id, why))))
  }

  function EndService(s: State, id: CallId): State {
    s.(svc := Cell(s.svc.v - {id}), ended := Cell(s.ended.v + multiset{id}))
  }

  // ---- Voicemail ----

  /** Whether routeToVoicemail succeeds. */
  predicate Routed(s: State, caller: Sock, vm: Voicemail) {
    vm.Works? && Online(s, caller)
  }

  /** routeToVoicemail: connect a local caller to the recorder of `box`. */
  function RouteLocal(s: State, caller: Sock, box: Number, id: CallId, vm: Voicemail): State {
    if vm.Off? || !Online(s, caller) then s
    else if vm.Fails? then s.(attempts := Cell(s.attempts.v + multiset{id}), mailbox := Cell(s.mailbox.v[id := box]))
    else
      s.(attempts := Cell(s.attempts.v + multiset{id}), mailbox := Cell(s.mailbox.v[id := box]),
         svc := Cell(s.svc.v[id := caller]), callOf := Cell(s.callOf.v[caller := id]),
         told := Cell(s.told.v + multiset{(caller, Connected(id))}))
  }

  /** routeToVoicemail, or else end the caller's call. */
  function RouteLocalOr(s: State, r: Ring, id: CallId, vm: Voicemail, why: Reason): State {
    var s1 := RouteLocal(s, r.caller, r.mailbox, id, vm);
    if Routed(s, r.caller, vm) then s1 else End(s1, r.caller, id, why)
  }

  /** routeInboundVoicemail when the recorder answers: it is fed the candidates buffered so far. */
  function RouteInbound(s: State, leg: Leg, id: CallId): State {
    s.(attempts := Cell(s.attempts.v + multiset{id}), mailbox := Cell(s.mailbox.v[id := leg.calleeNum]),
       inLegs := Cell(s.inLegs.v[id := leg.(callee := None, service := Recorder, answered := true)]),
       recorders := Cell(s.recorders.v + {id}),
       sent := Cell(Put(s.sent.v, id, [Accept])), fed := Cell(Put(s.fed.v, id, leg.candidates)))
  }

  /** routeInboundVoicemail, or else give the leg up with `m`. */
  function RouteInboundOr(s: State, leg: Leg, id: CallId, vm: Voicemail, m: PeerMsg): State {
    match vm
    case Works => RouteInbound(s, leg, id)
    case Off => s.(inLegs := Cell(s.inLegs.v - {id}), sent := Cell(Put(s.sent.v, id, [m])))
    case Fails =>
      s.(attempts := Cell(s.attempts.v + multiset{id}), mailbox := Cell(s.mailbox.v[id := leg.calleeNum]),
         ended := Cell(s.ended.v + multiset{id}),
         inLegs := Cell(s.inLegs.v - {id}), sent := Cell(Put(s.sent.v, id, [m])))
  }

  // ---- Registration and disconnection ----

  /** handleRegister for an authenticated socket, then deliverPendingCall. */
  function Register(s: State, c: Sock, n: Number): State {
    var s1 := s.(clients := Cell(s.clients.v[n := c]), userOf := Cell(s.userOf.v[c := n]),
                 pending := Cell(s.pending.v - {n}),
                 told := Cell(s.told.v + multiset{(c, Registered)}));
    if n in s.pending.v then Deliver(s1, s.pending.v[n], c) else s1
  }

  function Deliver(s: State, p: Pending, c: Sock): State {
    match p
    case Remote(id) =>
      if id !in s.inLegs.v then s
      else s.(inLegs := Cell(s.inLegs.v[id := s.inLegs.v[id].(callee := Some(c))]),
              offered := Cell(s.offered.v[id := c]),
              told := Cell(s.told.v + multiset{(c, Offer(id))}), callOf := Cell(s.callOf.v[c := id]))
    case Waiting(id, caller) =>
      if !Online(s, caller) then s
      else s.(offered := Cell(s.offered.v[id := c]), told := Cell(s.told.v + multiset{(c, Offer(id))}),
              callOf := Cell(s.callOf.v[caller := id][c := id]))
  }

  /** unregisterClient. */
  function Disconnect(s: State, c: Sock, vm: Voicemail): State {
    if c !in s.userOf.v then s.(gone := Cell(s.gone.v + {c}))
    else if c !in s.callOf.v then Unlist(s, c, s.userOf.v[c])
    else Unlist(LeaveCall(s.(callOf := Cell(s.callOf.v - {c})), c, s.callOf.v[c], vm), c, s.userOf.v[c])
  }

  function Unlist(s: State, c: Sock, n: Number): State {
    s.(clients := Cell(if n in s.clients.v && s.clients.v[n] == c then s.clients.v - {n} else s.clients.v),
       gone := Cell(s.gone.v + {c}))
  }

  function LeaveCall(s: State, c: Sock, id: CallId, vm: Voicemail): State {
    var s1 := CloseLeg(s, c, id, Disconnected);
    var s2 := s1.(pending := Cell(Unqueued(s1.pending.v, id)));
    EndOthers(LeaveService(LeaveRing(s2, c, id, vm), c, id), c, id, Disconnected)
  }

  function LeaveRing(s: State, c: Sock, id: CallId, vm: Voicemail): State {
    if id !in s.rings.v then s
    else
      var r := s.rings.v[id];
      var s1 := s.(rings := Cell(s.rings.v - {id}));
      if r.callee == c then
        if Online(s1, r.caller) then RouteLocalOr(s1, r, id, vm, Disconnected) else s1
      else if r.caller == c then End(s1, r.callee, id, Disconnected)
      else s1
  }

  function LeaveService(s: State, c: Sock, id: CallId): State {
    if id in s.svc.v && s.svc.v[id] == c then EndService(s, id) else s
  }

  predicate OnLeg(s: State, c: Sock, id: CallId) {
    id in s.outLegs.v || (id in s.inLegs.v && s.inLegs.v[id].callee == Some(c))
  }

  /** closeLocalLeg: tell the remote exchange that a local party left. */
  function CloseLeg(s: State, c: Sock, id: CallId, why: Reason): State {
    if id in s.outLegs.v then s.(outLegs := Cell(s.outLegs.v - {id}), sent := Cell(Put(s.sent.v, id, [Bye(why)])))
    else if OnLeg(s, c, id) then s.(inLegs := Cell(s.inLegs.v - {id}), sent := Cell(Put(s.sent.v, id, [Bye(why)])))
    else s
  }

  // ---- Placing calls ----

  /** handleCall to a line of this exchange; `id2` is the id a recorder gets after a failed push. */
  function Call(s: State, c: Sock, n: Number, id: CallId, id2: CallId, line: Line, vm: Voicemail): State {
    if c !in s.userOf.v then Told(s, c, Failed(401))
    else if n in s.clients.v then
      var b := s.clients.v[n];
      s.(kind := Cell(s.kind.v[id := Local(c, n)]), offered := Cell(s.offered.v[id := b]),
         callOf := Cell(s.callOf.v[c := id][b := id]), rings := Cell(s.rings.v[id := Ring(c, b, n)]),
         told := Cell(s.told.v + multiset{(b, Offer(id)), (c, Ringing(id))}))
    else match line
      case Unknown => Told(s, c, Failed(404))
      case NoPush => RecordOrFail(s.(kind := Cell(s.kind.v[id := Local(c, n)])), c, n, id, vm)
      case Push(true) =>
        s.(kind := Cell(s.kind.v[id := Local(c, n)]), pending := Cell(s.pending.v[n := Waiting(id, c)]),
           callOf := Cell(s.callOf.v[c := id]), told := Cell(s.told.v + multiset{(c, Ringing(id))}))
      case Push(false) =>
        // queued under n and in call id for the time of the push, then neither
        RecordOrFail(s.(kind := Cell(s.kind.v[id := Local(c, n)][id2 := Local(c, n)]),
                        pending := Cell(s.pending.v - {n}),
                        callOf := Cell(s.callOf.v - {c})), c, n, id2, vm)
  }

  function RecordOrFail(s: State, c: Sock, n: Number, id: CallId, vm: Voicemail): State {
    var s1 := RouteLocal(s, c, n, id, vm);
    if Routed(s, c, vm) then s1 else Told(s1, c, Failed(404))
  }

  /** handleServiceCall. */
  function ServiceCall(s: State, c: Sock, id: CallId, accepts: bool): State {
    if c !in s.userOf.v then Told(s, c, Failed(401))
    else if !accepts then Told(s, c, Failed(500))
    else s.(kind := Cell(s.kind.v[id := Local(c, 0)]), svc := Cell(s.svc.v[id := c]),
            callOf := Cell(s.callOf.v[c := id]),
            told := Cell(s.told.v + multiset{(c, Connected(id))}))
  }

  /** startCrossCall and startServiceCall. */
  function PlaceCross(s: State, c: Sock, id: CallId, to: Number, reachable: bool): State {
    if c !in s.userOf.v then Told(s, c, Failed(401))
    else if !reachable then Told(s, c, Failed(502))
    else s.(kind := Cell(s.kind.v[id := Outgoing(c)]), callOf := Cell(s.callOf.v[c := id]),
            sent := Cell(Put(s.sent.v, id, [Invite(to)])),
            outLegs := Cell(s.outLegs.v + {id}), readers := Cell(s.readers.v[id := c]))
  }

  // ---- Messages from local sockets ----

  /** handleCallAnswer; `pick` is the socket the loop over clients ends on. */
  function Answer(s: State, c: Sock, id: CallId, pick: Sock): State {
    if c !in s.userOf.v then Told(s, c, Failed(401))
    else if id in s.inLegs.v then
      var leg := s.inLegs.v[id];
      var callee := if leg.callee.None? then Some(c) else leg.callee;
      s.(rings := Cell(s.rings.v - {id}), sent := Cell(Put(s.sent.v, id, [Accept])),
         inLegs := Cell(s.inLegs.v[id := leg.(timer := false, answered := true, callee := callee)]))
    else
      s.(rings := Cell(s.rings.v - {id}),
         told := Cell(s.told.v + multiset{if Others(s, c, id) == {} then (c, Failed(404)) else (pick, Connected(id))}))
  }

  /** handleCallHangup. */
  function Hangup(s: State, c: Sock, vm: Voicemail): State {
    if c !in s.userOf.v || c !in s.callOf.v then s
    else HangupIn(s.(callOf := Cell(s.callOf.v - {c})), c, s.callOf.v[c], vm)
  }

  function HangupIn(s: State, c: Sock, id: CallId, vm: Voicemail): State {
    if id in s.rings.v then
      var r := s.rings.v[id];
      var s1 := s.(rings := Cell(s.rings.v - {id}));
      if r.callee == c then RouteLocalOr(s1, r, id, vm, Declined) else End(s1, r.callee, id, HungUp)
    else if Declinable(s, c, id) then DeclineInbound(s, c, id, vm)
    else if OnLeg(s, c, id) then CloseLeg(s, c, id, HungUp)
    else if Queued(s.pending.v, id) then s.(pending := Cell(Unqueued(s.pending.v, id)))
    else if id in s.svc.v then EndService(s, id)
    else EndOthers(s, c, id, HungUp)
  }

  predicate Declinable(s: State, c: Sock, id: CallId) {
    id in s.inLegs.v && s.inLegs.v[id].callee == Some(c) && !s.inLegs.v[id].answered
      && s.inLegs.v[id].service.NoService?
  }

  /** declineInboundCallee. */
  function DeclineInbound(s: State, c: Sock, id: CallId, vm: Voicemail): State
    requires id in s.inLegs.v
  {
    RouteInboundOr(s.(callOf := Cell(Freed(s.callOf.v, c, id))), Quiet(s.inLegs.v[id]), id, vm, Bye(Declined))
  }

  /** A leg whose callee has stopped ringing. */
  function Quiet(leg: Leg): Leg {
    leg.(timer := false, callee := None)
  }

  /** handleCallDecline; `asked` is the call id in the message, if any. */
  function Decline(s: State, c: Sock, asked: Option<CallId>, vm: Voicemail): State {
    if c !in s.userOf.v || (asked.None? && c !in s.callOf.v) then s
    else
      var id := if asked.Some? then asked.value else s.callOf.v[c];
      var s1 := s.(rings := Cell(s.rings.v - {id}));
      if id in s.rings.v && s.rings.v[id].callee == c then
        RouteLocalOr(s1.(callOf := Cell(Freed(s.callOf.v, c, id))), s.rings.v[id], id, vm, Declined)
      else Hangup(s1, c, vm)
  }

  /** handleICECandidate. */
  function LocalIce(s: State, c: Sock, id: CallId, cand: Candidate): State {
    if c !in s.userOf.v then s
    else if id in s.svc.v then s.(fed := Cell(Put(s.fed.v, id, [cand])))
    else if OnLeg(s, c, id) then s.(sent := Cell(Put(s.sent.v, id, [Ice(cand)])))
    else s.(told := Cell(s.told.v + Each(Others(s, c, id), Trickle(id, cand))))
  }

  // ---- Timers and self-ending recorders ----

  /** onRingTimeout. */
  function RingTimeout(s: State, id: CallId, vm: Voicemail): State {
    if id !in s.rings.v then s
    else
      var r := s.rings.v[id];
      var s1 := End(s.(rings := Cell(s.rings.v - {id})), r.callee, id, NoAnswer);
      if Online(s1, r.caller) then RouteLocalOr(s1, r, id, vm, NoAnswer) else s1
  }

  /** One entry of expirePendingCalls. */
  function Expire(s: State, n: Number, vm: Voicemail): State {
    if n !in s.pending.v then s
    else
      var s1 := s.(pending := Cell(s.pending.v - {n}));
      match s.pending.v[n]
      case Remote(id) =>
        if id in s.inLegs.v then RouteInboundOr(s1, s.inLegs.v[id], id, vm, Bye(NoAnswer)) else s1
      case Waiting(id, caller) =>
        if Online(s, caller) then RouteLocalOr(s1, Ring(caller, caller, n), id, vm, NoAnswer) else s1
  }

  /** onInboundRingTimeout. */
  function InboundTimeout(s: State, id: CallId, vm: Voicemail): State {
    if id !in s.inLegs.v || s.inLegs.v[id].callee.None? || s.inLegs.v[id].answered
        || !s.inLegs.v[id].service.NoService? then s
    else
      RouteInboundOr(End(s, s.inLegs.v[id].callee.value, id, NoAnswer), Quiet(s.inLegs.v[id]), id, vm, Bye(NoAnswer))
  }

  /** OnSelfEnd of a recorder on an inbound leg. */
  function InboundSelfEnd(s: State, id: CallId): State {
    s.(selfEnded := Cell(s.selfEnded.v + {id}), inLegs := Cell(s.inLegs.v - {id}),
       sent := Cell(Put(s.sent.v, id, [Bye(VoicemailComplete)])))
  }

  /** OnSelfEnd of a local caller's recorder: endServiceCall. */
  function LocalSelfEnd(s: State, c: Sock, id: CallId): State {
    var s1 := End(s.(selfEnded := Cell(s.selfEnded.v + {id})), c, id, VoicemailComplete);
    if id in s1.svc.v then EndService(s1, id) else s1
  }

  // ---- Inbound bridge streams ----

  function StreamOpen(s: State, st: Stream): State {
    s.(streams := Cell(s.streams.v[st := []]))
  }

  /** inboundIncoming, and the append to the stream's opened list. */
  function InInvite(s: State, st: Stream, id: CallId, n: Number, host: Hosting, line: Line, vm: Voicemail): State {
    var s1 := s.(kind := Cell(s.kind.v[id := Incoming(n, st)]));
    var leg := Leg(st, n, None, NoService, false, false, []);
    var kept := Put(s.streams.v, st, [id]);
    match host
    case HostedHere(false, _) => Refuse(s1, id, ServiceError)
    case HostedHere(true, false) => s1
    case HostedHere(true, true) =>
      s1.(inLegs := Cell(s.inLegs.v[id := leg.(service := Hosted)]), streams := Cell(kept),
          sent := Cell(Put(s.sent.v, id, [Accept])))
    case NotHosted =>
      if n in s.clients.v then
        var b := s.clients.v[n];
        s1.(inLegs := Cell(s.inLegs.v[id := leg.(callee := Some(b), timer := true)]), rang := Cell(s.rang.v + {id}),
            callOf := Cell(s.callOf.v[b := id]), offered := Cell(s.offered.v[id := b]),
            told := Cell(s.told.v + multiset{(b, Offer(id))}),
            streams := Cell(kept), sent := Cell(Put(s.sent.v, id, [Alerting])))
      else match line
        case Unknown => Refuse(s1, id, Unavailable)
        case NoPush =>
          if vm.Works? then RouteInbound(s1.(streams := Cell(kept)), leg, id)
          else RouteInboundOr(s1, leg, id, vm, Busy(Unavailable))
        case Push(true) =>
          s1.(inLegs := Cell(s.inLegs.v[id := leg]), pending := Cell(s.pending.v[n := Remote(id)]),
              streams := Cell(kept), sent := Cell(Put(s.sent.v, id, [Alerting])))
        case Push(false) => Refuse(s1.(pending := Cell(s.pending.v - {n})), id, Unavailable)
  }

  function Refuse(s: State, id: CallId, why: Reason): State {
    s.(inLegs := Cell(s.inLegs.v - {id}), sent := Cell(Put(s.sent.v, id, [Busy(why)])))
  }

  /** An ICE event on an inbound stream. */
  function InIce(s: State, id: CallId, cand: Candidate): State {
    if id !in s.inLegs.v then s
    else
      var leg := s.inLegs.v[id];
      var s1 := s.(heard := Cell(Put(s.heard.v, id, [cand])),
                   inLegs := Cell(if leg.callee.None? then s.inLegs.v
                             else s.inLegs.v[id := leg.(candidates := leg.candidates + [cand])]));
      if !leg.service.NoService? then s1.(fed := Cell(Put(s.fed.v, id, [cand])))
      else if leg.callee.Some? then Told(s1, leg.callee.value, Trickle(id, cand))
      else s1
  }

  /** inboundRemoteHangup. */
  function InBye(s: State, id: CallId, why: Reason): State {
    if id in s.inLegs.v then EndLeg(s, id, why) else s.(pending := Cell(Unqueued(s.pending.v, id)))
  }

  /** Remove a leg; whoever was at its local end, a service, a callee or nobody yet, is told. */
  function EndLeg(s: State, id: CallId, why: Reason): State
    requires id in s.inLegs.v
  {
    var leg := s.inLegs.v[id];
    var held := leg.service.NoService? && leg.callee.Some?;
    s.(inLegs := Cell(s.inLegs.v - {id}),
       ended := Cell(if leg.service.NoService? then s.ended.v else s.ended.v + multiset{id}),
       callOf := Cell(if held then Freed(s.callOf.v, leg.callee.value, id) else s.callOf.v),
       told := Cell(if held then s.told.v + multiset{(leg.callee.value, Ended(id, why))} else s.told.v),
       pending := Cell(if leg.service.NoService? && leg.callee.None? then Unqueued(s.pending.v, id) else s.pending.v))
  }

  /** The deferred clean-up of serveInbound. */
  function InEnd(s: State, st: Stream): State {
    if st !in s.streams.v then s
    else
      var s1 := CleanUps(s, s.streams.v[st]);
      s1.(streams := Cell(s1.streams.v - {st}))
  }

  function CleanUps(s: State, ids: seq<CallId>): State
    decreases |ids|
  {
    if ids == [] then s else CleanUps(CleanUp(s, ids[0]), ids[1..])
  }

  function CleanUp(s: State, id: CallId): State {
    var s1 := if id in s.inLegs.v then EndLeg(s, id, Disconnected) else s;
    s1.(pending := Cell(Unqueued(s1.pending.v, id)))
  }

  // ---- Outbound bridge streams ----

  /** One event received by outboundReadLoop. */
  function OutEvent(s: State, id: CallId, m: PeerMsg): State {
    if id !in s.readers.v then s
    else
      var c := s.readers.v[id];
      match m
      case Alerting => Told(s, c, Ringing(id))
      case Accept => Told(s, c, Connected(id))
      case Ice(cand) => Told(s, c, Trickle(id, cand))
      case Bye(why) => ReaderReturns(Told(s, c, Ended(id, why)), c, id)
      case Busy(why) => ReaderReturns(Told(s, c, Ended(id, why)), c, id)
      case Invite(_) => s
  }

  /** outboundReadLoop's Recv fails; `eof` tells a clean end from a broken stream. */
  function OutEnd(s: State, id: CallId, eof: bool): State {
    if id !in s.readers.v then s
    else
      var c := s.readers.v[id];
      ReaderReturns(if eof then s else Told(s, c, Ended(id, Disconnected)), c, id)
  }

  function ReaderReturns(s: State, c: Sock, id: CallId): State {
    s.(outLegs := Cell(s.outLegs.v - {id}), readers := Cell(s.readers.v - {id}),
       callOf := Cell(Freed(s.callOf.v, c, id)))
  }

  // ---- Runs ----

  datatype Event =
    | ERegister(c: Sock, n: Number)
    | EDisconnect(c: Sock, vm: Voicemail)
    | ECall(c: Sock, n: Number, id: CallId, id2: CallId, line: Line, vm: Voicemail)
    | EServiceCall(c: Sock, id: CallId, accepts: bool)
    | EPlaceCross(c: Sock, id: CallId, n: Number, reachable: bool)
    | EAnswer(c: Sock, id: CallId, pick: Sock)
    | EHangup(c: Sock, vm: Voicemail)
    | EDecline(c: Sock, asked: Option<CallId>, vm: Voicemail)
    | ELocalIce(c: Sock, id: CallId, cand: Candidate)
    | ERingTimeout(id: CallId, vm: Voicemail)
    | EExpire(n: Number, vm: Voicemail)
    | EInboundTimeout(id: CallId, vm: Voicemail)
    | EInboundSelfEnd(id: CallId)
    | ELocalSelfEnd(c: Sock, id: CallId)
    | EStreamOpen(st: Stream)
    | EInInvite(st: Stream, id: CallId, n: Number, host: Hosting, line: Line, vm: Voicemail)
    | EInIce(id: CallId, cand: Candidate)
    | EInBye(id: CallId, why: Reason)
    | EInEnd(st: Stream)
    | EOutEvent(id: CallId, m: PeerMsg)
    | EOutEnd(id: CallId, eof: bool)

  /** The socket a client message comes from. */
  function From(e: Event): Option<Sock> {
    match e
    case ERegister(c, _) => Some(c)
    case EDisconnect(c, _) => Some(c)
    case ECall(c, _, _, _, _, _) => Some(c)
    case EServiceCall(c, _, _) => Some(c)
    case EPlaceCross(c, _, _, _) => Some(c)
    case EAnswer(c, _, _) => Some(c)
    case EHangup(c, _) => Some(c)
    case EDecline(c, _, _) => Some(c)
    case ELocalIce(c, _, _) => Some(c)
    case _ => None
  }

  /**
    What can happen next: a closed socket is silent, a socket keeps one identity, generated ids are
    new, nobody dials the line they are themselves registered on (handleCall would lock one client
    twice), a phone answers only calls it was offered, and events arrive on open streams only.
   */
  ghost predicate Possible(s: State, e: Event) {
    && (From(e).Some? ==> From(e).value !in s.gone.v)
    && match e
       case ERegister(c, n) => c in s.userOf.v ==> s.userOf.v[c] == n
       case ECall(c, n, id, id2, _, _) =>
         id !in s.kind.v && id2 !in s.kind.v && id != id2 && (n in s.clients.v ==> s.clients.v[n] != c)
       case EServiceCall(_, id, _) => id !in s.kind.v
       case EPlaceCross(_, id, _, _) => id !in s.kind.v
       case EAnswer(c, id, pick) =>
         id in s.offered.v && s.offered.v[id] == c && (Others(s, c, id) != {} ==> pick in Others(s, c, id))
       case EInboundSelfEnd(id) => id in s.recorders.v && id !in s.selfEnded.v
       case ELocalSelfEnd(c, id) => id in s.kind.v && s.kind.v[id].Local? && s.kind.v[id].who == c && id in s.attempts.v
       case EStreamOpen(st) => st !in s.streams.v
       case EInInvite(st, id, _, _, _, _) => st in s.streams.v && id !in s.kind.v
       case _ => true
  }

  function Step(s: State, e: Event): State {
    match e
    case ERegister(c, n) => Register(s, c, n)
    case EDisconnect(c, vm) => Disconnect(s, c, vm)
    case ECall(c, n, id, id2, line, vm) => Call(s, c, n, id, id2, line, vm)
    case EServiceCall(c, id, accepts) => ServiceCall(s, c, id, accepts)
    case EPlaceCross(c, id, n, reachable) => PlaceCross(s, c, id, n, reachable)
    case EAnswer(c, id, pick) => Answer(s, c, id, pick)
    case EHangup(c, vm) => Hangup(s, c, vm)
    case EDecline(c, asked, vm) => Decline(s, c, asked, vm)
    case ELocalIce(c, id, cand) => LocalIce(s, c, id, cand)
    case ERingTimeout(id, vm) => RingTimeout(s, id, vm)
    case EExpire(n, vm) => Expire(s, n, vm)
    case EInboundTimeout(id, vm) => InboundTimeout(s, id, vm)
    case EInboundSelfEnd(id) => InboundSelfEnd(s, id)
    case ELocalSelfEnd(c, id) => LocalSelfEnd(s, c, id)
    case EStreamOpen(st) => StreamOpen(s, st)
    case EInInvite(st, id, n, host, line, vm) => InInvite(s, st, id, n, host, line, vm)
    case EInIce(id, cand) => InIce(s, id, cand)
    case EInBye(id, why) => InBye(s, id, why)
    case EInEnd(st) => InEnd(s, st)
    case EOutEvent(id, m) => OutEvent(s, id, m)
    case EOutEnd(id, eof) => OutEnd(s, id, eof)
  }

  /** The states of a run: start empty, then one possible event after another. */
  ghost predicate Run(states: seq<State>, events: seq<Event>) {
    && |states| == |events| + 1
    && states[0] == START
    && forall i | 0 <= i < |events| :: Possible(states[i], events[i]) && states[i + 1] == Step(states[i], events[i])
  }
}
