/**
  What the caller of a call between two servers hears.
 */
module Relay {
  import opened Options
  import opened Exchange
  import opened CallInvariants
  import opened CallLegs
  import opened CallLaws
  import opened CallTables
  import opened CallOutcomes
  import opened OneCallPerLine
  import F = Federation

  // ---- One exchange ----

  /** The message is about call id. */
  predicate Of(m: ClientMsg, id: CallId) {
    match m
    case Registered => false
    case Failed(_) => false
    case _ => m.id == id
  }

  /** Of a call nobody knows nobody has been told anything; and whoever is in an outgoing call has its out-leg. */
  ghost predicate Ready(s: State, id: CallId) {
    && (id !in s.kind.v ==> forall x, m | Of(m, id) :: s.told.v[(x, m)] == 0)
    && (id in s.kind.v && s.kind.v[id].Outgoing? ==> forall x | In(s.callOf.v, x, id) :: id in s.outLegs.v)
  }

  /** The event is one that the reader of call id hears. */
  predicate ReaderHears(e: Event, id: CallId) {
    (e.EOutEvent? || e.EOutEnd?) && e.id == id
  }

  /** An outgoing call is in no local table, and in no inbound one. */
  lemma {:induction false} OutgoingOnly(s: State, id: CallId)
    requires Inv(s) && id in s.kind.v && s.kind.v[id].Outgoing?
    ensures id !in s.rings.v && id !in s.svc.v && id !in s.inLegs.v && id !in s.offered.v && id !in s.recorders.v
    ensures forall n | n in s.pending.v :: s.pending.v[n].id != id
    ensures forall x | In(s.callOf.v, x, id) :: x == s.kind.v[id].who
    ensures id in s.readers.v ==> s.readers.v[id] == s.kind.v[id].who
  {}

  /** About an outgoing call nobody is told anything but what its reader hears. */
  lemma {:induction false} OutgoingQuiet(s: State, e: Event, id: CallId, x: Sock, m: ClientMsg)
    requires Inv(s) && Possible(s, e) && id in s.kind.v && s.kind.v[id].Outgoing? && Ready(s, id)
    requires Of(m, id) && !ReaderHears(e, id)
    ensures !Owed(s, e, x, m)
  {
    hide Inv;
    OutgoingOnly(s, id);
    PossibleIds(s, e, id);
    hide Possible, Online;
  }

  /** New calls have new ids, and answers and recordings are for calls of the right kind. */
  lemma {:induction false} PossibleIds(s: State, e: Event, id: CallId)
    requires Possible(s, e) && id in s.kind.v
    ensures e.ECall? ==> e.id != id && e.id2 != id
    ensures e.EServiceCall? || e.EPlaceCross? || e.EInInvite? ==> e.id != id
    ensures e.EAnswer? && e.id == id ==> id in s.offered.v
    ensures e.ELocalSelfEnd? && e.id == id ==> s.kind.v[id].Local?
    ensures e.EInboundSelfEnd? && e.id == id ==> id in s.recorders.v
  {}

  /** Whoever is told something about a call is told about one that is known. */
  lemma {:induction false} OwedIsKnown(s: State, e: Event, id: CallId, x: Sock, m: ClientMsg)
    requires Inv(s) && Possible(s, e) && Of(m, id) && Owed(s, e, x, m)
    ensures id in Step(s, e).kind.v
  {
    hide Inv, Step, Online;
    KnownIds(s, id);
    NewIds(s, e);
    StepRecords(s, e, id);
  }

  lemma {:induction false} KnownIds(s: State, id: CallId)
    requires Inv(s)
    ensures id in s.rings.v || id in s.svc.v || id in s.inLegs.v || id in s.readers.v || id in s.offered.v
        ==> id in s.kind.v
    ensures forall n | n in s.pending.v :: s.pending.v[n].id in s.kind.v
    ensures forall x | In(s.callOf.v, x, id) :: id in s.kind.v
  {}

  /** A call that is placed, or comes in, is known from then on. */
  lemma {:induction false} NewIds(s: State, e: Event)
    ensures e.ECall? && e.c in s.userOf.v && (e.n in s.clients.v || !e.line.Unknown?) ==> e.id in Step(s, e).kind.v
    ensures e.ECall? && e.c in s.userOf.v && e.n !in s.clients.v && e.line == Push(false) ==> e.id2 in Step(s, e).kind.v
    ensures e.EServiceCall? && e.c in s.userOf.v && e.accepts ==> e.id in Step(s, e).kind.v
    ensures e.EInInvite? ==> e.id in Step(s, e).kind.v
  {
    hide Put, Freed, Online;
  }

  /** An outgoing call has its out-leg from the moment it is known. */
  lemma {:induction false} NewOutgoing(s: State, e: Event, id: CallId)
    requires id !in s.kind.v && id in Step(s, e).kind.v && Step(s, e).kind.v[id].Outgoing?
    ensures id in Step(s, e).outLegs.v
  {
    if e.EPlaceCross? {
    } else if e.ERegister? || e.ECall? || e.EInInvite? || e.EServiceCall? {
      hide Put, Freed, Online;
    } else {
      hide Step;
      PlainFrames(s, e);
    }
  }

  /** An out-leg goes with the caller, who hangs up, or is heard to hang up, or hears the end. */
  lemma {:induction false} LegAndCaller(s: State, e: Event, id: CallId, x: Sock)
    requires Inv(s) && Possible(s, e) && id in s.kind.v && s.kind.v[id].Outgoing? && id in s.outLegs.v
    requires In(s.callOf.v, x, id) && id !in Step(s, e).outLegs.v
    ensures Leaves(s, e, x, id)
  {
    hide Inv, Step;
    OutgoingOnly(s, id);
    PossibleIds(s, e, id);
    OneTable(s, id);
    StepLegs(s, e, id);
    hide Possible;
    var a, b := Seen(s, id), Seen(Step(s, e), id);
    assert a.out && !b.out;
    if CauseOf(s, e, id).ReaderDone? {
      assert x == s.readers.v[id];
      if e.EOutEvent? {
        assert EndedOwed(s, e, x, id, e.m.why);
      }
    } else {
      var m := News(a, b).value;
      StepSends(s, e, id, m);
      hide Rule;
    }
  }

  lemma {:induction false} OutgoingStays(s: State, e: Event, id: CallId, x: Sock)
    requires Inv(s) && Possible(s, e) && id in s.kind.v && s.kind.v[id].Outgoing? && Ready(s, id)
    requires In(Step(s, e).callOf.v, x, id)
    ensures id in Step(s, e).outLegs.v
  {
    hide Inv, Step, Leaves;
    StepCalls(s, e, x, id);
    OutgoingOnly(s, id);
    PossibleIds(s, e, id);
    hide Possible;
    assert !Enters(s, e, x, id);
    if id !in Step(s, e).outLegs.v {
      LegAndCaller(s, e, id, x);
    }
  }

  lemma {:induction false} ReadyStep(s: State, e: Event, id: CallId)
    requires Inv(s) && Possible(s, e) && Ready(s, id)
    ensures Ready(Step(s, e), id)
  {
    hide Inv, Possible, Step, Owed;
    var s' := Step(s, e);
    KindsGrow(s, e, id);
    if id !in s'.kind.v {
      forall x, m | Of(m, id)
        ensures s'.told.v[(x, m)] == 0
      {
        StepTells(s, e, x, m);
        if Owed(s, e, x, m) {
          OwedIsKnown(s, e, id, x, m);
        }
      }
    } else if s'.kind.v[id].Outgoing? {
      if id in s.kind.v {
        forall x | In(s'.callOf.v, x, id) ensures id in s'.outLegs.v { OutgoingStays(s, e, id, x); }
      } else {
        NewOutgoing(s, e, id);
      }
    }
  }

  lemma {:induction false} KindsGrow(s: State, e: Event, id: CallId)
    requires Inv(s) && Possible(s, e)
    ensures id in s.kind.v ==> id in Step(s, e).kind.v && Step(s, e).kind.v[id] == s.kind.v[id]
  {
    hide Inv, Possible, Step;
    StepRecords(s, e, id);
  }

  // ---- Many exchanges ----

  /** What a move is for exchange x. */
  ghost function EventAt(w: F.World, v: F.Move, x: F.Name): Option<Event>
    requires F.Can(w, v)
  {
    match v
    case Within(y, e) => if x == y then Some(e) else None
    case Dial(y, z, c, id, n) =>
      if x == y then Some(EPlaceCross(c, id, n, true)) else if x == z then Some(EStreamOpen(id)) else None
    case Forward(id, host, line, vm) =>
      if x == w.links[id].callee then
        F.Arriving(id, At(F.Caller(w, id).sent.v, id)[w.links[id].fwd], host, line, vm)
      else None
    case Back(id) =>
      if x == w.links[id].caller then Some(EOutEvent(id, At(F.Callee(w, id).sent.v, id)[w.links[id].bwd])) else None
    case Break(_) => None
    case CalleeStops(id) => if x == w.links[id].callee then Some(EInEnd(id)) else None
    case CallerStops(id, eof) => if x == w.links[id].caller then Some(EOutEnd(id, eof)) else None
  }

  /** A move is a possible step of each exchange, or nothing. */
  lemma {:induction false} MoveActs(w: F.World, v: F.Move, x: F.Name)
    requires F.WorldOk(w) && F.Can(w, v) && x in w.xs
    ensures x in F.Next(w, v).xs
    ensures match EventAt(w, v, x)
            case None => F.Next(w, v).xs[x] == w.xs[x]
            case Some(e) => Possible(w.xs[x], e) && F.Next(w, v).xs[x] == Step(w.xs[x], e)
  {
    hide Inv, Step, F.LinkOk, F.LinksOk, F.Covered;
    if v.Forward? {
      ForwardActs(w, v, x);
      hide F.Can, F.Next, EventAt;
    } else {
      OtherActs(w, v, x);
      hide F.Can, F.Next, EventAt;
    }
  }

  lemma {:induction false} OtherActs(w: F.World, v: F.Move, x: F.Name)
    requires F.Can(w, v) && x in w.xs && !v.Forward?
    ensures x in F.Next(w, v).xs
    ensures match EventAt(w, v, x)
            case None => F.Next(w, v).xs[x] == w.xs[x]
            case Some(e) => Possible(w.xs[x], e) && F.Next(w, v).xs[x] == Step(w.xs[x], e)
  {
    hide Step;
  }

  lemma {:induction false} ForwardActs(w: F.World, v: F.Move, x: F.Name)
    requires F.WorldOk(w) && F.Can(w, v) && x in w.xs && v.Forward?
    ensures x in F.Next(w, v).xs
    ensures match EventAt(w, v, x)
            case None => F.Next(w, v).xs[x] == w.xs[x]
            case Some(e) => Possible(w.xs[x], e) && F.Next(w, v).xs[x] == Step(w.xs[x], e)
  {
    hide Inv, Step, F.Covered, F.LinkOk;
    var id, l := v.id, w.links[v.id];
    F.Limits(w, id);
    F.SeenPut(F.Caller(w, id), id);
    F.SeenPut(F.Callee(w, id), id);
    F.InviteFirst(l, id, Seen(F.Caller(w, id), id), Seen(F.Callee(w, id), id));
    hide Seen, F.LinksOk;
  }

  ghost predicate AllReady(w: F.World) {
    forall x, id | x in w.xs :: Ready(w.xs[x], id)
  }

  lemma {:induction false} ReadyHistory(worlds: seq<F.World>, moves: seq<F.Move>, i: nat)
    requires F.History(worlds, moves) && i < |worlds|
    ensures AllReady(worlds[i])
  {
    hide F.Can, F.Next, F.WorldOk, Ready;
    if i == 0 {
      forall id ensures Ready(START, id) { ReadyStart(id); }
    } else {
      ReadyHistory(worlds, moves, i - 1);
      F.HistoryKeeps(worlds, moves, i - 1);
      var w, v := worlds[i - 1], moves[i - 1];
      SameNames(w, v);
      forall x, id | x in worlds[i].xs
        ensures Ready(worlds[i].xs[x], id)
      {
        MoveActs(w, v, x);
        Ordered(w, x);
        if EventAt(w, v, x).Some? {
          ReadyStep(w.xs[x], EventAt(w, v, x).value, id);
        }
      }
    }
  }

  lemma {:induction false} ReadyStart(id: CallId)
    ensures Ready(START, id)
  {}

  lemma {:induction false} SameNames(w: F.World, v: F.Move)
    requires F.Can(w, v)
    ensures F.Next(w, v).xs.Keys == w.xs.Keys
  {
    hide Step, Possible;
  }

  lemma {:induction false} Ordered(w: F.World, x: F.Name)
    requires F.WorldOk(w) && x in w.xs
    ensures Inv(w.xs[x])
  {}

  // ---- What the caller hears ----

  /** How often the messages q say to a caller what m says. */
  function Said(q: seq<PeerMsg>, m: ClientMsg): nat {
    match m
    case Ringing(_) => multiset(q)[Alerting]
    case Connected(_) => multiset(q)[Accept]
    case Trickle(_, cand) => multiset(q)[Ice(cand)]
    case Ended(_, why) => multiset(q)[Bye(why)] + multiset(q)[Busy(why)]
    case _ => 0
  }

  lemma {:induction false} SaidOneMore(q: seq<PeerMsg>, p: PeerMsg, m: ClientMsg)
    ensures Said(q + [p], m) == Said(q, m) + Said([p], m)
  {
    assert multiset(q + [p]) == multiset(q) + multiset([p]);
  }

  /** The caller, and nobody else, has heard what its exchange has read; and that the stream was lost, if it was. */
  ghost predicate Heard(s: State, id: CallId, read: seq<PeerMsg>, lost: bool) {
    && id in s.kind.v && s.kind.v[id].Outgoing?
    && (lost ==> id !in s.readers.v)
    && forall x, m | Of(m, id) ::
         s.told.v[(x, m)] == if x != s.kind.v[id].who then 0
                             else Said(read, m) + if lost && m == Ended(id, Disconnected) then 1 else 0
  }

  /** Nothing the caller's exchange does otherwise tells anybody anything about the call. */
  lemma {:induction false} HeardOtherwise(s: State, e: Event, id: CallId, read: seq<PeerMsg>, lost: bool)
    requires Inv(s) && Possible(s, e) && Ready(s, id) && Heard(s, id, read, lost) && !ReaderHears(e, id)
    ensures Heard(Step(s, e), id, read, lost)
  {
    hide Inv, Possible, Step, Ready, Owed;
    var s' := Step(s, e);
    KindsGrow(s, e, id);
    if id !in s.readers.v {
      ReaderStays(s, e, id);
    }
    forall x, m | Of(m, id)
      ensures s'.told.v[(x, m)] == s.told.v[(x, m)]
    {
      StepTells(s, e, x, m);
      OutgoingQuiet(s, e, id, x, m);
    }
  }

  /** A reader that has returned does not come back. */
  lemma {:induction false} ReaderStays(s: State, e: Event, id: CallId)
    requires Inv(s) && Possible(s, e) && id in s.kind.v && s.kind.v[id].Outgoing? && id !in s.readers.v
    ensures id !in Step(s, e).readers.v
  {
    hide Inv, Step;
    PossibleIds(s, e, id);
    StepLegs(s, e, id);
    hide Possible;
  }

  /** A message that the caller's exchange reads is told to the caller, as what it says. */
  lemma {:induction false} HeardBack(s: State, p: PeerMsg, id: CallId, read: seq<PeerMsg>, lost: bool)
    requires Inv(s) && Heard(s, id, read, lost) && id in s.readers.v
    ensures Heard(Step(s, EOutEvent(id, p)), id, read + [p], lost)
  {
    hide Inv, Step;
    var e := EOutEvent(id, p);
    var s' := Step(s, e);
    OutgoingOnly(s, id);
    KindsGrow(s, e, id);
    forall x, m | Of(m, id)
      ensures s'.told.v[(x, m)] == s.told.v[(x, m)] + if x == s.kind.v[id].who then Said([p], m) else 0
    {
      StepTells(s, e, x, m);
      SaysOne(s, p, id, x, m);
      hide Owed;
    }
    forall m ensures Said(read + [p], m) == Said(read, m) + Said([p], m) { SaidOneMore(read, p, m); }
    hide Owed, Said;
  }

  lemma {:induction false} SaysOne(s: State, p: PeerMsg, id: CallId, x: Sock, m: ClientMsg)
    requires Of(m, id) && id in s.readers.v
    ensures (if Owed(s, EOutEvent(id, p), x, m) then 1 else 0) == if x == s.readers.v[id] then Said([p], m) else 0
  {
    assert multiset([p])[p] == 1 && forall q | q != p :: multiset([p])[q] == 0;
  }

  lemma {:induction false} HeardEnd(s: State, eof: bool, id: CallId, read: seq<PeerMsg>, lost: bool)
    requires Inv(s) && Heard(s, id, read, lost) && id in s.readers.v
    ensures Heard(Step(s, EOutEnd(id, eof)), id, read, lost || !eof)
  {
    hide Inv, Step;
    var e := EOutEnd(id, eof);
    var s' := Step(s, e);
    OutgoingOnly(s, id);
    KindsGrow(s, e, id);
    StepLegs(s, e, id);
    forall x, m | Of(m, id)
      ensures s'.told.v[(x, m)] == s.told.v[(x, m)]
                + if x == s.kind.v[id].who && !eof && m == Ended(id, Disconnected) then 1 else 0
    {
      StepTells(s, e, x, m);
    }
    hide Owed, Said;
  }

  // ---- Over whole histories ----

  /** What the caller's exchange has read so far of what the callee's has sent. */
  function Read(w: F.World, id: CallId): seq<PeerMsg>
    requires F.Between(w, id) && w.links[id].bwd <= |At(F.Callee(w, id).sent.v, id)|
  {
    At(F.Callee(w, id).sent.v, id)[..w.links[id].bwd]
  }

  /** The stream broke, and the reader of the call noticed an error. */
  ghost predicate Lost(moves: seq<F.Move>, i: nat, id: CallId)
    requires i <= |moves|
  {
    exists k :: 0 <= k < i && moves[k] == F.CallerStops(id, false)
  }

  ghost predicate LinkHeard(w: F.World, id: CallId, lost: bool) {
    && F.Between(w, id) && w.links[id].bwd <= |At(F.Callee(w, id).sent.v, id)|
    && Heard(F.Caller(w, id), id, Read(w, id), lost)
  }

  /** What an exchange has sent stays sent. */
  lemma {:induction false} SentStays(s: State, e: Event, id: CallId)
    requires Inv(s) && Possible(s, e)
    ensures At(s.sent.v, id) <= At(Step(s, e).sent.v, id)
  {
    hide Inv, Possible, Step;
    StepLegs(s, e, id);
  }

  /** Of a stream that is not what the move is about, the caller hears nothing new. */
  lemma {:induction false} LinkStays(w: F.World, v: F.Move, id: CallId, lost: bool)
    requires F.WorldOk(w) && AllReady(w) && F.Can(w, v) && id in w.links && LinkHeard(w, id, lost)
    requires id in F.Next(w, v).links && F.Next(w, v).links[id].caller == w.links[id].caller
      && F.Next(w, v).links[id].callee == w.links[id].callee && F.Next(w, v).links[id].bwd == w.links[id].bwd
    requires var e := EventAt(w, v, w.links[id].caller); e.Some? ==> !ReaderHears(e.value, id)
    ensures LinkHeard(F.Next(w, v), id, lost)
  {
    hide F.WorldOk, F.Can, F.Next, EventAt, Inv, Possible, Step, Heard, Ready;
    var x, y := w.links[id].caller, w.links[id].callee;
    var w' := F.Next(w, v);
    MoveActs(w, v, x);
    MoveActs(w, v, y);
    Ordered(w, x);
    Ordered(w, y);
    if EventAt(w, v, y).Some? {
      SentStays(w.xs[y], EventAt(w, v, y).value, id);
    }
    assert Read(w', id) == Read(w, id);
    if EventAt(w, v, x).Some? {
      HeardOtherwise(w.xs[x], EventAt(w, v, x).value, id, Read(w, id), lost);
    }
  }

  /** The move reads, or ends, the caller's side of the stream. */
  predicate Reads(v: F.Move, id: CallId) {
    (v.Back? || v.CallerStops?) && v.id == id
  }

  lemma {:induction false} OtherMove(w: F.World, v: F.Move, id: CallId)
    requires F.Can(w, v) && id in w.links && F.Between(w, id) && !Reads(v, id)
    ensures var w' := F.Next(w, v);
            && id in w'.links && w'.links[id].caller == w.links[id].caller && w'.links[id].callee == w.links[id].callee
            && w'.links[id].bwd == w.links[id].bwd
    ensures var e := EventAt(w, v, w.links[id].caller); e.Some? ==> !ReaderHears(e.value, id)
  {
    hide Step, Possible;
  }

  lemma {:induction false} BackHeard(w: F.World, id: CallId, lost: bool)
    requires F.WorldOk(w) && F.Can(w, F.Back(id)) && LinkHeard(w, id, lost) && w.links[id].caller != w.links[id].callee
    ensures LinkHeard(F.Next(w, F.Back(id)), id, lost)
  {
    hide F.WorldOk, Inv, Step, Heard;
    var l, q := w.links[id], At(F.Callee(w, id).sent.v, id);
    Ordered(w, l.caller);
    HeardBack(F.Caller(w, id), q[l.bwd], id, Read(w, id), lost);
    assert q[..l.bwd + 1] == Read(w, id) + [q[l.bwd]];
  }

  lemma {:induction false} StopHeard(w: F.World, id: CallId, eof: bool, lost: bool)
    requires F.WorldOk(w) && F.Can(w, F.CallerStops(id, eof)) && LinkHeard(w, id, lost)
      && w.links[id].caller != w.links[id].callee
    ensures LinkHeard(F.Next(w, F.CallerStops(id, eof)), id, lost || !eof)
  {
    hide F.WorldOk, Inv, Step, Heard;
    Ordered(w, w.links[id].caller);
    HeardEnd(F.Caller(w, id), eof, id, Read(w, id), lost);
  }

  lemma {:induction false} DialHeard(w: F.World, v: F.Move, id: CallId)
    requires F.WorldOk(w) && AllReady(w) && F.Can(w, v) && id !in w.links && id in F.Next(w, v).links
    ensures v.Dial? && LinkHeard(F.Next(w, v), id, false)
  {
    hide F.WorldOk, Inv, Step, Possible;
    assert v.Dial? && v.id == id;
    var s, e := w.xs[v.x], EPlaceCross(v.c, id, v.n, true);
    Ordered(w, v.x);
    Placed(s, e);
  }

  lemma {:induction false} Placed(s: State, e: Event)
    requires Inv(s) && Possible(s, e) && e.EPlaceCross? && e.c in s.userOf.v && e.reachable && Ready(s, e.id)
    ensures Heard(Step(s, e), e.id, [], false)
  {
    hide Inv;
    assert e.id !in s.kind.v;
    assert Step(s, e).told == s.told;
  }

  lemma {:induction false} TwoEnds(w: F.World, id: CallId)
    requires F.WorldOk(w) && id in w.links
    ensures F.Between(w, id) && w.links[id].caller != w.links[id].callee
    ensures w.links[id].bwd <= |At(F.Callee(w, id).sent.v, id)|
  {
    F.Limits(w, id);
    hide F.LinkOk, Inv;
  }

  lemma {:induction false} HeardHistory(worlds: seq<F.World>, moves: seq<F.Move>, i: nat, id: CallId)
    requires F.History(worlds, moves) && i < |worlds|
    ensures i <= |moves|
    ensures if id in worlds[i].links then LinkHeard(worlds[i], id, Lost(moves, i, id)) else !Lost(moves, i, id)
  {
    hide F.Can, F.Next, F.WorldOk, LinkHeard, AllReady;
    if i > 0 {
      HeardHistory(worlds, moves, i - 1, id);
      F.HistoryKeeps(worlds, moves, i - 1);
      ReadyHistory(worlds, moves, i - 1);
      var w, v := worlds[i - 1], moves[i - 1];
      assert Lost(moves, i, id) <==> Lost(moves, i - 1, id) || v == F.CallerStops(id, false);
      if id in w.links {
        TwoEnds(w, id);
        if v == F.Back(id) {
          BackHeard(w, id, Lost(moves, i - 1, id));
          SameLink(w, v, id);
        } else if v.CallerStops? && v.id == id {
          StopHeard(w, id, v.eof, Lost(moves, i - 1, id));
          SameLink(w, v, id);
        } else {
          OtherMove(w, v, id);
          LinkStays(w, v, id, Lost(moves, i - 1, id));
        }
      } else if id in worlds[i].links {
        DialHeard(w, v, id);
      } else {
        NoStop(w, v, id);
      }
    }
  }

  lemma {:induction false} SameLink(w: F.World, v: F.Move, id: CallId)
    requires F.Can(w, v) && id in w.links && Reads(v, id)
    ensures id in F.Next(w, v).links
  {
    hide Step, Possible;
  }

  lemma {:induction false} NoStop(w: F.World, v: F.Move, id: CallId)
    requires F.Can(w, v) && id !in w.links
    ensures v != F.CallerStops(id, false)
  {
    hide Possible;
  }

  /**
    The caller of a call to another server is told of ringing, of the answer, of each candidate and of each end
    exactly as often as its server has read this off the stream; once more that the call is over if the stream is
    lost; and nobody else is told anything about the call.
   */
  lemma {:induction false} CallerHears(worlds: seq<F.World>, moves: seq<F.Move>, i: nat, id: CallId)
    requires F.History(worlds, moves) && i < |worlds| && id in worlds[i].links
    ensures F.Between(worlds[i], id) && i <= |moves|
    ensures worlds[i].links[id].bwd <= |At(F.Callee(worlds[i], id).sent.v, id)|
    ensures var a, read := F.Caller(worlds[i], id), multiset(Read(worlds[i], id));
            && id in a.kind.v && a.kind.v[id].Outgoing?
            && var c := a.kind.v[id].who;
               && a.told.v[(c, Ringing(id))] == read[Alerting]
               && a.told.v[(c, Connected(id))] == read[Accept]
               && (forall cand :: a.told.v[(c, Trickle(id, cand))] == read[Ice(cand)])
               && (forall why :: a.told.v[(c, Ended(id, why))] ==
                     read[Bye(why)] + read[Busy(why)] + if why.Disconnected? && Lost(moves, i, id) then 1 else 0)
               && a.told.v[(c, Offer(id))] == 0
               && forall x, m | x != c && Of(m, id) :: a.told.v[(x, m)] == 0
  {
    HeardHistory(worlds, moves, i, id);
    hide F.Can, F.Next, Lost;
    var a, read := F.Caller(worlds[i], id), Read(worlds[i], id);
    var c := a.kind.v[id].who;
    assert Said(read, Ringing(id)) == multiset(read)[Alerting] && Said(read, Connected(id)) == multiset(read)[Accept];
    assert Of(Ringing(id), id) && Of(Connected(id), id) && Of(Offer(id), id);
    forall cand ensures a.told.v[(c, Trickle(id, cand))] == multiset(read)[Ice(cand)] {
      assert Of(Trickle(id, cand), id);
    }
    forall why
      ensures a.told.v[(c, Ended(id, why))] == multiset(read)[Bye(why)] + multiset(read)[Busy(why)]
                + if why.Disconnected? && Lost(moves, i, id) then 1 else 0
    {
      assert Of(Ended(id, why), id);
    }
  }

  /** Something takes call id: the phone it was offered to, a service that is hosted here, or a recorder. */
  predicate Answers(s: State, e: Event, id: CallId) {
    || (e.EAnswer? && e.id == id && id in s.offered.v && s.offered.v[id] == e.c && id in s.inLegs.v)
    || (e.EInInvite? && e.id == id && e.host == HostedHere(true, true))
    || (AnyCovered(s, e, id) && Recording(e).Works?)
  }

  lemma {:induction false} AcceptAnswers(s: State, e: Event, id: CallId)
    requires Possible(s, e) && Sends(s, e, id, Accept)
    ensures Answers(s, e, id)
  {
    hide Covered;
  }

  lemma {:induction false} NewAccept(s: State, e: Event, id: CallId)
    requires Inv(s) && Possible(s, e) && Accept !in At(s.sent.v, id) && Accept in At(Step(s, e).sent.v, id)
    ensures Sends(s, e, id, Accept)
  {
    hide Inv, Possible, Step, Sends;
    StepLegs(s, e, id);
    StepSends(s, e, id, Accept);
    var a, b := Seen(s, id), Seen(Step(s, e), id);
    assert b.put == a.put + [Accept];
  }

  /** An exchange has said that call id is answered only if something took it. */
  lemma {:induction false} AcceptIsEarned(worlds: seq<F.World>, moves: seq<F.Move>, i: nat, y: F.Name, id: CallId)
    returns (k: nat)
    requires F.History(worlds, moves) && i < |worlds| && y in worlds[i].xs
    requires Accept in At(worlds[i].xs[y].sent.v, id)
    ensures k < i && k < |moves| && y in worlds[k].xs
    ensures var e := EventAt(worlds[k], moves[k], y); e.Some? && Answers(worlds[k].xs[y], e.value, id)
  {
    hide F.Can, F.Next, F.WorldOk, EventAt, Inv, Possible, Step, Sends, Answers;
    if i == 0 {
      assert false;
    } else {
      var w, v := worlds[i - 1], moves[i - 1];
      F.HistoryKeeps(worlds, moves, i - 1);
      SameNames(w, v);
      MoveActs(w, v, y);
      Ordered(w, y);
      if Accept in At(w.xs[y].sent.v, id) {
        k := AcceptIsEarned(worlds, moves, i - 1, y, id);
      } else {
        k := i - 1;
        NewAccept(w.xs[y], EventAt(w, v, y).value, id);
        AcceptAnswers(w.xs[y], EventAt(w, v, y).value, id);
      }
    }
  }

  /**
    So nobody is told that a call to another server is connected before something there took it: the phone that it was
    offered to, a recorder, or a hosted service.
   */
  lemma {:induction false} ConnectedAfterAnswer(worlds: seq<F.World>, moves: seq<F.Move>, i: nat, id: CallId, x: Sock)
    returns (k: nat)
    requires F.History(worlds, moves) && i < |worlds| && id in worlds[i].links
    requires F.Between(worlds[i], id) && (x, Connected(id)) in F.Caller(worlds[i], id).told.v
    ensures k < i && k < |moves| && worlds[i].links[id].callee in worlds[k].xs
    ensures var y := worlds[i].links[id].callee;
            var e := EventAt(worlds[k], moves[k], y); e.Some? && Answers(worlds[k].xs[y], e.value, id)
  {
    CallerHears(worlds, moves, i, id);
    assert Of(Connected(id), id);
    hide F.History;
    var read := Read(worlds[i], id);
    assert Accept in multiset(read);
    assert Accept in read;
    k := AcceptIsEarned(worlds, moves, i, worlds[i].links[id].callee, id);
  }
}
