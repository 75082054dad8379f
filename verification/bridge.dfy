/**
  A federation: any number of exchanges, and one BridgeCall stream for each call between two of them.
 */
module Federation {
  import opened Options
  import opened Exchange
  import opened CallInvariants
  import opened CallLegs

  // Both directions of a stream are FIFO: what one end has put on it (`sent` of that exchange) is read by the other
  // end from the front. A stream may break at any time; what was sent after that never arrives, what was sent before
  // may or may not be read, and sooner or later both ends notice.

  type Name = int

  /** The stream of one call: who placed it, how much of either direction has been read, and where it broke. */
  datatype Link = Link(caller: Name, callee: Name, fwd: nat, bwd: nat, cut: Option<(int, int)>)

  datatype World = World(xs: map<Name, State>, links: map<CallId, Link>)

  datatype Move =
    | Within(x: Name, e: Event)                                            // an exchange on its own
    | Dial(x: Name, y: Name, c: Sock, id: CallId, n: Number)               // startCrossCall reaches y
    | Forward(id: CallId, host: Hosting, line: Line, vm: Voicemail)        // serveInbound reads an event
    | Back(id: CallId)                                                     // outboundReadLoop reads an event
    | Break(id: CallId)
    | CalleeStops(id: CallId)                                              // serveInbound gets an error
    | CallerStops(id: CallId, eof: bool)                                   // outboundReadLoop gets EOF or an error

  // ---- The system ----

  function Caller(w: World, id: CallId): State
    requires id in w.links && w.links[id].caller in w.xs
  {
    w.xs[w.links[id].caller]
  }

  function Callee(w: World, id: CallId): State
    requires id in w.links && w.links[id].callee in w.xs
  {
    w.xs[w.links[id].callee]
  }

  predicate Between(w: World, id: CallId) {
    id in w.links && w.links[id].caller in w.xs && w.links[id].callee in w.xs
  }

  /** How much of the stream the callee's exchange can ever read, as things stand. */
  function FwdLimit(w: World, id: CallId): int
    requires Between(w, id)
  {
    var sent, cut := |At(Caller(w, id).sent.v, id)|, w.links[id].cut;
    if cut.Some? && cut.value.0 < sent then cut.value.0 else sent
  }

  function BwdLimit(w: World, id: CallId): int
    requires Between(w, id)
  {
    var sent, cut := |At(Callee(w, id).sent.v, id)|, w.links[id].cut;
    if cut.Some? && cut.value.1 < sent then cut.value.1 else sent
  }

  /** What serveInbound makes of the next event; kinds of event it does not know are skipped. */
  function Arriving(id: CallId, m: PeerMsg, host: Hosting, line: Line, vm: Voicemail): Option<Event> {
    match m
    case Invite(n) => Some(EInInvite(id, id, n, host, line, vm))
    case Ice(cand) => Some(EInIce(id, cand))
    case Bye(why) => Some(EInBye(id, why))
    case _ => None
  }

  /** Events an exchange has without its bridge streams. */
  predicate Inside(e: Event) {
    && !e.EStreamOpen? && !e.EInInvite? && !e.EInIce? && !e.EInBye? && !e.EInEnd? && !e.EOutEvent? && !e.EOutEnd?
    && (e.EPlaceCross? ==> !e.reachable)
  }

  predicate Creates(e: Event, id: CallId) {
    (e.ECall? && (e.id == id || e.id2 == id)) || (e.EServiceCall? && e.id == id) || (e.EPlaceCross? && e.id == id)
  }

  /** What can happen. A service's answer fails to be sent only on a broken stream. */
  ghost predicate Can(w: World, m: Move) {
    match m
    case Within(x, e) => x in w.xs && Inside(e) && Possible(w.xs[x], e) && forall id | id in w.links :: !Creates(e, id)
    case Dial(x, y, c, id, n) =>
      && x in w.xs && y in w.xs && x != y && id !in w.links && c in w.xs[x].userOf.v
      && Possible(w.xs[x], EPlaceCross(c, id, n, true)) && Possible(w.xs[y], EStreamOpen(id)) && id !in w.xs[y].kind.v
    case Forward(id, host, _, _) =>
      && Between(w, id) && id in Callee(w, id).streams.v && w.links[id].fwd < FwdLimit(w, id)
      && (host == HostedHere(true, false) ==> w.links[id].cut.Some?)
    case Back(id) => Between(w, id) && id in Caller(w, id).readers.v && w.links[id].bwd < BwdLimit(w, id)
    case Break(id) => Between(w, id) && w.links[id].cut.None?
    case CalleeStops(id) => Between(w, id) && id in Callee(w, id).streams.v && w.links[id].cut.Some?
    case CallerStops(id, _) => Between(w, id) && id in Caller(w, id).readers.v && w.links[id].cut.Some?
  }

  function Acts(w: World, x: Name, e: Event): World
    requires x in w.xs
  {
    w.(xs := w.xs[x := Step(w.xs[x], e)])
  }

  function Next(w: World, m: Move): World
    requires Can(w, m)
  {
    match m
    case Within(x, e) => Acts(w, x, e)
    case Dial(x, y, c, id, n) =>
      Acts(Acts(w, y, EStreamOpen(id)), x, EPlaceCross(c, id, n, true)).(links := w.links[id := Link(x, y, 0, 0, None)])
    case Forward(id, host, line, vm) =>
      var l := w.links[id];
      var e := Arriving(id, At(Caller(w, id).sent.v, id)[l.fwd], host, line, vm);
      (if e.Some? then Acts(w, l.callee, e.value) else w).(links := w.links[id := l.(fwd := l.fwd + 1)])
    case Back(id) =>
      var l := w.links[id];
      Acts(w, l.caller,
        EOutEvent(id, At(Callee(w, id).sent.v, id)[l.bwd])).(links := w.links[id := l.(bwd := l.bwd + 1)])
    case Break(id) =>
      w.(links := w.links[id := w.links[id].(cut := Some((FwdLimit(w, id), BwdLimit(w, id))))])
    case CalleeStops(id) => Acts(w, w.links[id].callee, EInEnd(id))
    case CallerStops(id, eof) => Acts(w, w.links[id].caller, EOutEnd(id, eof))
  }

  // ---- The invariant of one stream ----

  /** One of the first n messages hangs up. */
  ghost predicate Left(q: seq<PeerMsg>, n: int) {
    exists i :: 0 <= i < n && i < |q| && q[i].Bye?
  }

  /** One of the first n messages ends the call. */
  ghost predicate Over(q: seq<PeerMsg>, n: int) {
    exists i :: 0 <= i < n && i < |q| && Closing(q[i])
  }

  /** How far the two ends have got. */
  ghost predicate Counters(l: Link, a: View, b: View) {
    && l.fwd <= |a.put| && l.bwd <= |b.put|
    && (l.cut.Some? ==> l.fwd <= l.cut.value.0 <= |a.put| && l.bwd <= l.cut.value.1 <= |b.put|)
    && |a.put| > 0 && a.put[0].Invite? && (forall i | 0 < i < |a.put| :: !a.put[i].Invite?)
    && a.known.Some? && a.known.value.Outgoing?
  }

  /** The caller's end, a: its out-leg lasts until HANGUP is sent, or HANGUP or BUSY read, or the stream breaks. */
  ghost predicate CallerEnd(l: Link, a: View, b: View) {
    && (!a.reading ==> !a.out)
    && (!a.out ==> Left(a.put, |a.put|) || Over(b.put, l.bwd) || l.cut.Some?)
    && (Left(a.put, |a.put|) || Over(b.put, l.bwd) ==> !a.out)
    && (!a.reading ==> Over(b.put, l.bwd) || l.cut.Some?)
  }

  /**
    The callee's end, b: its in-leg lasts from INCOMING read until HANGUP is read, HANGUP or BUSY sent, or the stream
    breaks.
   */
  ghost predicate CalleeEnd(l: Link, id: CallId, a: View, b: View) {
    && (if l.fwd == 0 then b.known.None? && !b.inn && b.put == []
        else b.known.Some? && b.known.value.Incoming? && b.known.value.on == id)
    && (!b.live ==> !b.inn && l.cut.Some?)
    && (Left(a.put, l.fwd) || Over(b.put, |b.put|) ==> !b.inn)
    && (!b.inn && l.fwd > 0 ==> Left(a.put, l.fwd) || Over(b.put, |b.put|) || l.cut.Some?)
  }

  ghost predicate LinkOk(l: Link, id: CallId, a: View, b: View) {
    Counters(l, a, b) && CallerEnd(l, a, b) && CalleeEnd(l, id, a, b)
  }

  ghost predicate LinksOk(w: World) {
    forall id | id in w.links ::
      && Between(w, id) && w.links[id].caller != w.links[id].callee
      && LinkOk(w.links[id], id, Seen(Caller(w, id), id), Seen(Callee(w, id), id))
  }

  /** Every leg in the federation belongs to a stream that runs from its caller's to its callee's exchange. */
  ghost predicate Covered(w: World) {
    forall x, id | x in w.xs ::
      && (id in w.xs[x].outLegs.v ==> id in w.links && w.links[id].caller == x)
      && (id in w.xs[x].inLegs.v ==> id in w.links && w.links[id].callee == x)
  }

  ghost predicate WorldOk(w: World) {
    (forall x | x in w.xs :: Inv(w.xs[x])) && LinksOk(w) && Covered(w)
  }

  // ---- One stream, one step ----

  lemma {:induction false} CallerMoves(l: Link, id: CallId, a: View, b: View, a': View)
    requires LinkOk(l, id, a, b) && Rule(a, Own, a')
    ensures LinkOk(l, id, a', b)
  {
    var m := News(a, a');
    assert forall i | 0 <= i < |a.put| :: a'.put[i] == a.put[i];
    if m.Some? && m.value.Bye? {
      assert a'.put[|a.put|].Bye?;
    }
  }

  lemma {:induction false} CalleeMoves(l: Link, id: CallId, a: View, b: View, b': View)
    requires LinkOk(l, id, a, b) && Rule(b, Own, b')
    requires b.known.None? ==> b'.put == []
    ensures LinkOk(l, id, a, b')
  {
    var m := News(b, b');
    assert forall i | 0 <= i < |b.put| :: b'.put[i] == b.put[i];
    if m.Some? && Closing(m.value) {
      assert Closing(b'.put[|b.put|]);
    }
  }

  /** serveInbound takes the next event off the stream. */
  lemma {:induction false} ForwardMoves(l: Link, id: CallId, a: View, b: View, why: Cause, b': View)
    requires LinkOk(l, id, a, b) && l.fwd < |a.put| && (l.cut.Some? ==> l.fwd < l.cut.value.0) && b.live
      && Rule(b, why, b')
    requires match a.put[l.fwd]
             case Invite(n) => why.Invited? && why.kind == Incoming(n, id) && (why.sendFails ==> l.cut.Some?)
             case Bye(_) => why.PeerLeft?
             case _ => why.Own?
    ensures LinkOk(l.(fwd := l.fwd + 1), id, a, b')
  {
    var l' := l.(fwd := l.fwd + 1);
    var m := News(b, b');
    assert a.put[l.fwd].Invite? <==> l.fwd == 0;
    assert Left(a.put, l'.fwd) <==> Left(a.put, l.fwd) || a.put[l.fwd].Bye?;
    assert forall i | 0 <= i < |b.put| :: b'.put[i] == b.put[i];
    if m.Some? && Closing(m.value) {
      assert Closing(b'.put[|b.put|]);
    }
  }

  /** outboundReadLoop takes the next event off the stream. */
  lemma {:induction false} BackMoves(l: Link, id: CallId, a: View, b: View, why: Cause, a': View)
    requires LinkOk(l, id, a, b) && l.bwd < |b.put| && (l.cut.Some? ==> l.bwd < l.cut.value.1) && Rule(a, why, a')
    requires if Closing(b.put[l.bwd]) then why.ReaderDone? else why.Own?
    ensures LinkOk(l.(bwd := l.bwd + 1), id, a', b)
  {
    var l' := l.(bwd := l.bwd + 1);
    var m := News(a, a');
    assert Over(b.put, l'.bwd) <==> Over(b.put, l.bwd) || Closing(b.put[l.bwd]);
    assert forall i | 0 <= i < |a.put| :: a'.put[i] == a.put[i];
    if m.Some? && m.value.Bye? {
      assert a'.put[|a.put|].Bye?;
    }
  }

  lemma {:induction false} BreakMoves(l: Link, id: CallId, a: View, b: View)
    requires LinkOk(l, id, a, b) && l.cut.None?
    ensures LinkOk(l.(cut := Some((|a.put|, |b.put|))), id, a, b)
  {}

  lemma {:induction false} CallerStopped(l: Link, id: CallId, a: View, b: View, a': View)
    requires LinkOk(l, id, a, b) && l.cut.Some? && Rule(a, ReaderDone, a')
    ensures LinkOk(l, id, a', b)
  {}

  lemma {:induction false} CalleeStopped(l: Link, id: CallId, a: View, b: View, b': View)
    requires LinkOk(l, id, a, b) && l.cut.Some? && Rule(b, Closed, b') && !b'.inn
    requires b'.known.None? ==> b'.put == []
    ensures LinkOk(l, id, a, b')
  {}

  lemma {:induction false} Dialled(x: Name, y: Name, c: Sock, id: CallId, a: View, b: View, a': View, b': View)
    requires Rule(a, Placed(c), a') && a.put == [] && a'.out && !a.out
    requires Rule(b, Opening, b') && b.known.None? && b.put == [] && !b.inn && (b'.known.None? ==> b'.put == [])
    ensures LinkOk(Link(x, y, 0, 0, None), id, a', b')
  {}

  // ---- Streams do not disturb each other ----

  /** What an exchange knows about a call id that has a stream of its own. */
  predicate Bridged(s: State, id: CallId) {
    id in s.kind.v ==> s.kind.v[id].Outgoing? || (s.kind.v[id].Incoming? && s.kind.v[id].on == id)
  }

  /** The event is about some other call. */
  predicate About(e: Event, id: CallId) {
    || Creates(e, id) || (e.EStreamOpen? && e.st == id) || (e.EInInvite? && e.id == id) || (e.EInBye? && e.id == id)
    || (e.EInEnd? && e.st == id) || (e.EOutEvent? && e.id == id) || (e.EOutEnd? && e.id == id)
  }

  lemma {:induction false} OtherCause(s: State, e: Event, id: CallId)
    requires Inv(s) && Bridged(s, id) && !About(e, id)
    ensures CauseOf(s, e, id) == Own
  {}

  lemma {:induction false} UnknownIsSilent(s: State, id: CallId)
    requires Inv(s)
    ensures id !in s.kind.v ==> At(s.sent.v, id) == [] && id !in s.inLegs.v && id !in s.outLegs.v && id !in s.readers.v
    ensures id !in s.streams.v && Bridged(s, id) ==> id !in s.inLegs.v
  {}

  /** An exchange does something that is not about the call of this stream. */
  lemma {:induction false} OtherLink(w: World, x: Name, e: Event, id: CallId)
    requires WorldOk(w) && x in w.xs && Possible(w.xs[x], e) && id in w.links && !About(e, id)
    ensures var w' := Acts(w, x, e);
            Between(w', id) && LinkOk(w.links[id], id, Seen(Caller(w', id), id), Seen(Callee(w', id), id))
  {
    hide LinkOk, Inv, Possible, Step, Rule, About, CauseOf, Seen;
    var l := w.links[id];
    var s, s' := w.xs[x], Step(w.xs[x], e);
    if x == l.caller || x == l.callee {
      LinkBridged(w, id);
      OtherCause(s, e, id);
      StepKeeps(s, e);
      StepLegs(s, e, id);
      if x == l.caller {
        CallerMoves(l, id, Seen(s, id), Seen(Callee(w, id), id), Seen(s', id));
      } else {
        SilentView(s', id);
        UnknownStays(Seen(s, id), Seen(s', id));
        CalleeMoves(l, id, Seen(Caller(w, id), id), Seen(s, id), Seen(s', id));
      }
    }
  }

  lemma {:induction false} LinkBridged(w: World, id: CallId)
    requires LinksOk(w) && id in w.links
    ensures Bridged(Caller(w, id), id) && Bridged(Callee(w, id), id)
  {}

  lemma {:induction false} SilentView(s: State, id: CallId)
    requires Inv(s)
    ensures Seen(s, id).known.None? ==> Seen(s, id).put == []
    ensures !Seen(s, id).live && Bridged(s, id) ==> !Seen(s, id).inn
  {
    UnknownIsSilent(s, id);
    hide Inv;
  }

  lemma {:induction false} UnknownStays(a: View, b: View)
    requires Rule(a, Own, b)
    ensures b.known == a.known
  {}

  // ---- The federation, one step ----

  /** An exchange acts; every stream that is not about the event stays in order, and so do the exchanges. */
  lemma {:induction false} ActsKeep(w: World, x: Name, e: Event)
    requires WorldOk(w) && x in w.xs && Possible(w.xs[x], e)
    ensures var w' := Acts(w, x, e);
            && w'.xs.Keys == w.xs.Keys && w'.links == w.links
            && (forall y | y in w'.xs :: Inv(w'.xs[y]))
            && forall id | id in w.links && !About(e, id) ::
                 Between(w', id) && LinkOk(w.links[id], id, Seen(Caller(w', id), id), Seen(Callee(w', id), id))
  {
    hide LinkOk, Inv, Possible, Step, About, Seen, LinksOk, Covered;
    StepKeeps(w.xs[x], e);
    forall id | id in w.links && !About(e, id)
      ensures var w' := Acts(w, x, e);
              Between(w', id) && LinkOk(w.links[id], id, Seen(Caller(w', id), id), Seen(Callee(w', id), id))
    {
      OtherLink(w, x, e, id);
    }
  }

  /** The legs an exchange has afterwards, apart from one that the event itself sets up. */
  lemma {:induction false} NoNewLegs(s: State, e: Event, id: CallId)
    requires Inv(s) && Possible(s, e)
    ensures !(e.EPlaceCross? && e.id == id) ==> (id in Step(s, e).outLegs.v ==> id in s.outLegs.v)
    ensures !(e.EInInvite? && e.id == id) ==> (id in Step(s, e).inLegs.v ==> id in s.inLegs.v)
  {
    hide Inv, Possible, Step;
    StepLegs(s, e, id);
  }

  /** The same streams, perhaps read further, perhaps one more. */
  ghost predicate Grown(links: map<CallId, Link>, links': map<CallId, Link>) {
    forall k | k in links :: k in links' && links'[k].caller == links[k].caller && links'[k].callee == links[k].callee
  }

  lemma {:induction false} ActsCover(w: World, x: Name, e: Event, links: map<CallId, Link>)
    requires WorldOk(w) && x in w.xs && Possible(w.xs[x], e) && Grown(w.links, links)
    requires e.EPlaceCross? ==> (e.id in links && links[e.id].caller == x) || e.id !in Step(w.xs[x], e).outLegs.v
    requires e.EInInvite? ==> e.id in links && links[e.id].callee == x
    ensures Covered(Acts(w, x, e).(links := links))
  {
    hide LinksOk, Inv, Possible, Step;
    forall id ensures var s' := Step(w.xs[x], e);
                      && (id in s'.outLegs.v ==> id in links && links[id].caller == x)
                      && (id in s'.inLegs.v ==> id in links && links[id].callee == x)
    {
      NoNewLegs(w.xs[x], e, id);
    }
  }

  lemma {:induction false} WithinKeeps(w: World, x: Name, e: Event)
    requires WorldOk(w) && Can(w, Within(x, e))
    ensures WorldOk(Acts(w, x, e))
  {
    hide LinkOk, Inv, Possible, Step, Seen;
    ActsKeep(w, x, e);
    if e.EPlaceCross? {
      Unreached(w.xs[x], e);
    }
    ActsCover(w, x, e, w.links);
  }

  lemma {:induction false} Unreached(s: State, e: Event)
    requires Inv(s) && Possible(s, e) && e.EPlaceCross? && !e.reachable
    ensures e.id !in Step(s, e).outLegs.v
  {
    UnknownIsSilent(s, e.id);
    PlacedStep(s, e);
    hide Inv, Step;
  }

  lemma {:induction false} PlacedStep(s: State, e: Event)
    requires e.EPlaceCross?
    ensures Step(s, e) == PlaceCross(s, e.c, e.id, e.n, e.reachable)
  {
    hide Register, Disconnect, Call, ServiceCall, PlaceCross, Answer, Hangup, Decline, LocalIce, RingTimeout, Expire,
         InboundTimeout, InboundSelfEnd, LocalSelfEnd, StreamOpen, InInvite, InIce, InBye, InEnd, OutEvent, OutEnd;
  }

  /** Only the stream of call id has changed, and it is in order. */
  lemma {:induction false} OneLinkKeeps(w: World, w': World, id: CallId, l: Link)
    requires Between(w', id) && l.caller != l.callee && l == w'.links[id]
    requires forall k | k in w'.links && k != id :: k in w.links && w'.links[k] == w.links[k]
    requires forall k | k in w'.links && k != id ::
               && Between(w', k) && w'.links[k].caller != w'.links[k].callee
               && LinkOk(w'.links[k], k, Seen(Caller(w', k), k), Seen(Callee(w', k), k))
    requires LinkOk(l, id, Seen(Caller(w', id), id), Seen(Callee(w', id), id))
    ensures LinksOk(w')
  {
    hide LinkOk, Seen;
  }

  lemma {:induction false} Limits(w: World, id: CallId)
    requires LinksOk(w) && id in w.links
    ensures w.links[id].fwd <= FwdLimit(w, id) <= |At(Caller(w, id).sent.v, id)|
    ensures w.links[id].bwd <= BwdLimit(w, id) <= |At(Callee(w, id).sent.v, id)|
  {}

  lemma {:induction false} BackKeeps(w: World, id: CallId)
    requires WorldOk(w) && Can(w, Back(id))
    ensures WorldOk(Next(w, Back(id)))
  {
    hide LinkOk, Inv, Step, Seen, Rule;
    var l := w.links[id];
    var s := Caller(w, id);
    Limits(w, id);
    var m := At(Callee(w, id).sent.v, id)[l.bwd];
    var e := EOutEvent(id, m);
    ActsKeep(w, l.caller, e);
    StepLegs(s, e, id);
    SeenPut(Callee(w, id), id);
    BackMoves(l, id, Seen(s, id), Seen(Callee(w, id), id), CauseOf(s, e, id), Seen(Step(s, e), id));
    ActsCover(w, l.caller, e, w.links[id := l.(bwd := l.bwd + 1)]);
    OneLinkKeeps(w, Next(w, Back(id)), id, l.(bwd := l.bwd + 1));
  }

  lemma {:induction false} SeenPut(s: State, id: CallId)
    ensures Seen(s, id).put == At(s.sent.v, id) && (Seen(s, id).live <==> id in s.streams.v)
    ensures Seen(s, id).known.None? <==> id !in s.kind.v
    ensures (Seen(s, id).out <==> id in s.outLegs.v) && (Seen(s, id).inn <==> id in s.inLegs.v)
    ensures Seen(s, id).reading <==> id in s.readers.v
  {}

  lemma {:induction false} ForwardKeeps(w: World, id: CallId, host: Hosting, line: Line, vm: Voicemail)
    requires WorldOk(w) && Can(w, Forward(id, host, line, vm))
    ensures WorldOk(Next(w, Forward(id, host, line, vm)))
  {
    hide LinkOk, Inv, Step, Seen, Rule;
    var l := w.links[id];
    var a, s := Seen(Caller(w, id), id), Callee(w, id);
    Limits(w, id);
    SeenPut(Caller(w, id), id);
    SeenPut(s, id);
    var m := a.put[l.fwd];
    var l' := l.(fwd := l.fwd + 1);
    InviteFirst(l, id, a, Seen(s, id));
    match Arriving(id, m, host, line, vm)
    case Some(e) =>
      HandlingKeeps(w, id, l', e);
    case None =>
      IdleRule(Seen(s, id));
      ForwardMoves(l, id, a, Seen(s, id), Own, Seen(s, id));
      OneLinkKeeps(w, w.(links := w.links[id := l']), id, l');
  }

  /** The event that goes with the message at the front of the stream. */
  predicate Handles(e: Event, id: CallId, m: PeerMsg, broken: bool) {
    match m
    case Invite(n) => e.EInInvite? && e.id == id && e.st == id && e.n == n
        && (e.host == HostedHere(true, false) ==> broken)
    case Ice(_) => e.EInIce? && e.id == id
    case Bye(_) => e.EInBye? && e.id == id
    case _ => false
  }

  lemma {:induction false} HandlingKeeps(w: World, id: CallId, l': Link, e: Event)
    requires WorldOk(w) && id in w.links && id in Callee(w, id).streams.v && w.links[id].fwd < FwdLimit(w, id)
    requires l' == w.links[id].(fwd := w.links[id].fwd + 1) && w.links[id].fwd < |Seen(Caller(w, id), id).put|
    requires Handles(e, id, Seen(Caller(w, id), id).put[w.links[id].fwd], w.links[id].cut.Some?)
    requires Possible(Callee(w, id), e)
    ensures WorldOk(Acts(w, w.links[id].callee, e).(links := w.links[id := l']))
  {
    hide LinkOk, Inv, Step, Seen, Rule, Possible, About;
    var l, s := w.links[id], Callee(w, id);
    var w' := Acts(w, l.callee, e).(links := w.links[id := l']);
    ActsKeep(w, l.callee, e);
    OnlyAbout(e, id, l, Seen(Caller(w, id), id));
    HandledMoves(w, id, e);
    ActsCover(w, l.callee, e, w'.links);
    OneLinkKeeps(w, w', id, l');
  }

  lemma {:induction false} OnlyAbout(e: Event, id: CallId, l: Link, a: View)
    requires l.fwd < |a.put| && Handles(e, id, a.put[l.fwd], l.cut.Some?)
    ensures forall k | k != id :: !About(e, k)
  {}

  lemma {:induction false} HandledMoves(w: World, id: CallId, e: Event)
    requires WorldOk(w) && id in w.links && id in Callee(w, id).streams.v && w.links[id].fwd < FwdLimit(w, id)
    requires w.links[id].fwd < |Seen(Caller(w, id), id).put|
    requires Handles(e, id, Seen(Caller(w, id), id).put[w.links[id].fwd], w.links[id].cut.Some?)
    requires Possible(Callee(w, id), e)
    ensures LinkOk(w.links[id].(fwd := w.links[id].fwd + 1), id, Seen(Caller(w, id), id),
      Seen(Step(Callee(w, id), e), id))
  {
    hide LinkOk, Inv, Step, Seen, Rule, Possible;
    var l, a, s := w.links[id], Seen(Caller(w, id), id), Callee(w, id);
    Limits(w, id);
    SeenPut(Caller(w, id), id);
    SeenPut(s, id);
    StepLegs(s, e, id);
    ForwardMoves(l, id, a, Seen(s, id), CauseOf(s, e, id), Seen(Step(s, e), id));
  }

  /** INCOMING is read before anything else, and only once. */
  lemma {:induction false} InviteFirst(l: Link, id: CallId, a: View, b: View)
    requires LinkOk(l, id, a, b) && l.fwd < |a.put|
    ensures a.put[l.fwd].Invite? <==> l.fwd == 0
    ensures a.put[l.fwd].Invite? ==> b.known.None?
  {}

  lemma {:induction false} DialKeeps(w: World, x: Name, y: Name, c: Sock, id: CallId, n: Number)
    requires WorldOk(w) && Can(w, Dial(x, y, c, id, n))
    ensures WorldOk(Next(w, Dial(x, y, c, id, n)))
  {
    hide LinkOk, Inv, Step, Seen, Rule, About, Possible;
    var e, f := EPlaceCross(c, id, n, true), EStreamOpen(id);
    ActsKeep(w, y, f);
    OpensOnly(f, id);
    ActsCover(w, y, f, w.links);
    var w1 := Acts(w, y, f);
    var w' := Next(w, Dial(x, y, c, id, n));
    ActsKeep(w1, x, e);
    PlacesOnly(e, id);
    ActsCover(w1, x, e, w'.links);
    DialledMoves(w, x, y, c, id, n);
    OneLinkKeeps(w, w', id, Link(x, y, 0, 0, None));
  }

  lemma {:induction false} OpensOnly(e: Event, id: CallId)
    requires e == EStreamOpen(id)
    ensures forall k | k != id :: !About(e, k)
  {}

  lemma {:induction false} PlacesOnly(e: Event, id: CallId)
    requires e.EPlaceCross? && e.id == id
    ensures forall k | k != id :: !About(e, k)
  {}

  lemma {:induction false} DialledMoves(w: World, x: Name, y: Name, c: Sock, id: CallId, n: Number)
    requires WorldOk(w) && Can(w, Dial(x, y, c, id, n))
    ensures LinkOk(Link(x, y, 0, 0, None), id, Seen(Step(w.xs[x], EPlaceCross(c, id, n, true)), id),
      Seen(Step(w.xs[y], EStreamOpen(id)), id))
  {
    hide LinkOk, Inv, Step, Rule;
    var e, f := EPlaceCross(c, id, n, true), EStreamOpen(id);
    var s, r := w.xs[x], w.xs[y];
    UnknownIsSilent(s, id);
    UnknownIsSilent(r, id);
    StepKeeps(r, f);
    UnknownIsSilent(Step(r, f), id);
    StepLegs(s, e, id);
    StepLegs(r, f, id);
    PlacedStep(s, e);
    Dialled(x, y, c, id, Seen(s, id), Seen(r, id), Seen(Step(s, e), id), Seen(Step(r, f), id));
  }

  lemma {:induction false} BreakKeeps(w: World, id: CallId)
    requires WorldOk(w) && Can(w, Break(id))
    ensures WorldOk(Next(w, Break(id)))
  {
    hide LinkOk, Inv, Seen;
    SeenPut(Caller(w, id), id);
    SeenPut(Callee(w, id), id);
    BreakMoves(w.links[id], id, Seen(Caller(w, id), id), Seen(Callee(w, id), id));
    OneLinkKeeps(w, Next(w, Break(id)), id, Next(w, Break(id)).links[id]);
  }

  lemma {:induction false} StopsOnly(e: Event, id: CallId)
    requires (e.EInEnd? && e.st == id) || (e.EOutEnd? && e.id == id)
    ensures forall k | k != id :: !About(e, k)
  {}

  lemma {:induction false} CalleeStopsKeeps(w: World, id: CallId)
    requires WorldOk(w) && Can(w, CalleeStops(id))
    ensures WorldOk(Next(w, CalleeStops(id)))
  {
    hide LinkOk, Inv, Step, Seen, Rule, About;
    var l, s, e := w.links[id], Callee(w, id), EInEnd(id);
    ActsKeep(w, l.callee, e);
    StopsOnly(e, id);
    StepLegs(s, e, id);
    StepKeeps(s, e);
    SilentView(Step(s, e), id);
    StoppedSilent(w, id);
    CalleeStopped(l, id, Seen(Caller(w, id), id), Seen(s, id), Seen(Step(s, e), id));
    ActsCover(w, l.callee, e, w.links);
    OneLinkKeeps(w, Next(w, CalleeStops(id)), id, l);
  }

  lemma {:induction false} StoppedSilent(w: World, id: CallId)
    requires WorldOk(w) && Can(w, CalleeStops(id))
    ensures var s' := Step(Callee(w, id), EInEnd(id)); !Seen(s', id).inn
  {
    hide LinkOk, Inv, Step, Seen;
    var s, e := Callee(w, id), EInEnd(id);
    LinkBridged(w, id);
    StepLegs(s, e, id);
    StepKeeps(s, e);
    SeenPut(s, id);
    SeenPut(Step(s, e), id);
    StillBridged(s, Step(s, e), id);
    SilentView(Step(s, e), id);
  }

  lemma {:induction false} StillBridged(s: State, s': State, id: CallId)
    requires Bridged(s, id) && Rule(Seen(s, id), Closed, Seen(s', id))
    ensures Bridged(s', id)
  {}

  lemma {:induction false} CallerStopsKeeps(w: World, id: CallId, eof: bool)
    requires WorldOk(w) && Can(w, CallerStops(id, eof))
    ensures WorldOk(Next(w, CallerStops(id, eof)))
  {
    hide LinkOk, Inv, Step, Seen, Rule, About;
    var l, s, e := w.links[id], Caller(w, id), EOutEnd(id, eof);
    ActsKeep(w, l.caller, e);
    StopsOnly(e, id);
    StepLegs(s, e, id);
    CallerStopped(l, id, Seen(s, id), Seen(Callee(w, id), id), Seen(Step(s, e), id));
    ActsCover(w, l.caller, e, w.links);
    OneLinkKeeps(w, Next(w, CallerStops(id, eof)), id, l);
  }

  lemma {:induction false} NextKeeps(w: World, m: Move)
    requires WorldOk(w) && Can(w, m)
    ensures WorldOk(Next(w, m))
  {
    hide WorldOk, LinksOk;
    match m
    case Within(x, e) => WithinKeeps(w, x, e);
    case Dial(x, y, c, id, n) => DialKeeps(w, x, y, c, id, n);
    case Forward(id, host, line, vm) => ForwardKeeps(w, id, host, line, vm);
    case Back(id) => BackKeeps(w, id);
    case Break(id) => BreakKeeps(w, id);
    case CalleeStops(id) => CalleeStopsKeeps(w, id);
    case CallerStops(id, eof) => CallerStopsKeeps(w, id, eof);
  }

  // ---- Runs of the federation ----

  /** Fresh exchanges, no streams, then one possible move after another. */
  ghost predicate History(worlds: seq<World>, moves: seq<Move>) {
    && |worlds| == |moves| + 1
    && worlds[0].links == map[] && (forall x | x in worlds[0].xs :: worlds[0].xs[x] == START)
    && forall i | 0 <= i < |moves| :: Can(worlds[i], moves[i]) && worlds[i + 1] == Next(worlds[i], moves[i])
  }

  lemma {:induction false} HistoryKeeps(worlds: seq<World>, moves: seq<Move>, i: nat)
    requires History(worlds, moves) && i < |worlds|
    ensures WorldOk(worlds[i])
  {
    hide WorldOk, Can;
    if i == 0 {
      WorldStart(worlds[0]);
    } else {
      HistoryKeeps(worlds, moves, i - 1);
      NextKeeps(worlds[i - 1], moves[i - 1]);
    }
  }

  lemma {:induction false} WorldStart(w: World)
    requires w.links == map[] && forall x | x in w.xs :: w.xs[x] == START
    ensures WorldOk(w)
  {
    StartOk();
    hide Inv;
  }

  /** A HANGUP that the other end, having read `from` messages, has still to read. */
  ghost predicate HangupUnread(q: seq<PeerMsg>, from: nat) {
    exists i :: from <= i < |q| && q[i].Bye?
  }

  /** A HANGUP or BUSY still to be read. */
  ghost predicate EndUnread(q: seq<PeerMsg>, from: nat) {
    exists i :: from <= i < |q| && Closing(q[i])
  }

  /** Nothing is left to read in either direction, or the stream broke and both ends have noticed. */
  predicate Drained(w: World, id: CallId)
    requires Between(w, id)
  {
    if w.links[id].cut.Some? then id !in Caller(w, id).readers.v && id !in Callee(w, id).streams.v
    else
      && w.links[id].fwd == FwdLimit(w, id)
      && (w.links[id].bwd == BwdLimit(w, id) || id !in Caller(w, id).readers.v)
  }

  /**
    Where the two exchanges disagree about a call, a message that will tell the one that is behind is on its
    way, or their stream has broken; and once nothing is on its way they agree.
   */
  lemma {:induction false} Agreement(worlds: seq<World>, moves: seq<Move>, i: nat, id: CallId)
    requires History(worlds, moves) && i < |worlds| && id in worlds[i].links
    ensures var w := worlds[i];
            && Between(w, id)
            && var l, a, b := w.links[id], Caller(w, id), Callee(w, id);
               && (id in a.outLegs.v && id !in b.inLegs.v ==>
                     || (l.fwd == 0 && |At(a.sent.v, id)| > 0 && At(a.sent.v, id)[0].Invite?)
                     || EndUnread(At(b.sent.v, id), l.bwd)
                     || l.cut.Some?)
               && (id in b.inLegs.v && id !in a.outLegs.v ==>
                     HangupUnread(At(a.sent.v, id), l.fwd) || l.cut.Some?)
               && (Drained(w, id) ==> (id in a.outLegs.v <==> id in b.inLegs.v))
               && (Drained(w, id) && l.cut.Some? ==> id !in a.outLegs.v)
  {
    hide Can, LinkOk;
    HistoryKeeps(worlds, moves, i);
    var w := worlds[i];
    var l, a, b := w.links[id], Seen(Caller(w, id), id), Seen(Callee(w, id), id);
    SeenPut(Caller(w, id), id);
    SeenPut(Callee(w, id), id);
    Disagreement(l, id, a, b);
    hide WorldOk;
  }

  lemma {:induction false} Disagreement(l: Link, id: CallId, a: View, b: View)
    requires LinkOk(l, id, a, b)
    ensures |a.put| > 0 && a.put[0].Invite?
    ensures a.out && !b.inn ==> l.fwd == 0 || EndUnread(b.put, l.bwd) || l.cut.Some?
    ensures b.inn && !a.out ==> HangupUnread(a.put, l.fwd) || l.cut.Some?
    ensures !a.reading && !b.live ==> !a.out && !b.inn
    ensures l.cut.None? && l.fwd == |a.put| && (l.bwd == |b.put| || !a.reading) ==> (a.out <==> b.inn)
  {
    if a.out && !b.inn && l.fwd > 0 && l.cut.None? && Over(b.put, |b.put|) {
      var i :| 0 <= i < |b.put| && Closing(b.put[i]);
      assert l.bwd <= i;
    }
    if b.inn && !a.out && l.cut.None? && Left(a.put, |a.put|) {
      var i :| 0 <= i < |a.put| && a.put[i].Bye?;
      assert l.fwd <= i;
    }
  }

  /** A leg is always one end of a stream: nothing is held for a call the federation does not carry. */
  lemma {:induction false} LegsHaveStreams(worlds: seq<World>, moves: seq<Move>, i: nat, x: Name, id: CallId)
    requires History(worlds, moves) && i < |worlds| && x in worlds[i].xs
    ensures id in worlds[i].xs[x].outLegs.v ==> id in worlds[i].links && worlds[i].links[id].caller == x
    ensures id in worlds[i].xs[x].inLegs.v ==> id in worlds[i].links && worlds[i].links[id].callee == x
  {
    hide Can, Next, Inv, LinksOk;
    HistoryKeeps(worlds, moves, i);
  }
}
