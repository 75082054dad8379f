/**
  Store-and-forward messaging (signaling/server.go, signaling/relaydm.go, store/dm.go, dm/dm.go, app_state.dart).
 */
module StoreAndForward {
  import opened Options
  import opened DeviceStore

  // The outbox of a recipient's home server, its lossy send buffers, registration-time flush, the phones' stores and
  // their acknowledgements. Each number is one phone. What is on its way may be lost or overtaken, a superseded socket
  // goes on for a while, a full send buffer drops what does not fit, and clocks may do what they like.

  type Number = int

  const QUEUE_TTL := 604800  // seven days, in seconds
  const BUFFER := 64

  /** A row of dm_outbox; its key is the message id. */
  datatype Row = Row(to: Number, from: Number, image: bool, body: int, at: Time, created: Time)

  datatype Event = New(id: Id, from: Number, image: bool, body: int, at: Time) | Status(cid: Id, id: Id)

  datatype World = World(
    clock: Time,
    outbox: Cell<map<Id, Row>>,
    queue: Cell<map<Number, seq<Event>>>,   // send buffers of registered sockets
    down: Cell<map<Number, seq<Event>>>,    // on the phone's sockets, towards it
    up: Cell<map<Number, seq<Id>>>,         // acknowledgements on them, towards the server
    phone: Cell<map<Number, seq<Message>>>,
    used: Cell<set<Id>>,                    // message ids
    composed: Cell<set<Id>>,                // client ids
    given: Cell<map<Id, Id>>,            // the message id a client id was given
    told: Cell<set<(Id, Number)>>,          // messages whose sender was told "delivered"
    pruned: Cell<map<(Id, Number), Time>>,  // pruned messages and their age
    announced: Cell<multiset<(Number, Id)>> // new-message notifications shown
  )

  const START := World(0, Cell(map[]), Cell(map[]), Cell(map[]), Cell(map[]), Cell(map[]), Cell({}), Cell({}),
                       Cell(map[]), Cell({}), Cell(map[]), Cell(multiset{}))

  // ---- The server ----

  /** sendMessage: what does not fit is dropped; other traffic may have filled the buffer. */
  function Offer(queue: map<Number, seq<Event>>, n: Number, e: Event, room: bool): map<Number, seq<Event>> {
    if n in queue && room && |queue[n]| < BUFFER then queue[n := queue[n] + [e]] else queue
  }

  function Notice(id: Id, r: Row): Event {
    New(id, r.from, r.image, r.body, r.at)
  }

  /** StoreDMPreassigned and relayDMMessage; the insert fails if the id is there already. */
  function Enqueue(w: World, id: Id, r: Row, room: bool): World {
    w.(outbox := Cell(w.outbox.v[id := r]), queue := Cell(Offer(w.queue.v, r.to, Notice(id, r), room)),
       used := Cell(w.used.v + {id}))
  }

  /** handleDMSend for a recipient of this server. */
  function Send(w: World, cid: Id, id: Id, r: Row, known: bool, room: bool, room2: bool): World {
    if !known then w
    else
      var s := Enqueue(w, id, r, room);
      s.(queue := Cell(Offer(s.queue.v, r.from, Status(cid, id), room2)), given := Cell(w.given.v[cid := id]),
         told := Cell(w.told.v + {(id, r.to)}))
  }

  /** DeliverDM: a message from another server, refused while its id is in the outbox; the reply may be lost. */
  function Accept(w: World, id: Id, r: Row, known: bool, room: bool, replied: bool): World {
    if !known || id in w.outbox.v then w
    else
      var s := Enqueue(w, id, r, room);
      if replied then s.(told := Cell(w.told.v + {(id, r.to)})) else s
  }

  /** handleDMAck: only the recipient can release a message. */
  function Release(w: World, n: Number, id: Id): World {
    if id in w.outbox.v && w.outbox.v[id].to == n then w.(outbox := Cell(w.outbox.v - {id})) else w
  }

  /** flushPendingDM: everything queued for n is offered again, in some order. */
  function Flush(w: World, n: Number, ids: seq<Id>, room: seq<bool>): World
    requires |room| == |ids|
    decreases |ids|
  {
    if ids == [] then w
    else
      var s := if ids[0] in w.outbox.v && w.outbox.v[ids[0]].to == n
               then w.(queue := Cell(Offer(w.queue.v, n, Notice(ids[0], w.outbox.v[ids[0]]), room[0]))) else w;
      Flush(s, n, ids[1..], room[1..])
  }

  predicate Stale(r: Row, now: Time) {
    r.created < now - QUEUE_TTL
  }

  /** PruneDM. */
  function Prune(w: World): World {
    w.(outbox := Cell(map id | id in w.outbox.v && !Stale(w.outbox.v[id], w.clock) :: w.outbox.v[id]),
       pruned := Cell(w.pruned.v + map id | id in w.outbox.v && Stale(w.outbox.v[id], w.clock) ::
                                     (id, w.outbox.v[id].to) := w.clock - w.outbox.v[id].created))
  }

  // ---- The phone ----

  function Inbound(e: Event): Message
    requires e.New?
  {
    Message(e.id, None, e.from, true, e.image, e.body, false, false, e.at)
  }

  /** The record a "new" event leaves, whatever was there under its id. */
  function Receive(items: seq<Message>, e: Event): seq<Message>
    requires e.New?
  {
    AddOrUpdate(items, Inbound(e))
  }

  /** A "status" event: the sent message is filed under the server's id from now on. */
  function Settle(items: seq<Message>, cid: Id, id: Id): seq<Message> {
    var mine := FindClient(items, cid);
    var was := if mine.Some? then mine else Find(items, cid);
    if was.None? then items else AddOrUpdate(Without(items, was.value.id), was.value.(id := id, read := true))
  }

  /** _updateDmMessage and _failMessage: the record is replaced by a copy. */
  function Rewrite(items: seq<Message>, id: Id, cached: bool): seq<Message> {
    var was := Find(items, id);
    if was.None? then items
    else AddOrUpdate(Without(items, id), was.value.(cached := cached || was.value.cached))
  }

  function Phone(w: World, n: Number, items: seq<Message>): map<Number, seq<Message>> {
    w.phone.v[n := items]
  }

  function Cut<T>(s: seq<T>, k: nat): seq<T>
    requires k < |s|
  {
    s[..k] + s[k + 1..]
  }

  /** An event reaches phone n; a text is acknowledged at once, an image when it has been fetched. */
  function Arrive(w: World, n: Number, k: nat): World
    requires n in w.down.v && k < |w.down.v[n]|
  {
    var e, rest := w.down.v[n][k], Cut(w.down.v[n], k);
    var items := At(w.phone.v, n);
    var s := w.(down := Cell(w.down.v[n := rest]));
    match e
    case New(id, _, image, _, _) =>
      s.(phone := Cell(Phone(w, n, Receive(items, e))),
         up := if image then w.up else Cell(w.up.v[n := At(w.up.v, n) + [id]]),
         announced := if Has(items, id) then w.announced else Cell(w.announced.v + multiset{(n, id)}))
    case Status(cid, id) => s.(phone := Cell(Phone(w, n, Settle(items, cid, id))))
  }

  // ---- Runs ----

  datatype Step =
    | Compose(n: Number, m: Message)
    | Fail(n: Number, id: Id)
    | SendDM(cid: Id, id: Id, r: Row, known: bool, room: bool, room2: bool)
    | DeliverDM(id: Id, r: Row, known: bool, room: bool, replied: bool)
    | Pump(n: Number)
    | Reach(n: Number, k: nat)
    | Lose(n: Number, k: nat)
    | Fetched(n: Number, id: Id)
    | Acked(n: Number, k: nat)
    | LoseAck(n: Number, k: nat)
    | Register(n: Number, ids: seq<Id>, rooms: seq<bool>)
    | Disconnect(n: Number)
    | PruneOld
    | Clock(t: Time)
    | Open(n: Number, peer: Number)

  /**
    What can happen: message ids and client ids are fresh and never collide, a server stamps its own clock, a
    "dm_send" is handled once, images are fetched for received messages only, and a flush goes through all that
    is queued for the number.
   */
  ghost predicate Can(w: World, s: Step) {
    match s
    case Compose(n, m) => !m.inbound && m.clientId == Some(m.id) && m.id !in w.composed.v && m.id !in w.used.v
    case SendDM(cid, id, r, _, _, _) =>
      cid in w.composed.v && cid !in w.given.v && id !in w.used.v && id !in w.composed.v && r.created == w.clock
    case DeliverDM(id, r, _, _, _) => id !in w.composed.v && r.created == w.clock
    case Pump(n) => n in w.queue.v && w.queue.v[n] != []
    case Reach(n, k) => n in w.down.v && k < |w.down.v[n]|
    case Lose(n, k) => n in w.down.v && k < |w.down.v[n]|
    case Fetched(n, id) => id in w.used.v && Has(At(w.phone.v, n), id)
    case Acked(n, k) => n in w.up.v && k < |w.up.v[n]|
    case LoseAck(n, k) => n in w.up.v && k < |w.up.v[n]|
    case Register(n, ids, room) => |room| == |ids| && Lists(w.outbox.v, n, ids)
    case _ => true
  }

  /** ListPendingDM: ids goes once through all rows for n. */
  ghost predicate Lists(outbox: map<Id, Row>, n: Number, ids: seq<Id>) {
    && (forall i, j | 0 <= i < j < |ids| :: ids[i] != ids[j])
    && (forall id :: id in ids <==> id in outbox && outbox[id].to == n)
  }

  function Next(w: World, s: Step): World
    requires Can(w, s)
  {
    match s
    case Compose(n, m) =>
      w.(phone := Cell(Phone(w, n, AddOrUpdate(At(w.phone.v, n), m))), composed := Cell(w.composed.v + {m.id}))
    case Fail(n, id) => w.(phone := Cell(Phone(w, n, Rewrite(At(w.phone.v, n), id, false))))
    case SendDM(cid, id, r, known, room, room2) => Send(w, cid, id, r, known, room, room2)
    case DeliverDM(id, r, known, room, replied) => Accept(w, id, r, known, room, replied)
    case Pump(n) =>
      w.(queue := Cell(w.queue.v[n := w.queue.v[n][1..]]),
        down := Cell(w.down.v[n := At(w.down.v, n) + [w.queue.v[n][0]]]))
    case Reach(n, k) => Arrive(w, n, k)
    case Lose(n, k) => w.(down := Cell(w.down.v[n := Cut(w.down.v[n], k)]))
    case Fetched(n, id) =>
      w.(phone := Cell(Phone(w, n, Rewrite(At(w.phone.v, n), id, true))), up := Cell(w.up.v[n := At(w.up.v, n) + [id]]))
    case Acked(n, k) => Release(w.(up := Cell(w.up.v[n := Cut(w.up.v[n], k)])), n, w.up.v[n][k])
    case LoseAck(n, k) => w.(up := Cell(w.up.v[n := Cut(w.up.v[n], k)]))
    case Register(n, ids, room) => Flush(Superseded(w, n).(queue := Cell(w.queue.v[n := []])), n, ids, room)
    case Disconnect(n) => Superseded(w, n).(queue := Cell(w.queue.v - {n}))
    case PruneOld => Prune(w)
    case Clock(t) => w.(clock := t)
    case Open(n, peer) => w.(phone := Cell(Phone(w, n, MarkRead(At(w.phone.v, n), peer))))
  }

  /** The listed socket of n is listed no more; what is in its send buffer may still go out, or be lost. */
  function Superseded(w: World, n: Number): World {
    w.(down := Cell(w.down.v[n := At(w.down.v, n) + At(w.queue.v, n)]))
  }

  ghost predicate Run(ws: seq<World>, steps: seq<Step>) {
    && |ws| == |steps| + 1 && ws[0] == START
    && forall i | 0 <= i < |steps| :: Can(ws[i], steps[i]) && ws[i + 1] == Next(ws[i], steps[i])
  }

  // ---- The invariant ----

  /** An event on its way names ids that mean what it says. */
  predicate Sound(e: Event, used: set<Id>, given: map<Id, Id>) {
    e.id in used && (e.Status? ==> e.cid in given && given[e.cid] == e.id)
  }

  ghost predicate Events(q: map<Number, seq<Event>>, used: set<Id>, given: map<Id, Id>) {
    forall n, i | n in q && 0 <= i < |q[n]| :: Sound(q[n][i], used, given)
  }

  ghost predicate Ids(used: set<Id>, composed: set<Id>, given: map<Id, Id>, outbox: map<Id, Row>) {
    && (forall id | id in used :: id !in composed) && (forall id | id in outbox :: id in used)
    && (forall c | c in given :: c in composed && given[c] in used)
  }

  /** A message on a phone is filed under its client id, or under the message id that was given. */
  predicate Filed(m: Message, composed: set<Id>, given: map<Id, Id>) {
    m.clientId.Some? ==>
      m.clientId.value in composed
        && (m.id == m.clientId.value || (m.clientId.value in given && m.id == given[m.clientId.value]))
  }

  ghost predicate Phones(phone: map<Number, seq<Message>>, composed: set<Id>, given: map<Id, Id>) {
    && (forall n | n in phone :: UniqueIds(phone[n]))
    && (forall n, i | n in phone && 0 <= i < |phone[n]| :: Filed(phone[n][i], composed, given))
  }

  ghost predicate AcksHeld(up: map<Number, seq<Id>>, phone: map<Number, seq<Message>>, used: set<Id>) {
    forall n, i | n in up && 0 <= i < |up[n]| :: up[n][i] in used && Has(At(phone, n), up[n][i])
  }

  predicate Safe(w: World, id: Id, n: Number) {
    || (id in w.outbox.v && w.outbox.v[id].to == n)
    || Has(At(w.phone.v, n), id)
    || ((id, n) in w.pruned.v && w.pruned.v[(id, n)] > QUEUE_TTL)
  }

  ghost predicate ToldSafe(w: World) {
    forall id, n | (id, n) in w.told.v :: id in w.used.v && Safe(w, id, n)
  }

  ghost predicate AnnouncedHeld(announced: multiset<(Number, Id)>, phone: map<Number, seq<Message>>, used: set<Id>) {
    forall n, id | (n, id) in announced :: announced[(n, id)] == 1 && id in used && Has(At(phone, n), id)
  }

  ghost predicate Ok(w: World) {
    && Events(w.queue.v, w.used.v, w.given.v) && Events(w.down.v, w.used.v, w.given.v)
    && Ids(w.used.v, w.composed.v, w.given.v, w.outbox.v)
    && Phones(w.phone.v, w.composed.v, w.given.v)
    && AcksHeld(w.up.v, w.phone.v, w.used.v) && ToldSafe(w)
    && AnnouncedHeld(w.announced.v, w.phone.v, w.used.v)
  }

  // ---- What the phone keeps ----

  /** m is filed, and its id is used up to what is composed and given. */
  ghost predicate AllFiled(items: seq<Message>, composed: set<Id>, given: map<Id, Id>) {
    forall i | 0 <= i < |items| :: Filed(items[i], composed, given)
  }

  lemma {:induction false} AddFiled(items: seq<Message>, m: Message, composed: set<Id>, given: map<Id, Id>)
    requires AllFiled(items, composed, given) && Filed(m, composed, given)
    ensures AllFiled(AddOrUpdate(items, m), composed, given)
  {
    FindHas(items, m.id);
    if Find(items, m.id).None? {
      Appended(items, m);
    } else {
      var i := First(items, m.id);
      UpdatedAt(items, m, i);
    }
  }

  lemma {:induction false} WithoutFiled(items: seq<Message>, id: Id, composed: set<Id>, given: map<Id, Id>)
    requires AllFiled(items, composed, given)
    ensures AllFiled(Without(items, id), composed, given)
    decreases |items|
  {
    if items != [] {
      var m, rest := items[0], Without(items[1..], id);
      assert forall i | 0 <= i < |items[1..]| :: items[1..][i] == items[i + 1];
      WithoutFiled(items[1..], id, composed, given);
      if m.id != id {
        assert forall i | 0 < i < |[m] + rest| :: ([m] + rest)[i] == rest[i - 1];
      }
    }
  }

  lemma {:induction false} FoundFiled(items: seq<Message>, id: Id, composed: set<Id>, given: map<Id, Id>)
    requires AllFiled(items, composed, given)
    ensures Find(items, id).Some? ==> Filed(Find(items, id).value, composed, given)
    ensures FindClient(items, id).Some? ==>
      Filed(FindClient(items, id).value, composed, given) && FindClient(items, id).value.clientId == Some(id)
    decreases |items|
  {
    if items != [] {
      assert Filed(items[0], composed, given);
      assert forall i | 0 <= i < |items[1..]| :: items[1..][i] == items[i + 1];
      FoundFiled(items[1..], id, composed, given);
    }
  }

  /** Whatever an update does, message ids stay on the phone, unique, and filed as they should be. */
  ghost predicate Good(items: seq<Message>, composed: set<Id>, given: map<Id, Id>) {
    UniqueIds(items) && AllFiled(items, composed, given)
  }

  lemma {:induction false} ReceiveGood(items: seq<Message>, e: Event, composed: set<Id>, given: map<Id, Id>, x: Id)
    requires Good(items, composed, given) && e.New?
    ensures Good(Receive(items, e), composed, given)
    ensures Has(Receive(items, e), x) <==> x == e.id || Has(items, x)
  {
    AddUnique(items, Inbound(e));
    AddFiled(items, Inbound(e), composed, given);
    AddHas(items, Inbound(e), x);
  }

  lemma {:induction false} SettleGood(items: seq<Message>, cid: Id, id: Id, used: set<Id>, composed: set<Id>,
                                      given: map<Id, Id>, x: Id)
    requires Good(items, composed, given) && cid in given && given[cid] == id
    requires (forall u | u in used :: u !in composed) && (forall c | c in given :: c in composed && given[c] in used)
    ensures Good(Settle(items, cid, id), composed, given)
    ensures x in used && Has(items, x) ==> Has(Settle(items, cid, id), x)
  {
    var mine := FindClient(items, cid);
    var was := if mine.Some? then mine else Find(items, cid);
    if was.Some? {
      var o := was.value;
      var m := o.(id := id, read := true);
      FoundFiled(items, cid, composed, given);
      FindHas(items, cid);
      assert Filed(o, composed, given);
      if mine.None? && o.clientId.Some? {
        assert o.id == cid && o.clientId.value == cid;
      }
      SettleFiled(o, cid, id, composed, given, mine.Some?);
      WithoutUnique(items, o.id);
      AddUnique(Without(items, o.id), m);
      WithoutFiled(items, o.id, composed, given);
      AddFiled(Without(items, o.id), m, composed, given);
      WithoutHas(items, o.id, x);
      AddHas(Without(items, o.id), m, x);
    }
  }

  /** A message filed under a client id, found by it, is that client's own. */
  lemma {:induction false} SettleFiled(o: Message, cid: Id, id: Id, composed: set<Id>, given: map<Id, Id>, mine: bool)
    requires Filed(o, composed, given) && cid in given && given[cid] == id && cid in composed
    requires if mine then o.clientId == Some(cid) else o.id == cid
    requires !mine ==> o.clientId.None? || o.clientId == Some(cid)
    ensures Filed(o.(id := id, read := true), composed, given)
  {}

  lemma {:induction false} RewriteGood(items: seq<Message>, id: Id, cached: bool, composed: set<Id>,
                                       given: map<Id, Id>, x: Id)
    requires Good(items, composed, given)
    ensures Good(Rewrite(items, id, cached), composed, given)
    ensures Has(Rewrite(items, id, cached), x) <==> Has(items, x)
  {
    var was := Find(items, id);
    FindHas(items, id);
    if was.Some? {
      var m := was.value.(cached := cached || was.value.cached);
      FoundFiled(items, id, composed, given);
      WithoutUnique(items, id);
      AddUnique(Without(items, id), m);
      WithoutFiled(items, id, composed, given);
      AddFiled(Without(items, id), m, composed, given);
      WithoutHas(items, id, x);
      AddHas(Without(items, id), m, x);
    }
  }

  lemma {:induction false} ReadGood(items: seq<Message>, peer: Peer, composed: set<Id>, given: map<Id, Id>, x: Id)
    requires Good(items, composed, given)
    ensures Good(MarkRead(items, peer), composed, given)
    ensures Has(MarkRead(items, peer), x) <==> Has(items, x)
  {
    MarkReadIds(items, peer, x);
    var r := MarkRead(items, peer);
    assert forall i | 0 <= i < |items| :: r[i].id == items[i].id && r[i].clientId == items[i].clientId;
  }

  // ---- Each step ----

  lemma {:induction false} OfferEvents(q: map<Number, seq<Event>>, n: Number, e: Event, room: bool, used: set<Id>,
                                       given: map<Id, Id>)
    requires Events(q, used, given) && Sound(e, used, given)
    ensures Events(Offer(q, n, e, room), used, given)
  {}

  lemma {:induction false} MoreEvents(q: map<Number, seq<Event>>, used: set<Id>, given: map<Id, Id>, used': set<Id>,
                                      given': map<Id, Id>)
    requires Events(q, used, given) && used <= used' && (forall c | c in given :: c in given' && given'[c] == given[c])
    ensures Events(q, used', given')
  {}

  lemma {:induction false} EnqueueOk(w: World, id: Id, r: Row, room: bool)
    requires Ok(w) && id !in w.outbox.v && id !in w.composed.v
    ensures Ok(Enqueue(w, id, r, room)) && Safe(Enqueue(w, id, r, room), id, r.to)
  {
    hide Events;
    var used := w.used.v + {id};
    MoreEvents(w.queue.v, w.used.v, w.given.v, used, w.given.v);
    MoreEvents(w.down.v, w.used.v, w.given.v, used, w.given.v);
    OfferEvents(w.queue.v, r.to, Notice(id, r), room, used, w.given.v);
  }

  lemma {:induction false} SendOk(w: World, cid: Id, id: Id, r: Row, known: bool, room: bool, room2: bool)
    requires Ok(w) && Can(w, SendDM(cid, id, r, known, room, room2))
    ensures Ok(Send(w, cid, id, r, known, room, room2))
  {
    if known {
      assert id !in w.outbox.v;
      EnqueueOk(w, id, r, room);
      var s := Enqueue(w, id, r, room);
      GiveOk(s, cid, id);
      var s1 := s.(given := Cell(w.given.v[cid := id]));
      OfferEvents(s1.queue.v, r.from, Status(cid, id), room2, s1.used.v, s1.given.v);
      hide Events, Phones, Offer, Enqueue;
      TellOk(s1, Send(w, cid, id, r, known, room, room2), id, r.to);
    }
  }

  /** A client id that has been given no message id yet is given one. */
  lemma {:induction false} GiveOk(w: World, cid: Id, id: Id)
    requires Ok(w) && cid in w.composed.v && cid !in w.given.v && id in w.used.v
    ensures Ok(w.(given := Cell(w.given.v[cid := id])))
  {
    MoreEvents(w.queue.v, w.used.v, w.given.v, w.used.v, w.given.v[cid := id]);
    MoreEvents(w.down.v, w.used.v, w.given.v, w.used.v, w.given.v[cid := id]);
    hide Events;
  }

  lemma {:induction false} TellOk(w: World, w': World, id: Id, n: Number)
    requires Ok(w) && id in w.used.v && Safe(w, id, n)
    requires w' == w.(told := Cell(w.told.v + {(id, n)}), queue := w'.queue) && Events(w'.queue.v, w.used.v, w.given.v)
    ensures Ok(w')
  {
    hide Events, Phones;
  }

  lemma {:induction false} AcceptOk(w: World, id: Id, r: Row, known: bool, room: bool, replied: bool)
    requires Ok(w) && id !in w.composed.v
    ensures Ok(Accept(w, id, r, known, room, replied))
  {
    hide Enqueue;
    if known && id !in w.outbox.v {
      EnqueueOk(w, id, r, room);
      EnqueueUsed(w, id, r, room);
      var s := Enqueue(w, id, r, room);
      hide Ok;
      OkEvents(s);
      TellOk(s, s.(told := Cell(w.told.v + {(id, r.to)})), id, r.to);
    }
  }

  lemma {:induction false} EnqueueUsed(w: World, id: Id, r: Row, room: bool)
    ensures id in Enqueue(w, id, r, room).used.v && Enqueue(w, id, r, room).told == w.told
  {}

  lemma {:induction false} OkEvents(w: World)
    requires Ok(w)
    ensures Events(w.queue.v, w.used.v, w.given.v)
  {}

  /** An acknowledged message is on the phone, so the outbox may let it go. */
  lemma {:induction false} AckedOk(w: World, n: Number, k: nat)
    requires Ok(w) && n in w.up.v && k < |w.up.v[n]|
    ensures Ok(Next(w, LoseAck(n, k))) && Ok(Next(w, Acked(n, k)))
  {
    AcksCut(w, n, k);
    hide Events, Phones, Has, AcksHeld, Cut;
  }

  lemma {:induction false} AcksCut(w: World, n: Number, k: nat)
    requires AcksHeld(w.up.v, w.phone.v, w.used.v) && n in w.up.v && k < |w.up.v[n]|
    ensures AcksHeld(w.up.v[n := Cut(w.up.v[n], k)], w.phone.v, w.used.v) && Has(At(w.phone.v, n), w.up.v[n][k])
  {
    hide Has;
  }

  lemma {:induction false} FlushOk(w: World, n: Number, ids: seq<Id>, rooms: seq<bool>)
    requires Ok(w) && |rooms| == |ids|
    ensures Ok(Flush(w, n, ids, rooms))
    decreases |ids|
  {
    hide Ok;
    if ids != [] {
      var s := if ids[0] in w.outbox.v && w.outbox.v[ids[0]].to == n
               then w.(queue := Cell(Offer(w.queue.v, n, Notice(ids[0], w.outbox.v[ids[0]]), rooms[0]))) else w;
      if ids[0] in w.outbox.v {
        OfferOk(w, n, ids[0], rooms[0]);
      }
      FlushOk(s, n, ids[1..], rooms[1..]);
    }
  }

  lemma {:induction false} OfferOk(w: World, n: Number, id: Id, room: bool)
    requires Ok(w) && id in w.outbox.v
    ensures Ok(w.(queue := Cell(Offer(w.queue.v, n, Notice(id, w.outbox.v[id]), room))))
  {
    OfferEvents(w.queue.v, n, Notice(id, w.outbox.v[id]), room, w.used.v, w.given.v);
    hide Events, Phones, AcksHeld, AnnouncedHeld;
  }

  lemma {:induction false} PruneOk(w: World)
    requires Ok(w)
    ensures Ok(Prune(w))
  {
    hide Events, Phones, AcksHeld, AnnouncedHeld, Has;
  }

  lemma {:induction false} SocketOk(w: World, s: Step)
    requires Ok(w) && Can(w, s) && (s.Pump? || s.Clock?)
    ensures Ok(Next(w, s))
  {
    hide Phones, AnnouncedHeld, Has;
  }

  lemma {:induction false} RegisterOk(w: World, n: Number, ids: seq<Id>, rooms: seq<bool>)
    requires Ok(w) && Can(w, Register(n, ids, rooms))
    ensures Ok(Next(w, Register(n, ids, rooms)))
  {
    hide Flush, Superseded, Lists;
    SupersededOk(w, n);
    FlushOk(Superseded(w, n).(queue := Cell(w.queue.v[n := []])), n, ids, rooms);
    hide Ok;
  }

  lemma {:induction false} SupersededOk(w: World, n: Number)
    requires Ok(w)
    ensures Ok(Superseded(w, n).(queue := Cell(w.queue.v[n := []])))
      && Ok(Superseded(w, n).(queue := Cell(w.queue.v - {n})))
  {
    JoinedEvents(w, n);
    hide Phones, AnnouncedHeld, Has, AcksHeld, Sound;
  }

  lemma {:induction false} JoinedEvents(w: World, n: Number)
    requires Events(w.queue.v, w.used.v, w.given.v) && Events(w.down.v, w.used.v, w.given.v)
    ensures Events(w.down.v[n := At(w.down.v, n) + At(w.queue.v, n)], w.used.v, w.given.v)
  {
    hide Sound;
  }

  /** A phone's list is replaced by a good one that has lost no message id. */
  ghost predicate Keeps(w: World, n: Number, items: seq<Message>) {
    && Good(items, w.composed.v, w.given.v)
    && forall x | x in w.used.v && Has(At(w.phone.v, n), x) :: Has(items, x)
  }

  lemma {:induction false} PhoneOk(w: World, n: Number, items: seq<Message>)
    requires Ok(w) && Keeps(w, n, items)
    ensures Ok(w.(phone := Cell(Phone(w, n, items))))
  {
    hide Events, UniqueIds, Filed, Has;
  }

  lemma {:induction false} ListGood(w: World, n: Number)
    requires Ok(w)
    ensures Good(At(w.phone.v, n), w.composed.v, w.given.v)
  {
    hide Events, Filed;
  }

  lemma {:induction false} FailOk(w: World, n: Number, id: Id)
    requires Ok(w)
    ensures Ok(Next(w, Fail(n, id)))
  {
    hide Ok, Has;
    var items := At(w.phone.v, n);
    ListGood(w, n);
    forall x ensures Has(Rewrite(items, id, false), x) <==> Has(items, x) {
      RewriteGood(items, id, false, w.composed.v, w.given.v, x);
    }
    RewriteGood(items, id, false, w.composed.v, w.given.v, id);
    PhoneOk(w, n, Rewrite(items, id, false));
  }

  lemma {:induction false} OpenOk(w: World, n: Number, peer: Number)
    requires Ok(w)
    ensures Ok(Next(w, Open(n, peer)))
  {
    hide Ok, Has;
    var items := At(w.phone.v, n);
    ListGood(w, n);
    forall x ensures Has(MarkRead(items, peer), x) <==> Has(items, x) {
      ReadGood(items, peer, w.composed.v, w.given.v, x);
    }
    PhoneOk(w, n, MarkRead(items, peer));
  }

  lemma {:induction false} ComposeOk(w: World, n: Number, m: Message)
    requires Ok(w) && Can(w, Compose(n, m))
    ensures Ok(Next(w, Compose(n, m)))
  {
    hide Has;
    var w1 := w.(composed := Cell(w.composed.v + {m.id}));
    ComposedOk(w, m.id);
    hide Ok;
    var items := At(w.phone.v, n);
    ListGood(w1, n);
    AddUnique(items, m);
    AddFiled(items, m, w1.composed.v, w1.given.v);
    forall x ensures Has(items, x) ==> Has(AddOrUpdate(items, m), x) { AddHas(items, m, x); }
    PhoneOk(w1, n, AddOrUpdate(items, m));
  }

  lemma {:induction false} ComposedOk(w: World, cid: Id)
    requires Ok(w) && cid !in w.used.v
    ensures Ok(w.(composed := Cell(w.composed.v + {cid})))
  {
    hide Events, Has;
  }

  /** An acknowledgement is sent only for what is on the phone. */
  lemma {:induction false} AckOk(w: World, n: Number, id: Id)
    requires Ok(w) && id in w.used.v && Has(At(w.phone.v, n), id)
    ensures Ok(w.(up := Cell(w.up.v[n := At(w.up.v, n) + [id]])))
  {
    hide Events, Phones, Has;
  }

  lemma {:induction false} FetchedOk(w: World, n: Number, id: Id)
    requires Ok(w) && id in w.used.v && Has(At(w.phone.v, n), id)
    ensures Ok(Next(w, Fetched(n, id)))
  {
    hide Ok, Has;
    var items := At(w.phone.v, n);
    ListGood(w, n);
    forall x ensures Has(Rewrite(items, id, true), x) <==> Has(items, x) {
      RewriteGood(items, id, true, w.composed.v, w.given.v, x);
    }
    RewriteGood(items, id, true, w.composed.v, w.given.v, id);
    PhoneOk(w, n, Rewrite(items, id, true));
    AckOk(w.(phone := Cell(Phone(w, n, Rewrite(items, id, true)))), n, id);
  }

  lemma {:induction false} TakeEvent(w: World, n: Number, k: nat)
    requires Ok(w) && n in w.down.v && k < |w.down.v[n]|
    ensures Sound(w.down.v[n][k], w.used.v, w.given.v)
    ensures Ok(w.(down := Cell(w.down.v[n := Cut(w.down.v[n], k)])))
  {
    EventsCut(w.down.v, w.used.v, w.given.v, n, k);
    hide Phones, AnnouncedHeld, Has, Events, Cut;
  }

  lemma {:induction false} EventsCut(down: map<Number, seq<Event>>, used: set<Id>, given: map<Id, Id>, n: Number,
                                     k: nat)
    requires Events(down, used, given) && n in down && k < |down[n]|
    ensures Sound(down[n][k], used, given) && Events(down[n := Cut(down[n], k)], used, given)
  {
    hide Sound;
  }

  lemma {:induction false} AnnounceOk(w: World, n: Number, id: Id)
    requires Ok(w) && id in w.used.v && Has(At(w.phone.v, n), id) && (n, id) !in w.announced.v
    ensures Ok(w.(announced := Cell(w.announced.v + multiset{(n, id)})))
  {
    hide Events, Phones, Has;
  }

  lemma {:induction false} NotAnnounced(w: World, n: Number, id: Id)
    requires Ok(w) && !Has(At(w.phone.v, n), id)
    ensures (n, id) !in w.announced.v
  {
    hide Events, Phones, Has;
  }

  lemma {:induction false} ArriveOk(w: World, n: Number, k: nat)
    requires Ok(w) && n in w.down.v && k < |w.down.v[n]|
    ensures Ok(Arrive(w, n, k))
  {
    hide Has, Receive, Settle, Cut;
    TakeEvent(w, n, k);
    IdsOk(w);
    var e := w.down.v[n][k];
    var s := w.(down := Cell(w.down.v[n := Cut(w.down.v[n], k)]));
    var items := At(w.phone.v, n);
    ListGood(w, n);
    hide Ok, Good;
    match e
    case New(id, from, image, body, at) =>
      forall x ensures Has(Receive(items, e), x) <==> x == id || Has(items, x) {
        ReceiveGood(items, e, w.composed.v, w.given.v, x);
      }
      ReceiveGood(items, e, w.composed.v, w.given.v, id);
      NotAnnouncedIf(w, n, id);
      var s1 := s.(phone := Cell(Phone(w, n, Receive(items, e))));
      PhoneOk(s, n, Receive(items, e));
      var s2 := if image then s1 else s1.(up := Cell(s1.up.v[n := At(s1.up.v, n) + [id]]));
      AckOk(s1, n, id);
      if !Has(items, id) {
        AnnounceOk(s2, n, id);
      }
    case Status(cid, id) =>
      forall x ensures x in w.used.v && Has(items, x) ==> Has(Settle(items, cid, id), x) {
        SettleGood(items, cid, id, w.used.v, w.composed.v, w.given.v, x);
      }
      SettleGood(items, cid, id, w.used.v, w.composed.v, w.given.v, id);
      PhoneOk(s, n, Settle(items, cid, id));
  }

  lemma {:induction false} NotAnnouncedIf(w: World, n: Number, id: Id)
    requires Ok(w)
    ensures !Has(At(w.phone.v, n), id) ==> (n, id) !in w.announced.v
  {
    hide Ok, Has;
    if !Has(At(w.phone.v, n), id) {
      NotAnnounced(w, n, id);
    }
  }

  lemma {:induction false} IdsOk(w: World)
    requires Ok(w)
    ensures (forall u | u in w.used.v :: u !in w.composed.v)
      && (forall c | c in w.given.v :: c in w.composed.v && w.given.v[c] in w.used.v)
  {
    hide Events, Phones, Has;
  }

  lemma {:induction false} StepOk(w: World, s: Step)
    requires Ok(w) && Can(w, s)
    ensures Ok(Next(w, s))
  {
    hide Ok, Send, Accept, Flush, Release, Arrive, Prune, Has, Superseded, Cut, Lists;
    match s
    case Compose(n, m) => ComposeOk(w, n, m);
    case Fail(n, id) => FailOk(w, n, id);
    case SendDM(cid, id, r, known, room, room2) => SendOk(w, cid, id, r, known, room, room2);
    case DeliverDM(id, r, known, room, replied) => AcceptOk(w, id, r, known, room, replied);
    case Pump(n) => SocketOk(w, s);
    case Reach(n, k) => ArriveOk(w, n, k);
    case Lose(n, k) => TakeEvent(w, n, k);
    case Fetched(n, id) => FetchedOk(w, n, id);
    case Acked(n, k) => AckedOk(w, n, k);
    case LoseAck(n, k) => AckedOk(w, n, k);
    case Register(n, ids, rooms) => RegisterOk(w, n, ids, rooms);
    case Disconnect(n) => SupersededOk(w, n);
    case PruneOld => PruneOk(w);
    case Clock(t) => SocketOk(w, s);
    case Open(n, peer) => OpenOk(w, n, peer);
  }

  lemma {:induction false} RunOk(ws: seq<World>, steps: seq<Step>, i: nat)
    requires Run(ws, steps) && i < |ws|
    ensures Ok(ws[i])
  {
    hide Ok, Can, Next;
    if i == 0 {
      StartOk();
    } else {
      RunOk(ws, steps, i - 1);
      StepOk(ws[i - 1], steps[i - 1]);
    }
  }

  lemma {:induction false} StartOk()
    ensures Ok(START)
  {}

  // ---- What that means ----

  /**
    No message is lost: once its sender was told "delivered", it is in the recipient's outbox, or on the
    recipient's phone, or was dropped from the outbox more than seven days old.
   */
  lemma {:induction false} NothingLost(ws: seq<World>, steps: seq<Step>, i: nat, id: Id, n: Number)
    requires Run(ws, steps) && i < |ws| && (id, n) in ws[i].told.v
    ensures var w := ws[i];
            || (id in w.outbox.v && w.outbox.v[id].to == n)
            || Has(At(w.phone.v, n), id)
            || ((id, n) in w.pruned.v && w.pruned.v[(id, n)] > QUEUE_TTL)
  {
    hide Can, Next, Events, Phones, AcksHeld, AnnouncedHeld, Has;
    RunOk(ws, steps, i);
    assert Safe(ws[i], id, n);
  }

  /** Whenever an acknowledgement is on its way, the phone has the message it is for. */
  lemma {:induction false} AckMeansStored(ws: seq<World>, steps: seq<Step>, i: nat, n: Number, k: nat)
    requires Run(ws, steps) && i < |ws| && n in ws[i].up.v && k < |ws[i].up.v[n]|
    ensures Has(At(ws[i].phone.v, n), ws[i].up.v[n][k])
  {
    hide Can, Next, Events, Phones, AnnouncedHeld, Has;
    RunOk(ws, steps, i);
  }

  /** A phone never has two messages with one id, and announces each message as new at most once. */
  lemma {:induction false} ExactlyOnce(ws: seq<World>, steps: seq<Step>, i: nat, n: Number, id: Id)
    requires Run(ws, steps) && i < |ws|
    ensures UniqueIds(At(ws[i].phone.v, n)) && ws[i].announced.v[(n, id)] <= 1
  {
    hide Can, Next, Has;
    RunOk(ws, steps, i);
    ListGood(ws[i], n);
    AnnouncedCount(ws[i], n, id);
    hide Ok;
  }

  lemma {:induction false} AnnouncedCount(w: World, n: Number, id: Id)
    requires Ok(w)
    ensures w.announced.v[(n, id)] <= 1
  {
    hide Events, Phones, Has;
    if (n, id) in w.announced.v {
      assert w.announced.v[(n, id)] == 1;
    }
  }

  // ---- A flush ----

  function Notices(outbox: map<Id, Row>, ids: seq<Id>): seq<Event>
    requires forall id | id in ids :: id in outbox
  {
    seq(|ids|, k requires 0 <= k < |ids| => Notice(ids[k], outbox[ids[k]]))
  }

  /** What a flush adds to the buffer: some of the notices, and all of them exactly when there is room for each. */
  lemma {:induction false} FlushAdds(w: World, n: Number, ids: seq<Id>, rooms: seq<bool>)
    requires |rooms| == |ids| && n in w.queue.v && |w.queue.v[n]| <= BUFFER
    requires forall id | id in ids :: id in w.outbox.v && w.outbox.v[id].to == n
    ensures var w' := Flush(w, n, ids, rooms); n in w'.queue.v && w'.outbox == w.outbox
    ensures Added(w.queue.v[n], Flush(w, n, ids, rooms).queue.v[n], Notices(w.outbox.v, ids), rooms)
    decreases |ids|
  {
    hide Notice, Notices, Added;
    if ids == [] {
      NoneAdded(w.queue.v[n], w.outbox.v, rooms);
    } else {
      var e := Notice(ids[0], w.outbox.v[ids[0]]);
      var s := w.(queue := Cell(Offer(w.queue.v, n, e, rooms[0])));
      FlushAdds(s, n, ids[1..], rooms[1..]);
      NoticesCons(w.outbox.v, ids);
      OneAdded(w.queue.v[n], s.queue.v[n], Flush(w, n, ids, rooms).queue.v[n], e, Notices(w.outbox.v, ids[1..]), rooms);
    }
  }

  ghost predicate Added(q: seq<Event>, q': seq<Event>, all: seq<Event>, rooms: seq<bool>) {
    && multiset(q') <= multiset(q) + multiset(all)
    && if |q| + |all| <= BUFFER && (forall k | 0 <= k < |rooms| :: rooms[k]) then q' == q + all else |q'| < |q| + |all|
  }

  lemma {:induction false} NoneAdded(q: seq<Event>, outbox: map<Id, Row>, rooms: seq<bool>)
    requires |q| <= BUFFER && rooms == []
    ensures Added(q, q, Notices(outbox, []), rooms)
  {
    assert q + [] == q;
  }

  lemma {:induction false} NoticesCons(outbox: map<Id, Row>, ids: seq<Id>)
    requires ids != [] && forall id | id in ids :: id in outbox
    ensures Notices(outbox, ids) == [Notice(ids[0], outbox[ids[0]])] + Notices(outbox, ids[1..])
  {
    hide Notice;
  }

  lemma {:induction false} OneAdded(q: seq<Event>, q1: seq<Event>, q': seq<Event>, e: Event, rest: seq<Event>,
                                    rooms: seq<bool>)
    requires rooms != [] && q1 == (if rooms[0] && |q| < BUFFER then q + [e] else q) && |q| <= BUFFER
    requires Added(q1, q', rest, rooms[1..])
    ensures Added(q, q', [e] + rest, rooms)
  {
    assert (forall k | 0 <= k < |rooms| :: rooms[k])
      <==> rooms[0] && (forall k | 0 <= k < |rooms[1..]| :: rooms[1..][k]);
    assert q + [e] + rest == q + ([e] + rest);
    assert multiset(q1) <= multiset(q) + multiset{e};
    assert multiset([e] + rest) == multiset{e} + multiset(rest);
  }

  lemma {:induction false} NoticesOnce(outbox: map<Id, Row>, ids: seq<Id>)
    requires forall id | id in ids :: id in outbox
    requires forall i, j | 0 <= i < j < |ids| :: ids[i] != ids[j]
    ensures forall id | id in ids :: multiset(Notices(outbox, ids))[Notice(id, outbox[id])] == 1
    ensures forall e | e in Notices(outbox, ids) :: e.New? && e.id in ids && e == Notice(e.id, outbox[e.id])
    decreases |ids|
  {
    if ids != [] {
      var id, rest := ids[0], ids[1..];
      NoticesOnce(outbox, rest);
      var e := Notice(id, outbox[id]);
      NoticesCons(outbox, ids);
      assert forall x | x in rest :: x != id;
    }
  }

  lemma {:induction false} BagSize(a: multiset<Event>, b: multiset<Event>)
    requires a <= b
    ensures |a| <= |b|
  {
    assert b == a + (b - a);
  }

  /** The notice of each row for n is in the buffer, once. */
  ghost predicate AllOffered(w: World, w': World, n: Number) {
    forall id | id in w.outbox.v && w.outbox.v[id].to == n ::
      n in w'.queue.v && multiset(w'.queue.v[n])[Notice(id, w.outbox.v[id])] == 1
  }

  /** Nothing else is, and nothing twice. */
  ghost predicate OnlyOffered(w: World, w': World, n: Number) {
    && n in w'.queue.v
    && forall e | e in w'.queue.v[n] ::
         e.New? && e.id in w.outbox.v && w.outbox.v[e.id].to == n && e == Notice(e.id, w.outbox.v[e.id])
         && multiset(w'.queue.v[n])[e] == 1
  }

  /**
    Registering offers messages queued for the number only, none twice; and it offers each of them exactly when the
    buffer has room for all.
   */
  lemma {:induction false} FlushOffersIff(w: World, n: Number, ids: seq<Id>, rooms: seq<bool>)
    requires Can(w, Register(n, ids, rooms))
    ensures var w' := Next(w, Register(n, ids, rooms));
            && OnlyOffered(w, w', n) && w'.outbox == w.outbox
            && (AllOffered(w, w', n) <==> |ids| <= 64 && forall k | 0 <= k < |ids| :: rooms[k])
  {
    hide Flush, Notice, Notices;
    var s := Superseded(w, n).(queue := Cell(w.queue.v[n := []]));
    FlushAdds(s, n, ids, rooms);
    NoticesOnce(w.outbox.v, ids);
    NoticesLength(w.outbox.v, ids);
    var q := Flush(s, n, ids, rooms).queue.v[n];
    var all := Notices(w.outbox.v, ids);
    assert multiset(q) <= multiset(all) && [] + all == all;
    FlushedOnly(w, Next(w, Register(n, ids, rooms)), n, ids);
    if AllOffered(w, Next(w, Register(n, ids, rooms)), n) {
      forall e | e in all ensures multiset(all)[e] <= multiset(q)[e] {}
      assert multiset(all) <= multiset(q);
      BagSize(multiset(all), multiset(q));
    }
  }

  lemma {:induction false} NoticesLength(outbox: map<Id, Row>, ids: seq<Id>)
    requires forall id | id in ids :: id in outbox
    ensures |Notices(outbox, ids)| == |ids|
  {}

  lemma {:induction false} FlushedOnly(w: World, w': World, n: Number, ids: seq<Id>)
    requires Lists(w.outbox.v, n, ids) && n in w'.queue.v
    requires multiset(w'.queue.v[n]) <= multiset(Notices(w.outbox.v, ids))
    ensures OnlyOffered(w, w', n)
  {
    NoticesOnce(w.outbox.v, ids);
    hide Notice, Notices;
    forall e | e in w'.queue.v[n]
      ensures e in Notices(w.outbox.v, ids) && multiset(w'.queue.v[n])[e] == 1
    {
      assert e in multiset(w'.queue.v[n]);
      assert e in multiset(Notices(w.outbox.v, ids));
    }
  }

  // ---- Delivered a second time ----

  /** The step takes the row out of the outbox: its recipient acknowledges it, or it is pruned. */
  predicate Releases(w: World, s: Step, id: Id)
    requires Can(w, s)
  {
    id in w.outbox.v &&
    match s
    case Acked(n, k) => w.up.v[n][k] == id && w.outbox.v[id].to == n
    case PruneOld => Stale(w.outbox.v[id], w.clock)
    case _ => false
  }

  lemma {:induction false} FlushLeaves(w: World, n: Number, ids: seq<Id>, rooms: seq<bool>)
    requires |rooms| == |ids|
    ensures Flush(w, n, ids, rooms).outbox == w.outbox
    decreases |ids|
  {
    if ids != [] {
      var s := if ids[0] in w.outbox.v && w.outbox.v[ids[0]].to == n
               then w.(queue := Cell(Offer(w.queue.v, n, Notice(ids[0], w.outbox.v[ids[0]]), rooms[0]))) else w;
      FlushLeaves(s, n, ids[1..], rooms[1..]);
    }
  }

  lemma {:induction false} RowLeaves(w: World, s: Step, id: Id)
    requires Can(w, s) && id in w.used.v && !(s.DeliverDM? && s.id == id)
    ensures id in Next(w, s).outbox.v <==> id in w.outbox.v && !Releases(w, s, id)
    ensures id in Next(w, s).used.v
  {
    hide Lists, Offer;
    if s.Register? {
      FlushLeaves(Superseded(w, s.n).(queue := Cell(w.queue.v[s.n := []])), s.n, s.ids, s.rooms);
      UsedStays(Superseded(w, s.n).(queue := Cell(w.queue.v[s.n := []])), s.n, s.ids, s.rooms);
      hide Flush;
    }
  }

  lemma {:induction false} UsedStays(w: World, n: Number, ids: seq<Id>, rooms: seq<bool>)
    requires |rooms| == |ids|
    ensures Flush(w, n, ids, rooms).used == w.used
    decreases |ids|
  {
    if ids != [] {
      var s := if ids[0] in w.outbox.v && w.outbox.v[ids[0]].to == n
               then w.(queue := Cell(Offer(w.queue.v, n, Notice(ids[0], w.outbox.v[ids[0]]), rooms[0]))) else w;
      UsedStays(s, n, ids[1..], rooms[1..]);
    }
  }

  /** Between i and j nobody delivers the message again, and nothing releases it. */
  ghost predicate Undelivered(steps: seq<Step>, i: nat, j: nat, id: Id) {
    i <= j <= |steps| && forall k | i <= k < j :: !(steps[k].DeliverDM? && steps[k].id == id)
  }

  ghost predicate Unreleased(ws: seq<World>, steps: seq<Step>, i: nat, j: nat, id: Id)
    requires Run(ws, steps) && i <= j <= |steps|
  {
    forall k | i <= k < j :: !Releases(ws[k], steps[k], id)
  }

  /**
    Delivering a message again is refused, and changes nothing, exactly as long as the recipient has not
    acknowledged it and it has not been pruned; after that it is queued a second time.
   */
  lemma {:induction false} RedeliveryRefusedIff(ws: seq<World>, steps: seq<Step>, i: nat, j: nat, id: Id, r: Row,
                                                room: bool, replied: bool)
    requires Run(ws, steps) && i <= j < |ws| && id in ws[i].outbox.v && Undelivered(steps, i, j, id)
    ensures Accept(ws[j], id, r, true, room, replied) == ws[j] <==> Unreleased(ws, steps, i, j, id)
    ensures !Unreleased(ws, steps, i, j, id) ==> id in Accept(ws[j], id, r, true, room, replied).outbox.v
  {
    StillQueued(ws, steps, i, j, id);
    hide Run, Releases, Can;
    if id !in ws[j].outbox.v {
      assert id in Accept(ws[j], id, r, true, room, replied).outbox.v;
    }
  }

  lemma {:induction false} StillQueued(ws: seq<World>, steps: seq<Step>, i: nat, j: nat, id: Id)
    requires Run(ws, steps) && i <= j < |ws| && id in ws[i].outbox.v && Undelivered(steps, i, j, id)
    ensures id in ws[j].used.v && (id in ws[j].outbox.v <==> Unreleased(ws, steps, i, j, id))
  {
    hide Can, Next, Releases, Ok;
    if i == j {
      RunOk(ws, steps, i);
      OutboxUsed(ws[i], id);
    } else {
      StillQueued(ws, steps, i, j - 1, id);
      RowLeaves(ws[j - 1], steps[j - 1], id);
      NotYet(ws, steps, i, j, id);
    }
  }

  lemma {:induction false} NotYet(ws: seq<World>, steps: seq<Step>, i: nat, j: nat, id: Id)
    requires Run(ws, steps) && i < j < |ws|
    ensures Unreleased(ws, steps, i, j, id)
      <==> Unreleased(ws, steps, i, j - 1, id) && !Releases(ws[j - 1], steps[j - 1], id)
  {
    hide Can, Next, Releases;
  }

  lemma {:induction false} OutboxUsed(w: World, id: Id)
    requires Ok(w) && id in w.outbox.v
    ensures id in w.used.v
  {
    hide Events, Phones, AcksHeld, AnnouncedHeld, Has;
  }

  lemma {:induction false} OneMore(ws: seq<World>, steps: seq<Step>, s: Step) returns (ws': seq<World>,
      steps': seq<Step>)
    requires Run(ws, steps) && Can(ws[|steps|], s)
    ensures Run(ws', steps') && steps' == steps + [s] && ws' == ws + [Next(ws[|steps|], s)]
    ensures |ws'| == |steps'| + 1 && ws'[|steps'|] == Next(ws[|steps|], s)
  {
    hide Can, Next;
    ws', steps' := ws + [Next(ws[|steps|], s)], steps + [s];
  }

  const ROW := Row(1, 2, false, 0, 0, 0)

  lemma {:induction false} Delivered() returns (ws: seq<World>, steps: seq<Step>)
    ensures Run(ws, steps) && var w := ws[|steps|];
            && 1 in w.queue.v && w.queue.v[1] == [Notice(7, ROW)] && 1 in w.down.v && w.down.v[1] == []
            && 1 !in w.up.v && 1 !in w.phone.v && 7 in w.outbox.v && w.outbox.v[7] == ROW
            && w.composed.v == {} && w.clock == 0 && (7, 1) in w.told.v
  {
    hide Run, Notice;
    ws, steps := [START], [];
    assert Run(ws, steps) by { Begin(); }
    ws, steps := OneMore(ws, steps, Register(1, [], []));
    ws, steps := OneMore(ws, steps, DeliverDM(7, ROW, true, true, true));
  }

  lemma {:induction false} Arrived() returns (ws: seq<World>, steps: seq<Step>)
    ensures Run(ws, steps) && var w := ws[|steps|];
            && 1 in w.phone.v && w.phone.v[1] == [Inbound(Notice(7, ROW))] && 1 in w.up.v && w.up.v[1] == [7]
            && 7 in w.outbox.v && w.outbox.v[7] == ROW && w.composed.v == {} && w.clock == 0 && (7, 1) in w.told.v
  {
    hide Run, Lists;
    ws, steps := Delivered();
    ws, steps := OneMore(ws, steps, Pump(1));
    assert ws[|steps|].down.v[1] == [Notice(7, ROW)];
    ws, steps := OneMore(ws, steps, Reach(1, 0));
  }

  /** That happens: a message acknowledged by its phone and delivered once more is in its outbox again. */
  lemma {:induction false} Redelivered() returns (ws: seq<World>, steps: seq<Step>)
    ensures Run(ws, steps) && 7 in ws[|steps|].outbox.v && Has(At(ws[|steps|].phone.v, 1), 7)
    ensures (7, 1) in ws[|steps|].told.v
  {
    hide Run, Lists;
    ws, steps := Arrived();
    ws, steps := OneMore(ws, steps, Acked(1, 0));
    ws, steps := OneMore(ws, steps, DeliverDM(7, ROW, true, true, true));
    assert At(ws[|steps|].phone.v, 1)[0].id == 7;
  }

  lemma {:induction false} Begin()
    ensures Run([START], [])
  {}
}
