/**
  That messages arrive as they were sent.
 */
module MessageContents {
  import opened Options
  import opened DeviceStore
  import opened StoreAndForward

  // The invariants of StoreAndForward follow messages by their ids. Here is what they say, and from whom: every event
  // on its way and every record on a phone goes back to something that was done, with these very contents.

  /** What was done: a message stored for a number, one composed on a phone, a conversation opened, an image fetched. */
  datatype Deed =
    | Stored(id: Id, to: Number, from: Number, image: bool, body: int, at: Time)
    | Drafted(n: Number, cid: Id, peer: Peer, image: bool, body: int, at: Time)
    | Opened(n: Number, peer: Peer)
    | ImageFetched(n: Number, id: Id)

  ghost function Deeds(w: World, s: Step): iset<Deed> {
    match s
    case Compose(n, m) => iset{Drafted(n, m.id, m.peer, m.image, m.body, m.at)}
    case SendDM(_, id, r, known, _, _) =>
      if known then iset{Stored(id, r.to, r.from, r.image, r.body, r.at)} else iset{}
    case DeliverDM(id, r, known, _, _) =>
      if known && id !in w.outbox.v then iset{Stored(id, r.to, r.from, r.image, r.body, r.at)} else iset{}
    case Open(n, peer) => iset{Opened(n, peer)}
    case Fetched(n, id) => iset{ImageFetched(n, id)}
    case _ => iset{}
  }

  /** All that was done in the first i steps. */
  ghost function DoneBy(ws: seq<World>, steps: seq<Step>, i: nat): iset<Deed>
    requires i <= |ws| && i <= |steps|
  {
    if i == 0 then iset{} else DoneBy(ws, steps, i - 1) + Deeds(ws[i - 1], steps[i - 1])
  }

  /** A "new" event on its way to n says what was stored for n under its id. */
  ghost predicate TrueEvent(e: Event, n: Number, done: iset<Deed>) {
    e.New? ==> Stored(e.id, n, e.from, e.image, e.body, e.at) in done
  }

  /**
    A received message is what was stored, is read only if its conversation was opened, and has its image only if
    that was fetched; a sent one is what was composed.
   */
  ghost predicate TrueRecord(m: Message, n: Number, done: iset<Deed>) {
    if m.inbound then
      && Stored(m.id, n, m.peer, m.image, m.body, m.at) in done
      && (m.read ==> Opened(n, m.peer) in done) && (m.cached ==> ImageFetched(n, m.id) in done)
      && m.clientId.None?
    else m.clientId.Some? && Drafted(n, m.clientId.value, m.peer, m.image, m.body, m.at) in done
  }

  ghost predicate TrueList(items: seq<Message>, n: Number, done: iset<Deed>) {
    forall i | 0 <= i < |items| :: TrueRecord(items[i], n, done)
  }

  ghost predicate TrueQueue(q: seq<Event>, n: Number, done: iset<Deed>) {
    forall i | 0 <= i < |q| :: TrueEvent(q[i], n, done)
  }

  ghost predicate TrueRows(outbox: map<Id, Row>, done: iset<Deed>) {
    forall id | id in outbox ::
      var r := outbox[id]; Stored(id, r.to, r.from, r.image, r.body, r.at) in done
  }

  ghost predicate TrueWorld(w: World, done: iset<Deed>) {
    && TrueRows(w.outbox.v, done)
    && (forall d | d in done && d.Stored? :: d.id in w.used.v)
    && (forall n | n in w.queue.v :: TrueQueue(w.queue.v[n], n, done))
    && (forall n | n in w.down.v :: TrueQueue(w.down.v[n], n, done))
    && (forall n | n in w.phone.v :: TrueList(w.phone.v[n], n, done))
  }

  // ---- Lists ----

  lemma {:induction false} AddTrue(items: seq<Message>, m: Message, n: Number, done: iset<Deed>)
    requires TrueList(items, n, done) && TrueRecord(m, n, done)
    ensures TrueList(AddOrUpdate(items, m), n, done)
    decreases |items|
  {
    hide TrueRecord;
    if items != [] && items[0].id != m.id {
      AddTrue(items[1..], m, n, done);
    }
  }

  lemma {:induction false} WithoutTrue(items: seq<Message>, id: Id, n: Number, done: iset<Deed>)
    requires TrueList(items, n, done)
    ensures TrueList(Without(items, id), n, done)
    decreases |items|
  {
    hide TrueRecord;
    if items != [] {
      WithoutTrue(items[1..], id, n, done);
    }
  }

  lemma {:induction false} FoundTrue(items: seq<Message>, id: Id, n: Number, done: iset<Deed>)
    requires TrueList(items, n, done)
    ensures Find(items, id).Some? ==> TrueRecord(Find(items, id).value, n, done) && Find(items, id).value.id == id
    ensures FindClient(items, id).Some? ==>
      TrueRecord(FindClient(items, id).value, n, done) && FindClient(items, id).value.clientId == Some(id)
    decreases |items|
  {
    hide TrueRecord;
    if items != [] {
      FoundTrue(items[1..], id, n, done);
    }
  }

  lemma {:induction false} ReceiveTrue(items: seq<Message>, e: Event, n: Number, done: iset<Deed>)
    requires TrueList(items, n, done) && e.New? && TrueEvent(e, n, done)
    ensures TrueList(Receive(items, e), n, done)
  {
    hide TrueList;
    AddTrue(items, Inbound(e), n, done);
  }

  /** A status event finds the sent message, never a received one. */
  lemma {:induction false} SettleTrue(items: seq<Message>, cid: Id, id: Id, n: Number, done: iset<Deed>)
    requires TrueList(items, n, done)
    requires Find(items, cid).Some? ==> !Find(items, cid).value.inbound
    ensures TrueList(Settle(items, cid, id), n, done)
  {
    hide TrueList;
    FoundTrue(items, cid, n, done);
    var mine := FindClient(items, cid);
    var was := if mine.Some? then mine else Find(items, cid);
    if was.Some? {
      WithoutTrue(items, was.value.id, n, done);
      AddTrue(Without(items, was.value.id), was.value.(id := id, read := true), n, done);
    }
  }

  lemma {:induction false} RewriteTrue(items: seq<Message>, id: Id, cached: bool, n: Number, done: iset<Deed>)
    requires TrueList(items, n, done) && (cached ==> ImageFetched(n, id) in done)
    ensures TrueList(Rewrite(items, id, cached), n, done)
  {
    hide TrueList;
    FoundTrue(items, id, n, done);
    var was := Find(items, id);
    if was.Some? {
      WithoutTrue(items, id, n, done);
      AddTrue(Without(items, id), was.value.(cached := cached || was.value.cached), n, done);
    }
  }

  lemma {:induction false} ReadTrue(items: seq<Message>, peer: Peer, n: Number, done: iset<Deed>)
    requires TrueList(items, n, done) && Opened(n, peer) in done
    ensures TrueList(MarkRead(items, peer), n, done)
  {}

  // ---- Steps ----

  /** Of what is stored, all goes back to what was done, and so does what is in the queues and on the phones. */
  ghost predicate TrueQueues(qs: map<Number, seq<Event>>, done: iset<Deed>) {
    forall n | n in qs :: TrueQueue(qs[n], n, done)
  }

  ghost predicate TruePhones(phone: map<Number, seq<Message>>, done: iset<Deed>) {
    forall n | n in phone :: TrueList(phone[n], n, done)
  }

  lemma {:induction false} OfferTrue(qs: map<Number, seq<Event>>, n: Number, e: Event, room: bool, done: iset<Deed>)
    requires TrueQueues(qs, done) && TrueEvent(e, n, done)
    ensures TrueQueues(Offer(qs, n, e, room), done)
  {
    hide TrueEvent;
  }

  lemma {:induction false} MoreTrue(w: World, done: iset<Deed>, d: Deed)
    requires TrueWorld(w, done) && (d.Stored? ==> d.id in w.used.v)
    ensures TrueWorld(w, done + iset{d})
  {}

  lemma {:induction false} EnqueueTrue(w: World, id: Id, r: Row, room: bool, done: iset<Deed>)
    requires TrueWorld(w, done)
    ensures TrueWorld(Enqueue(w, id, r, room), done + iset{Stored(id, r.to, r.from, r.image, r.body, r.at)})
  {
    var d := Stored(id, r.to, r.from, r.image, r.body, r.at);
    var w1 := w.(used := Cell(w.used.v + {id}));
    MoreTrue(w1, done, d);
    var more := done + iset{d};
    assert TrueEvent(Notice(id, r), r.to, more);
    hide TrueEvent, TrueList;
    OfferTrue(w.queue.v, r.to, Notice(id, r), room, more);
    hide Offer;
  }

  lemma {:induction false} QueueTrue(w: World, qs: map<Number, seq<Event>>, done: iset<Deed>)
    requires TrueWorld(w, done) && TrueQueues(qs, done)
    ensures TrueWorld(w.(queue := Cell(qs)), done) && TrueWorld(w.(down := Cell(qs)), done)
  {}

  lemma {:induction false} PhoneTrue(w: World, n: Number, items: seq<Message>, done: iset<Deed>)
    requires TrueWorld(w, done) && TrueList(items, n, done)
    ensures TrueWorld(w.(phone := Cell(w.phone.v[n := items])), done)
  {}

  /** Fields that say nothing about contents. */
  lemma {:induction false} FrameTrue(w: World, w': World, done: iset<Deed>)
    requires TrueWorld(w, done) && w'.used.v >= w.used.v
    requires w'.outbox.v.Keys <= w.outbox.v.Keys && forall id | id in w'.outbox.v :: w'.outbox.v[id] == w.outbox.v[id]
    requires w'.queue == w.queue && w'.down == w.down && w'.phone == w.phone
    ensures TrueWorld(w', done)
  {}

  lemma {:induction false} ListTrue(w: World, n: Number, done: iset<Deed>)
    requires TrueWorld(w, done)
    ensures TrueList(At(w.phone.v, n), n, done)
  {}

  lemma {:induction false} StoreTrue(w: World, s: Step, done: iset<Deed>)
    requires TrueWorld(w, done) && Can(w, s) && (s.SendDM? || s.DeliverDM?)
    ensures TrueWorld(Next(w, s), done + Deeds(w, s))
  {
    hide TrueWorld, TrueEvent;
    if s.known && (s.DeliverDM? ==> s.id !in w.outbox.v) {
      EnqueueTrue(w, s.id, s.r, s.room, done);
      var w1 := Enqueue(w, s.id, s.r, s.room);
      var more := done + Deeds(w, s);
      if s.SendDM? {
        QueuesTrue(w1, more);
        assert TrueEvent(Status(s.cid, s.id), s.r.from, more) by { StatusTrue(s.cid, s.id, s.r.from, more); }
        OfferTrue(w1.queue.v, s.r.from, Status(s.cid, s.id), s.room2, more);
        QueueTrue(w1, Offer(w1.queue.v, s.r.from, Status(s.cid, s.id), s.room2), more);
        FrameTrue(w1.(queue := Cell(Offer(w1.queue.v, s.r.from, Status(s.cid, s.id), s.room2))), Next(w, s), more);
      } else {
        FrameTrue(w1, Next(w, s), more);
      }
    } else {
      assert done + Deeds(w, s) == done;
    }
  }

  lemma {:induction false} QueuesTrue(w: World, done: iset<Deed>)
    requires TrueWorld(w, done)
    ensures TrueQueues(w.queue.v, done) && TrueQueues(w.down.v, done)
  {}

  lemma {:induction false} StatusTrue(cid: Id, id: Id, n: Number, done: iset<Deed>)
    ensures TrueEvent(Status(cid, id), n, done)
  {}

  lemma {:induction false} FlushTrue(w: World, n: Number, ids: seq<Id>, rooms: seq<bool>, done: iset<Deed>)
    requires TrueWorld(w, done) && |rooms| == |ids|
    ensures TrueWorld(Flush(w, n, ids, rooms), done)
    decreases |ids|
  {
    hide TrueEvent, TrueWorld;
    if ids != [] {
      var s := w;
      if ids[0] in w.outbox.v && w.outbox.v[ids[0]].to == n {
        RowTrue(w, ids[0], done);
        QueuesTrue(w, done);
        OfferTrue(w.queue.v, n, Notice(ids[0], w.outbox.v[ids[0]]), rooms[0], done);
        QueueTrue(w, Offer(w.queue.v, n, Notice(ids[0], w.outbox.v[ids[0]]), rooms[0]), done);
        s := w.(queue := Cell(Offer(w.queue.v, n, Notice(ids[0], w.outbox.v[ids[0]]), rooms[0])));
      }
      hide Offer;
      FlushTrue(s, n, ids[1..], rooms[1..], done);
    }
  }

  lemma {:induction false} RowTrue(w: World, id: Id, done: iset<Deed>)
    requires TrueWorld(w, done) && id in w.outbox.v
    ensures TrueEvent(Notice(id, w.outbox.v[id]), w.outbox.v[id].to, done)
  {}

  lemma {:induction false} SupersededTrue(w: World, n: Number, done: iset<Deed>)
    requires TrueWorld(w, done)
    ensures TrueWorld(Superseded(w, n), done)
    ensures TrueWorld(Superseded(w, n).(queue := Cell(w.queue.v[n := []])), done)
    ensures TrueWorld(Superseded(w, n).(queue := Cell(w.queue.v - {n})), done)
  {
    hide TrueEvent, TrueList;
  }

  lemma {:induction false} CutTrue(q: seq<Event>, k: nat, n: Number, done: iset<Deed>)
    requires k < |q| && TrueQueue(q, n, done)
    ensures TrueEvent(q[k], n, done) && TrueQueue(Cut(q, k), n, done)
  {
    hide TrueEvent;
  }

  lemma {:induction false} SocketTrue(w: World, s: Step, done: iset<Deed>)
    requires TrueWorld(w, done) && Can(w, s)
    requires s.Pump? || s.Lose? || s.Register? || s.Disconnect?
    ensures TrueWorld(Next(w, s), done)
  {
    hide TrueEvent, TrueList;
    match s
    case Pump(n) =>
      QueueTrue(w, w.queue.v[n := w.queue.v[n][1..]], done);
    case Lose(n, k) =>
      CutTrue(w.down.v[n], k, n, done);
      QueueTrue(w, w.down.v[n := Cut(w.down.v[n], k)], done);
    case Register(n, ids, rooms) =>
      SupersededTrue(w, n, done);
      FlushTrue(Superseded(w, n).(queue := Cell(w.queue.v[n := []])), n, ids, rooms, done);
    case Disconnect(n) => SupersededTrue(w, n, done);
  }

  /** A status event names a composed message, so what it finds on the phone was sent from there. */
  lemma {:induction false} StatusFinds(w: World, n: Number, cid: Id, done: iset<Deed>)
    requires StoreAndForward.Ok(w) && TrueWorld(w, done) && cid in w.composed.v
    ensures var m := Find(At(w.phone.v, n), cid); m.Some? ==> !m.value.inbound
  {
    IdsOk(w);
    ListTrue(w, n, done);
    FoundTrue(At(w.phone.v, n), cid, n, done);
    hide StoreAndForward.Ok, TrueList;
  }

  lemma {:induction false} ArriveTrue(w: World, n: Number, k: nat, done: iset<Deed>)
    requires StoreAndForward.Ok(w) && TrueWorld(w, done) && n in w.down.v && k < |w.down.v[n]|
    ensures TrueWorld(Arrive(w, n, k), done)
  {
    hide TrueEvent, TrueList, StoreAndForward.Ok, Receive, Settle, Cut;
    var e, items := w.down.v[n][k], At(w.phone.v, n);
    CutTrue(w.down.v[n], k, n, done);
    QueueTrue(w, w.down.v[n := Cut(w.down.v[n], k)], done);
    ListTrue(w, n, done);
    var s := w.(down := Cell(w.down.v[n := Cut(w.down.v[n], k)]));
    hide TrueWorld;
    match e
    case New(id, _, image, _, _) =>
      ReceiveTrue(items, e, n, done);
      PhoneTrue(s, n, Receive(items, e), done);
      FrameTrue(s.(phone := Cell(s.phone.v[n := Receive(items, e)])), Arrive(w, n, k), done);
    case Status(cid, id) =>
      StatusKnown(w, n, k);
      StatusFinds(w, n, cid, done);
      SettleTrue(items, cid, id, n, done);
      PhoneTrue(s, n, Settle(items, cid, id), done);
  }

  lemma {:induction false} StatusKnown(w: World, n: Number, k: nat)
    requires StoreAndForward.Ok(w) && n in w.down.v && k < |w.down.v[n]| && w.down.v[n][k].Status?
    ensures w.down.v[n][k].cid in w.composed.v
  {
    hide Phones, AnnouncedHeld, Has;
  }

  lemma {:induction false} PhoneStepTrue(w: World, s: Step, done: iset<Deed>)
    requires TrueWorld(w, done) && Can(w, s) && (s.Compose? || s.Fail? || s.Fetched? || s.Open?)
    ensures TrueWorld(Next(w, s), done + Deeds(w, s))
  {
    hide TrueEvent, TrueList, AddOrUpdate, Rewrite, MarkRead;
    var n, items := s.n, At(w.phone.v, s.n);
    if s.Fail? {
      assert done + Deeds(w, s) == done;
      ListTrue(w, n, done);
      RewriteTrue(items, s.id, false, n, done);
      PhoneTrue(w, n, Rewrite(items, s.id, false), done);
    } else {
      var d := match s case Compose(_, m) => Drafted(n, m.id, m.peer, m.image, m.body, m.at)
               case Open(_, peer) => Opened(n, peer)
               case Fetched(_, id) => ImageFetched(n, id);
      var more := done + iset{d};
      MoreTrue(w, done, d);
      hide TrueWorld;
      ListTrue(w, n, more);
      match s
      case Compose(_, m) =>
        AddTrue(items, m, n, more);
        PhoneTrue(w, n, AddOrUpdate(items, m), more);
        FrameTrue(w.(phone := Cell(w.phone.v[n := AddOrUpdate(items, m)])), Next(w, s), more);
      case Open(_, peer) =>
        ReadTrue(items, peer, n, more);
        PhoneTrue(w, n, MarkRead(items, peer), more);
      case Fetched(_, id) =>
        RewriteTrue(items, id, true, n, more);
        PhoneTrue(w, n, Rewrite(items, id, true), more);
        FrameTrue(w.(phone := Cell(w.phone.v[n := Rewrite(items, id, true)])), Next(w, s), more);
    }
  }

  lemma {:induction false} StepTrue(w: World, s: Step, done: iset<Deed>)
    requires StoreAndForward.Ok(w) && TrueWorld(w, done) && Can(w, s)
    ensures TrueWorld(Next(w, s), done + Deeds(w, s))
  {
    hide StoreAndForward.Ok, TrueWorld, Send, Accept, Flush, Arrive, Cut, Lists, Superseded;
    if s.SendDM? || s.DeliverDM? {
      StoreTrue(w, s, done);
    } else if s.Compose? || s.Fail? || s.Fetched? || s.Open? {
      PhoneStepTrue(w, s, done);
    } else {
      assert done + Deeds(w, s) == done;
      if s.Pump? || s.Lose? || s.Register? || s.Disconnect? {
        SocketTrue(w, s, done);
      } else if s.Reach? {
        ArriveTrue(w, s.n, s.k, done);
      } else {
        FrameTrue(w, Next(w, s), done);
      }
    }
  }

  lemma {:induction false} RunTrue(ws: seq<World>, steps: seq<Step>, i: nat)
    requires Run(ws, steps) && i < |ws|
    ensures i <= |steps| && TrueWorld(ws[i], DoneBy(ws, steps, i))
  {
    hide StoreAndForward.Ok, Can, Next, TrueWorld, Deeds;
    if i == 0 {
      StartTrue();
    } else {
      RunTrue(ws, steps, i - 1);
      RunOk(ws, steps, i - 1);
      StepTrue(ws[i - 1], steps[i - 1], DoneBy(ws, steps, i - 1));
    }
  }

  lemma {:induction false} StartTrue()
    ensures TrueWorld(START, iset{})
  {}

  // ---- Over whole runs ----

  lemma {:induction false} WhenDone(ws: seq<World>, steps: seq<Step>, i: nat, d: Deed) returns (j: nat)
    requires i <= |ws| && i <= |steps| && d in DoneBy(ws, steps, i)
    ensures j < i && d in Deeds(ws[j], steps[j])
  {
    hide Deeds;
    if d in Deeds(ws[i - 1], steps[i - 1]) {
      j := i - 1;
    } else {
      j := WhenDone(ws, steps, i - 1, d);
    }
  }

  /** The step stores, for number n under this id, a message with these contents. */
  predicate Stores(s: Step, id: Id, n: Number, from: Number, image: bool, body: int, at: Time) {
    && (s.SendDM? || s.DeliverDM?) && s.known && s.id == id
    && s.r.to == n && s.r.from == from && s.r.image == image && s.r.body == body && s.r.at == at
  }

  lemma {:induction false} DeedStores(w: World, s: Step, d: Deed)
    requires d.Stored? && d in Deeds(w, s)
    ensures Stores(s, d.id, d.to, d.from, d.image, d.body, d.at)
  {}

  /** A "new" event, queued or on its way, says what was stored for the number under its id. */
  lemma {:induction false} EventsAreTrue(ws: seq<World>, steps: seq<Step>, i: nat, n: Number, k: nat, down: bool)
    returns (j: nat)
    requires Run(ws, steps) && i < |ws|
    requires var qs := if down then ws[i].down.v else ws[i].queue.v; n in qs && k < |qs[n]| && qs[n][k].New?
    ensures j < i && j < |steps|
    ensures var e := (if down then ws[i].down.v else ws[i].queue.v)[n][k];
            Stores(steps[j], e.id, n, e.from, e.image, e.body, e.at)
  {
    RunTrue(ws, steps, i);
    var e := (if down then ws[i].down.v else ws[i].queue.v)[n][k];
    assert TrueEvent(e, n, DoneBy(ws, steps, i));
    var d := Stored(e.id, n, e.from, e.image, e.body, e.at);
    j := WhenDone(ws, steps, i, d);
    DeedStores(ws[j], steps[j], d);
    hide Run, TrueWorld, Stores;
  }

  /** A received message says what was stored for the number under its id; and it is read only if it was opened. */
  lemma {:induction false} RecordsAreTrue(ws: seq<World>, steps: seq<Step>, i: nat, n: Number, k: nat)
    returns (j: nat, o: nat)
    requires Run(ws, steps) && i < |ws| && n in ws[i].phone.v && k < |ws[i].phone.v[n]| && ws[i].phone.v[n][k].inbound
    ensures var m := ws[i].phone.v[n][k];
            j < i && j < |steps| && Stores(steps[j], m.id, n, m.peer, m.image, m.body, m.at)
    ensures ws[i].phone.v[n][k].read ==> o < i && o < |steps| && steps[o] == Open(n, ws[i].phone.v[n][k].peer)
  {
    RunTrue(ws, steps, i);
    var m, done := ws[i].phone.v[n][k], DoneBy(ws, steps, i);
    assert TrueRecord(m, n, done);
    var d := Stored(m.id, n, m.peer, m.image, m.body, m.at);
    j := WhenDone(ws, steps, i, d);
    DeedStores(ws[j], steps[j], d);
    o := 0;
    if m.read {
      o := WhenDone(ws, steps, i, Opened(n, m.peer));
    }
    hide Run, TrueWorld, Stores;
  }

  /** A sent message on the phone it was composed on says what was composed there, whatever status came back. */
  lemma {:induction false} SentAreTrue(ws: seq<World>, steps: seq<Step>, i: nat, n: Number, k: nat) returns (j: nat)
    requires Run(ws, steps) && i < |ws| && n in ws[i].phone.v && k < |ws[i].phone.v[n]| && !ws[i].phone.v[n][k].inbound
    ensures j < i && j < |steps|
    ensures var m := ws[i].phone.v[n][k];
            && steps[j].Compose? && steps[j].n == n && m.clientId == Some(steps[j].m.id)
            && m.peer == steps[j].m.peer && m.image == steps[j].m.image && m.body == steps[j].m.body
            && m.at == steps[j].m.at
  {
    RunTrue(ws, steps, i);
    var m, done := ws[i].phone.v[n][k], DoneBy(ws, steps, i);
    assert TrueRecord(m, n, done);
    j := WhenDone(ws, steps, i, Drafted(n, m.clientId.value, m.peer, m.image, m.body, m.at));
    hide Run, TrueWorld;
  }

  lemma {:induction false} UsedStays(ws: seq<World>, steps: seq<Step>, i: nat, j: nat, id: Id)
    requires Run(ws, steps) && i <= j < |ws| && id in ws[i].used.v
    ensures id in ws[j].used.v
    decreases j
  {
    hide Can, Next;
    if i < j {
      UsedStays(ws, steps, i, j - 1, id);
      UsedStep(ws[j - 1], steps[j - 1], id);
    }
  }

  lemma {:induction false} UsedStep(w: World, s: Step, id: Id)
    requires Can(w, s) && id in w.used.v
    ensures id in Next(w, s).used.v
  {
    hide Offer, Receive, Settle, Rewrite, Cut, Lists;
    if s.Register? {
      FlushUsed(Superseded(w, s.n).(queue := Cell(w.queue.v[s.n := []])), s.n, s.ids, s.rooms);
    }
    hide Flush;
  }

  lemma {:induction false} FlushUsed(w: World, n: Number, ids: seq<Id>, rooms: seq<bool>)
    requires |rooms| == |ids|
    ensures Flush(w, n, ids, rooms).used == w.used
    decreases |ids|
  {
    hide Offer;
    if ids != [] {
      var s := if ids[0] in w.outbox.v && w.outbox.v[ids[0]].to == n
               then w.(queue := Cell(Offer(w.queue.v, n, Notice(ids[0], w.outbox.v[ids[0]]), rooms[0]))) else w;
      FlushUsed(s, n, ids[1..], rooms[1..]);
    }
  }

  /** No other server stores a message under this id in the first i steps. */
  predicate Alone(steps: seq<Step>, i: nat, id: Id)
    requires i <= |steps|
  {
    forall k | 0 <= k < i :: !(steps[k].DeliverDM? && steps[k].id == id)
  }

  /** Then what was stored under it was stored once. */
  lemma {:induction false} StoredOnce(ws: seq<World>, steps: seq<Step>, i: nat, j: nat, k: nat, id: Id)
    requires Run(ws, steps) && j < i && k < i && i < |ws| && i <= |steps| && Alone(steps, i, id)
    requires steps[j].SendDM? && steps[j].known && steps[j].id == id
    requires (steps[k].SendDM? || steps[k].DeliverDM?) && steps[k].known && steps[k].id == id
    ensures k == j
  {
    assert Can(ws[j], steps[j]) && Can(ws[k], steps[k]) && ws[j + 1] == Next(ws[j], steps[j]);
    assert ws[k + 1] == Next(ws[k], steps[k]);
    SendUses(ws[j], steps[j]);
    SendUses(ws[k], steps[k]);
    hide Can, Next, Run;
    if k < j {
      UsedStays(ws, steps, k + 1, j, id);
    } else if j < k {
      UsedStays(ws, steps, j + 1, k, id);
    }
  }

  lemma {:induction false} SendUses(w: World, s: Step)
    requires Can(w, s) && s.SendDM? && s.known
    ensures s.id !in w.used.v && s.id in Next(w, s).used.v
  {}

  /** The step stores a message under id. */
  predicate StoresUnder(w: World, s: Step, id: Id) {
    (s.SendDM? || (s.DeliverDM? && id !in w.outbox.v)) && s.known && s.id == id
  }

  /** Whatever is stored under id in the first i steps, once or again and again, is the message r. */
  ghost predicate OneMessage(ws: seq<World>, steps: seq<Step>, i: nat, id: Id, r: Row)
    requires i <= |ws| && i <= |steps|
  {
    forall k | 0 <= k < i && StoresUnder(ws[k], steps[k], id) ::
      Stores(steps[k], id, r.to, r.from, r.image, r.body, r.at)
  }

  /** A message sent on its home server is the only one under its id, unless another server uses that id too. */
  lemma {:induction false} HomeMessage(ws: seq<World>, steps: seq<Step>, j: nat, i: nat)
    requires Run(ws, steps) && j < i < |ws| && steps[j].SendDM? && steps[j].known && Alone(steps, i, steps[j].id)
    ensures OneMessage(ws, steps, i, steps[j].id, steps[j].r)
  {
    assert i <= |steps| && i <= |ws|;
    hide Run, Can, Next;
    forall k | 0 <= k < i && StoresUnder(ws[k], steps[k], steps[j].id) ensures k == j {
      StoredOnce(ws, steps, i, j, k, steps[j].id);
    }
  }

  lemma {:induction false} StoredIs(ws: seq<World>, steps: seq<Step>, i: nat, id: Id, r: Row, d: Deed)
    requires Run(ws, steps) && i < |ws| && i <= |steps| && OneMessage(ws, steps, i, id, r)
    requires d in DoneBy(ws, steps, i) && d.Stored? && d.id == id
    ensures d == Stored(id, r.to, r.from, r.image, r.body, r.at)
  {
    hide Run, Can, Next;
    var k := WhenDone(ws, steps, i, d);
    assert StoresUnder(ws[k], steps[k], id);
  }

  /**
    A message arrives as it was sent: whatever is redelivered or lost, while it waits its row says from whom it is,
    and what, and so does every record of it that any phone receives; and only its recipient's does.
   */
  lemma {:induction false} ArrivesAsSent(ws: seq<World>, steps: seq<Step>, i: nat, id: Id, r: Row)
    requires Run(ws, steps) && i < |ws| && i <= |steps| && OneMessage(ws, steps, i, id, r)
    ensures var w := ws[i];
            && (id in w.outbox.v ==>
                  w.outbox.v[id].to == r.to && w.outbox.v[id].from == r.from && w.outbox.v[id].image == r.image
                  && w.outbox.v[id].body == r.body && w.outbox.v[id].at == r.at)
            && forall n, k | n in w.phone.v && 0 <= k < |w.phone.v[n]|
                             && w.phone.v[n][k].inbound && w.phone.v[n][k].id == id ::
                 var m := w.phone.v[n][k];
                 n == r.to && m.peer == r.from && m.image == r.image && m.body == r.body && m.at == r.at
  {
    var w, done := ws[i], DoneBy(ws, steps, i);
    hide Can, Next, Run, TrueWorld;
    RunTrue(ws, steps, i);
    if id in w.outbox.v {
      var o := w.outbox.v[id];
      RowStored(w, id, done);
      StoredIs(ws, steps, i, id, r, Stored(id, o.to, o.from, o.image, o.body, o.at));
    }
    forall n, k: nat | n in w.phone.v && k < |w.phone.v[n]| && w.phone.v[n][k].inbound && w.phone.v[n][k].id == id
      ensures var m := w.phone.v[n][k];
              n == r.to && m.peer == r.from && m.image == r.image && m.body == r.body && m.at == r.at
    {
      var m := w.phone.v[n][k];
      RecordStored(w, n, k, done);
      StoredIs(ws, steps, i, id, r, Stored(id, n, m.peer, m.image, m.body, m.at));
    }
  }

  lemma {:induction false} RecordStored(w: World, n: Number, k: nat, done: iset<Deed>)
    requires TrueWorld(w, done) && n in w.phone.v && k < |w.phone.v[n]| && w.phone.v[n][k].inbound
    ensures var m := w.phone.v[n][k]; Stored(m.id, n, m.peer, m.image, m.body, m.at) in done
  {
    assert TrueRecord(w.phone.v[n][k], n, done);
  }

  /** m is what its recipient has of message r: the message as it was sent, or its own copy if it is to itself. */
  predicate AsSent(w: World, m: Message, id: Id, r: Row) {
    if m.inbound then m.peer == r.from && m.image == r.image && m.body == r.body && m.at == r.at
    else m.clientId.Some? && m.clientId.value in w.given.v && w.given.v[m.clientId.value] == id
  }

  /** So a message whose sender was told "delivered" waits, or is on the phone, as it was sent, or it expired. */
  lemma {:induction false} DeliveredAsSent(ws: seq<World>, steps: seq<Step>, i: nat, id: Id, r: Row)
    requires Run(ws, steps) && i < |ws| && i <= |steps| && OneMessage(ws, steps, i, id, r)
    requires (id, r.to) in ws[i].told.v
    ensures var w := ws[i];
            || (id in w.outbox.v && w.outbox.v[id] == r.(created := w.outbox.v[id].created))
            || (var m := Find(At(w.phone.v, r.to), id); m.Some? && AsSent(w, m.value, id, r))
            || ((id, r.to) in w.pruned.v && w.pruned.v[(id, r.to)] > 7 * 24 * 60 * 60)
  {
    hide OneMessage, Find, Has, Safe, TrueWorld;
    NothingLost(ws, steps, i, id, r.to);
    ArrivesAsSent(ws, steps, i, id, r);
    var w, items := ws[i], At(ws[i].phone.v, r.to);
    FindHas(items, id);
    if Find(items, id).Some? {
      RunOk(ws, steps, i);
      ToldUsed(w, id, r.to);
      var k := First(items, id);
      RunTrue(ws, steps, i);
      OwnCopy(w, r.to, k, DoneBy(ws, steps, i));
    }
  }

  lemma {:induction false} ToldUsed(w: World, id: Id, n: Number)
    requires StoreAndForward.Ok(w) && (id, n) in w.told.v
    ensures id in w.used.v && id !in w.composed.v
  {}

  lemma {:induction false} OwnCopy(w: World, n: Number, k: nat, done: iset<Deed>)
    requires StoreAndForward.Ok(w) && TrueWorld(w, done)
    requires n in w.phone.v && k < |w.phone.v[n]| && w.phone.v[n][k].id !in w.composed.v
    ensures var m := w.phone.v[n][k];
            !m.inbound ==> m.clientId.Some? && m.clientId.value in w.given.v && w.given.v[m.clientId.value] == m.id
  {
    var m := w.phone.v[n][k];
    assert Filed(m, w.composed.v, w.given.v) && TrueRecord(m, n, done);
  }

  lemma {:induction false} RowStored(w: World, id: Id, done: iset<Deed>)
    requires TrueWorld(w, done) && id in w.outbox.v
    ensures var o := w.outbox.v[id]; Stored(id, o.to, o.from, o.image, o.body, o.at) in done
  {}

  // ---- What single steps do ----

  /** Pruning drops just the rows that are more than seven days old. */
  lemma {:induction false} PrunesByAge(ws: seq<World>, steps: seq<Step>, i: nat, id: Id)
    requires Run(ws, steps) && i < |steps| && steps[i].PruneOld?
    ensures id in ws[i + 1].outbox.v <==>
              id in ws[i].outbox.v && ws[i].clock - ws[i].outbox.v[id].created <= 7 * 24 * 60 * 60
    ensures id in ws[i + 1].outbox.v ==> ws[i + 1].outbox.v[id] == ws[i].outbox.v[id]
  {
    assert ws[i + 1] == Next(ws[i], steps[i]);
  }

  /**
    A new message that reaches a phone is there from then on, unread, is announced if it was not there before, and is
    acknowledged at once unless its image has to be fetched.
   */
  lemma {:induction false} ArrivalDoes(ws: seq<World>, steps: seq<Step>, i: nat, n: Number, k: nat)
    requires Run(ws, steps) && i < |steps| && steps[i] == Reach(n, k)
    requires ws[i].down.v[n][k].New?
    ensures var w, w', e := ws[i], ws[i + 1], ws[i].down.v[n][k];
            && (var m := Find(At(w'.phone.v, n), e.id); m.Some? && m.value.inbound && !m.value.read)
            && w'.announced.v[(n, e.id)] == w.announced.v[(n, e.id)] + (if Has(At(w.phone.v, n), e.id) then 0 else 1)
            && At(w'.up.v, n) == At(w.up.v, n) + (if e.image then [] else [e.id])
  {
    var e, items := ws[i].down.v[n][k], At(ws[i].phone.v, n);
    assert Can(ws[i], steps[i]) && ws[i + 1] == Next(ws[i], steps[i]);
    FoundAdded(items, Inbound(e));
    FindHas(AddOrUpdate(items, Inbound(e)), e.id);
    hide Run, Find, Has, AddOrUpdate, Cut;
  }

  lemma {:induction false} FoundAdded(items: seq<Message>, m: Message)
    ensures Find(AddOrUpdate(items, m), m.id) == Some(m)
    decreases |items|
  {
    if items != [] && items[0].id != m.id {
      FoundAdded(items[1..], m);
      assert AddOrUpdate(items, m)[1..] == AddOrUpdate(items[1..], m);
    }
  }

  /** Once its status is back, a sent message is filed under the id that the server gave it. */
  lemma {:induction false} StatusFiles(ws: seq<World>, steps: seq<Step>, i: nat, n: Number, k: nat)
    requires Run(ws, steps) && i < |steps| && steps[i] == Reach(n, k) && ws[i].down.v[n][k].Status?
    requires FindClient(At(ws[i].phone.v, n), ws[i].down.v[n][k].cid).Some?
    ensures var e, m := ws[i].down.v[n][k], Find(At(ws[i + 1].phone.v, n), ws[i].down.v[n][k].id);
            m.Some? && m.value.clientId == Some(e.cid)
  {
    var e, items := ws[i].down.v[n][k], At(ws[i].phone.v, n);
    assert Can(ws[i], steps[i]) && ws[i + 1] == Next(ws[i], steps[i]);
    var o := FindClient(items, e.cid).value;
    FoundAdded(Without(items, o.id), o.(id := e.id, read := true));
    FoundClient(items, e.cid);
    hide Run, Find, FindClient, Has, AddOrUpdate, Cut, Without;
  }

  lemma {:induction false} FoundClient(items: seq<Message>, cid: Id)
    ensures FindClient(items, cid).Some? ==> FindClient(items, cid).value.clientId == Some(cid)
    decreases |items|
  {
    if items != [] {
      FoundClient(items[1..], cid);
    }
  }
}
