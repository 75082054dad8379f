/**
  The message store of the softphone (softphone/lib/core/db/dm_store.dart) and what
  app_state.dart does with it when a message event arrives.

  The list of messages is the only state. Each method runs one operation of the store, loops included, and is proved
  equal to a function of the list. These functions keep ids unique, whatever is added, marked, filed anew or removed,
  and report an id as new once for each time it was not there. Threads are built in two passes: the latest message
  of each peer, and then one thread for each of these, put in its place.
 */
module DeviceStore {
  import opened Options

  type Id = int
  type Peer = int
  type Time = int

  datatype Message = Message(id: Id, clientId: Option<Id>, peer: Peer, inbound: bool, image: bool, body: int,
                             cached: bool, read: bool, at: Time)

  // ---- What the operations do to the list of messages ----

  predicate Has(items: seq<Message>, id: Id) {
    exists i :: 0 <= i < |items| && items[i].id == id
  }

  /** byId: the first message with this id. */
  function Find(items: seq<Message>, id: Id): Option<Message> {
    if items == [] then None else if items[0].id == id then Some(items[0]) else Find(items[1..], id)
  }

  function FindClient(items: seq<Message>, cid: Id): Option<Message> {
    if items == [] then None else if items[0].clientId == Some(cid) then Some(items[0]) else FindClient(items[1..], cid)
  }

  /** addOrUpdate: replace the first message with the id, or append. */
  function AddOrUpdate(items: seq<Message>, m: Message): seq<Message> {
    if items == [] then [m]
    else if items[0].id == m.id then [m] + items[1..]
    else [items[0]] + AddOrUpdate(items[1..], m)
  }

  function Without(items: seq<Message>, id: Id): seq<Message> {
    if items == [] then [] else (if items[0].id == id then [] else [items[0]]) + Without(items[1..], id)
  }

  function WithoutPeer(items: seq<Message>, peer: Peer): seq<Message> {
    if items == [] then [] else (if items[0].peer == peer then [] else [items[0]]) + WithoutPeer(items[1..], peer)
  }

  predicate Unread(m: Message) {
    m.inbound && !m.read
  }

  function MarkRead(items: seq<Message>, peer: Peer): (r: seq<Message>)
    ensures |r| == |items|
  {
    seq(|items|, i requires 0 <= i < |items| =>
      if items[i].peer == peer && Unread(items[i]) then items[i].(read := true) else items[i])
  }

  function UnreadFor(items: seq<Message>, peer: Peer): nat {
    if items == [] then 0
    else (if items[0].peer == peer && Unread(items[0]) then 1 else 0) + UnreadFor(items[1..], peer)
  }

  function UnreadTotal(items: seq<Message>): nat {
    if items == [] then 0 else (if Unread(items[0]) then 1 else 0) + UnreadTotal(items[1..])
  }

  ghost predicate UniqueIds(items: seq<Message>) {
    forall i, j | 0 <= i < j < |items| :: items[i].id != items[j].id
  }

  // ---- The store ----

  class DmStore {
    var items: seq<Message>

    constructor ()
      ensures items == []
    {
      items := [];
    }

    method ById(id: Id) returns (m: Option<Message>)
      ensures m == Find(items, id)
    {
      var i := 0;
      assert items[0..] == items;
      while i < |items|
        invariant 0 <= i <= |items| && Find(items[i..], id) == Find(items, id)
      {
        if items[i].id == id {
          return Some(items[i]);
        }
        assert items[i..][1..] == items[i + 1..];
        i := i + 1;
      }
      return None;
    }

    method ByClientId(cid: Id) returns (m: Option<Message>)
      ensures m == FindClient(items, cid)
    {
      var i := 0;
      assert items[0..] == items;
      while i < |items|
        invariant 0 <= i <= |items| && FindClient(items[i..], cid) == FindClient(items, cid)
      {
        if items[i].clientId == Some(cid) {
          return Some(items[i]);
        }
        assert items[i..][1..] == items[i + 1..];
        i := i + 1;
      }
      return None;
    }

    method AddOrUpdateMessage(m: Message) returns (isNew: bool)
      modifies this
      ensures items == AddOrUpdate(old(items), m)
      ensures isNew <==> !Has(old(items), m.id)
    {
      hide Has;
      FindHas(items, m.id);
      var existing := ById(m.id);
      if existing.Some? {
        var i := IndexOf(m.id);
        UpdatedAt(items, m, i);
        items := items[i := m];
        return false;
      }
      Appended(items, m);
      items := items + [m];
      return true;
    }

    method IndexOf(id: Id) returns (i: nat)
      requires Find(items, id).Some?
      ensures i < |items| && items[i].id == id && forall k | 0 <= k < i :: items[k].id != id
    {
      i := 0;
      assert items[0..] == items;
      while items[i].id != id
        invariant i < |items| && Find(items[i..], id).Some? && forall k | 0 <= k < i :: items[k].id != id
        decreases |items| - i
      {
        assert items[i..][1..] == items[i + 1..];
        i := i + 1;
      }
    }

    method MarkPeerRead(peer: Peer)
      modifies this
      ensures items == MarkRead(old(items), peer)
    {
      ghost var before := items;
      var i := 0;
      while i < |items|
        invariant 0 <= i <= |items| == |before|
        invariant forall k | 0 <= k < i :: items[k] == MarkRead(before, peer)[k]
        invariant forall k | i <= k < |items| :: items[k] == before[k]
      {
        var m := items[i];
        if m.peer == peer && m.inbound && !m.read {
          items := items[i := m.(read := true)];
        }
        i := i + 1;
      }
    }

    method RemoveById(id: Id)
      modifies this
      ensures items == Without(old(items), id)
    {
      var kept: seq<Message> := [];
      var i := 0;
      assert items[0..] == items;
      while i < |items|
        invariant 0 <= i <= |items| && kept + Without(items[i..], id) == Without(items, id)
      {
        assert items[i..][1..] == items[i + 1..];
        if items[i].id != id {
          kept := kept + [items[i]];
        }
        i := i + 1;
      }
      items := kept;
    }

    method RemovePeer(peer: Peer)
      modifies this
      ensures items == WithoutPeer(old(items), peer)
    {
      var kept: seq<Message> := [];
      var i := 0;
      assert items[0..] == items;
      while i < |items|
        invariant 0 <= i <= |items| && kept + WithoutPeer(items[i..], peer) == WithoutPeer(items, peer)
      {
        assert items[i..][1..] == items[i + 1..];
        if items[i].peer != peer {
          kept := kept + [items[i]];
        }
        i := i + 1;
      }
      items := kept;
    }

    method CountUnreadFor(peer: Peer) returns (n: nat)
      ensures n == UnreadFor(items, peer)
    {
      n := 0;
      var i := 0;
      assert items[0..] == items;
      while i < |items|
        invariant 0 <= i <= |items| && n + UnreadFor(items[i..], peer) == UnreadFor(items, peer)
      {
        assert items[i..][1..] == items[i + 1..];
        if items[i].peer == peer && Unread(items[i]) {
          n := n + 1;
        }
        i := i + 1;
      }
    }

    /** The loop of `threads`: for each peer the message it shows. */
    method LatestByPeer() returns (byPeer: map<Peer, Message>)
      ensures forall p :: p in byPeer <==> exists i :: 0 <= i < |items| && items[i].peer == p
      ensures forall p | p in byPeer :: IsLatest(items, p, byPeer[p])
    {
      hide IsLatest, LatestOfEach;
      byPeer := map[];
      var k := 0;
      LatestNone(items[..0]);
      while k < |items|
        invariant 0 <= k <= |items| && LatestOfEach(items[..k], byPeer)
      {
        var m := items[k];
        LatestStep(items, k, byPeer);
        if m.peer !in byPeer || byPeer[m.peer].at < m.at {
          byPeer := byPeer[m.peer := m];
        }
        k := k + 1;
      }
      assert items[..k] == items;
      LatestAll(items, byPeer);
    }

    /** One entry for each peer, newest activity first. */
    method Threads() returns (threads: seq<Thread>)
      ensures ThreadsOf(items, threads)
    {
      hide Built, IsLatest;
      var byPeer := LatestByPeer();
      threads := [];
      var todo := byPeer.Keys;
      BuiltNone(items, byPeer);
      while todo != {}
        invariant todo <= byPeer.Keys && Built(items, byPeer, byPeer.Keys - todo, threads)
        decreases |todo|
      {
        if forall x :: x !in todo {
          assert false;
        }
        var p :| p in todo;
        var unread := CountUnreadFor(p);
        BuiltOne(items, byPeer, byPeer.Keys - todo, threads, p);
        assert byPeer.Keys - todo + {p} == byPeer.Keys - (todo - {p});
        threads := Inserted(threads, Thread(p, byPeer[p], unread));
        todo := todo - {p};
      }
      BuiltAll(items, byPeer, threads);
    }
  }

  /** The threads of the peers in `done`. */
  ghost predicate Built(items: seq<Message>, byPeer: map<Peer, Message>, done: set<Peer>, threads: seq<Thread>) {
    && Ordered(threads) && OnePerPeer(threads)
    && (forall p :: HasThread(threads, p) <==> p in done)
    && forall i | 0 <= i < |threads| :: MadeFor(items, byPeer, threads[i])
  }

  predicate MadeFor(items: seq<Message>, byPeer: map<Peer, Message>, t: Thread) {
    t.peer in byPeer && t.last == byPeer[t.peer] && t.unread == UnreadFor(items, t.peer)
  }

  lemma {:induction false} BuiltNone(items: seq<Message>, byPeer: map<Peer, Message>)
    ensures Built(items, byPeer, byPeer.Keys - byPeer.Keys, [])
  {}

  lemma {:induction false} BuiltOne(items: seq<Message>, byPeer: map<Peer, Message>, done: set<Peer>,
                                    threads: seq<Thread>, p: Peer)
    requires Built(items, byPeer, done, threads) && p in byPeer && p !in done
    ensures Built(items, byPeer, done + {p}, Inserted(threads, Thread(p, byPeer[p], UnreadFor(items, p))))
  {
    var t := Thread(p, byPeer[p], UnreadFor(items, p));
    assert !HasThread(threads, p);
    var k := InsertedAt(threads, t);
    var r := threads[..k] + [t] + threads[k..];
    PutOrdered(threads, t, k);
    PutOnce(threads, t, k);
    forall q ensures HasThread(r, q) <==> q in done + {p} { PutHas(threads, t, k, q); }
    PutFrom(threads, t, k);
    hide Ordered, OnePerPeer, HasThread, Inserted;
  }

  lemma {:induction false} BuiltAll(items: seq<Message>, byPeer: map<Peer, Message>, threads: seq<Thread>)
    requires Built(items, byPeer, byPeer.Keys - {}, threads)
    requires forall p :: p in byPeer <==> exists i :: 0 <= i < |items| && items[i].peer == p
    requires forall p | p in byPeer :: IsLatest(items, p, byPeer[p])
    ensures ThreadsOf(items, threads)
  {
    hide Ordered, OnePerPeer, IsLatest;
    forall i | 0 <= i < |threads|
      ensures IsLatest(items, threads[i].peer, threads[i].last)
        && threads[i].unread == UnreadFor(items, threads[i].peer)
    {
      assert MadeFor(items, byPeer, threads[i]);
    }
  }

  datatype Thread = Thread(peer: Peer, last: Message, unread: nat)

  predicate HasThread(threads: seq<Thread>, p: Peer) {
    exists i :: 0 <= i < |threads| && threads[i].peer == p
  }

  ghost predicate OnePerPeer(threads: seq<Thread>) {
    forall i, j | 0 <= i < j < |threads| :: threads[i].peer != threads[j].peer
  }

  ghost predicate Ordered(threads: seq<Thread>) {
    forall i, j | 0 <= i < j < |threads| :: threads[i].last.at >= threads[j].last.at
  }

  /** What the thread list is: one thread per peer, with its latest message and its unread count, newest first. */
  ghost predicate ThreadsOf(items: seq<Message>, threads: seq<Thread>) {
    && OnePerPeer(threads) && Ordered(threads)
    && (forall i | 0 <= i < |items| :: HasThread(threads, items[i].peer))
    && (forall i | 0 <= i < |threads| ::
          IsLatest(items, threads[i].peer, threads[i].last) && threads[i].unread == UnreadFor(items, threads[i].peer))
  }

  /** The list with t put where it belongs. */
  function Inserted(threads: seq<Thread>, t: Thread): (r: seq<Thread>)
    ensures |r| == |threads| + 1
  {
    if threads == [] then [t]
    else if threads[0].last.at < t.last.at then [t] + threads
    else [threads[0]] + Inserted(threads[1..], t)
  }

  /** Position k of the longer list: before, at or after the place of t. */
  lemma {:induction false} InsertedAt(threads: seq<Thread>, t: Thread) returns (k: nat)
    ensures k <= |threads| && Inserted(threads, t) == threads[..k] + [t] + threads[k..]
    ensures forall i | 0 <= i < k :: threads[i].last.at >= t.last.at
    ensures k < |threads| ==> threads[k].last.at < t.last.at
    decreases |threads|
  {
    if threads == [] || threads[0].last.at < t.last.at {
      k := 0;
      assert [] + [t] + threads == [t] + threads;
    } else {
      var j := InsertedAt(threads[1..], t);
      k := j + 1;
      LaterPlace(threads, t, j);
      assert forall i | 1 <= i < k :: threads[i] == threads[1..][i - 1];
    }
  }

  lemma {:induction false} LaterPlace(threads: seq<Thread>, t: Thread, j: nat)
    requires j < |threads|
    ensures [threads[0]] + (threads[1..][..j] + [t] + threads[1..][j..]) == threads[..j + 1] + [t] + threads[j + 1..]
  {}

  lemma {:induction false} PutAt(threads: seq<Thread>, t: Thread, k: nat, i: nat)
    requires k <= |threads| && i <= |threads|
    ensures (threads[..k] + [t] + threads[k..])[i] == if i < k then threads[i] else if i == k then t else threads[i - 1]
  {}

  lemma {:induction false} PutOrdered(threads: seq<Thread>, t: Thread, k: nat)
    requires k <= |threads| && Ordered(threads)
    requires forall i | 0 <= i < k :: threads[i].last.at >= t.last.at
    requires k < |threads| ==> threads[k].last.at < t.last.at
    ensures Ordered(threads[..k] + [t] + threads[k..])
  {
    var r := threads[..k] + [t] + threads[k..];
    forall i, j | 0 <= i < j < |r|
      ensures r[i].last.at >= r[j].last.at
    {
      PutAt(threads, t, k, i);
      PutAt(threads, t, k, j);
      if i == k {
        assert threads[k].last.at >= threads[j - 1].last.at;
      }
    }
  }

  lemma {:induction false} PutOnce(threads: seq<Thread>, t: Thread, k: nat)
    requires k <= |threads| && OnePerPeer(threads) && !HasThread(threads, t.peer)
    ensures OnePerPeer(threads[..k] + [t] + threads[k..])
  {
    var r := threads[..k] + [t] + threads[k..];
    forall i, j | 0 <= i < j < |r|
      ensures r[i].peer != r[j].peer
    {
      PutAt(threads, t, k, i);
      PutAt(threads, t, k, j);
    }
  }

  lemma {:induction false} PutHas(threads: seq<Thread>, t: Thread, k: nat, p: Peer)
    requires k <= |threads|
    ensures HasThread(threads[..k] + [t] + threads[k..], p) <==> p == t.peer || HasThread(threads, p)
  {
    var r := threads[..k] + [t] + threads[k..];
    PutAt(threads, t, k, k);
    if HasThread(threads, p) {
      var i :| 0 <= i < |threads| && threads[i].peer == p;
      PutAt(threads, t, k, if i < k then i else i + 1);
    }
    if HasThread(r, p) {
      var i :| 0 <= i < |r| && r[i].peer == p;
      PutAt(threads, t, k, i);
    }
  }

  lemma {:induction false} PutFrom(threads: seq<Thread>, t: Thread, k: nat)
    requires k <= |threads|
    ensures var r := threads[..k] + [t] + threads[k..]; forall i | 0 <= i < |r| :: r[i] == t || r[i] in threads
  {
    var r := threads[..k] + [t] + threads[k..];
    forall i | 0 <= i < |r| ensures r[i] == t || r[i] in threads { PutAt(threads, t, k, i); }
  }

  // ---- Unread counts add up ----

  function SumUnread(threads: seq<Thread>): nat {
    if threads == [] then 0 else threads[0].unread + SumUnread(threads[1..])
  }

  /** The same sum, from the messages. */
  function SumFor(items: seq<Message>, threads: seq<Thread>): nat
    decreases |threads|
  {
    if threads == [] then 0 else UnreadFor(items, threads[0].peer) + SumFor(items, threads[1..])
  }

  lemma {:induction false} SumForEmpty(threads: seq<Thread>)
    ensures SumFor([], threads) == 0
    decreases |threads|
  {
    if threads != [] {
      SumForEmpty(threads[1..]);
    }
  }

  /** One more message counts in the thread of its peer only. */
  lemma {:induction false} SumForOneMore(items: seq<Message>, threads: seq<Thread>)
    requires items != [] && OnePerPeer(threads)
    ensures SumFor(items, threads)
         == SumFor(items[1..], threads) + if Unread(items[0]) && HasThread(threads, items[0].peer) then 1 else 0
    decreases |threads|
  {
    if threads != [] {
      var p, rest := items[0].peer, threads[1..];
      SumForOneMore(items, rest);
      if HasThread(rest, p) {
        var i :| 0 <= i < |rest| && rest[i].peer == p;
        assert threads[i + 1].peer == p && threads[0].peer != threads[i + 1].peer;
      }
      if HasThread(threads, p) && threads[0].peer != p {
        var i :| 0 <= i < |threads| && threads[i].peer == p;
        assert rest[i - 1].peer == p;
      }
    }
  }

  lemma {:induction false} SumForAll(items: seq<Message>, threads: seq<Thread>)
    requires OnePerPeer(threads) && forall i | 0 <= i < |items| :: HasThread(threads, items[i].peer)
    ensures SumFor(items, threads) == UnreadTotal(items)
    decreases |items|
  {
    if items == [] {
      SumForEmpty(threads);
    } else {
      SumForOneMore(items, threads);
      assert HasThread(threads, items[0].peer);
      forall i | 0 <= i < |items[1..]|
        ensures HasThread(threads, items[1..][i].peer)
      {
        assert items[1..][i] == items[i + 1];
      }
      SumForAll(items[1..], threads);
    }
  }

  lemma {:induction false} SumsAgree(items: seq<Message>, threads: seq<Thread>)
    requires forall i | 0 <= i < |threads| :: threads[i].unread == UnreadFor(items, threads[i].peer)
    ensures SumUnread(threads) == SumFor(items, threads)
    decreases |threads|
  {
    if threads != [] {
      SumsAgree(items, threads[1..]);
    }
  }

  /** The badges of the threads add up to the badge of the app. */
  lemma {:induction false} UnreadAddsUp(items: seq<Message>, threads: seq<Thread>)
    requires ThreadsOf(items, threads)
    ensures SumUnread(threads) == UnreadTotal(items)
  {
    SumsAgree(items, threads);
    SumForAll(items, threads);
  }

  /** m is the message of its peer with the greatest time, the first of them if there are several. */
  ghost predicate IsLatest(items: seq<Message>, p: Peer, m: Message) {
    exists i :: 0 <= i < |items| && LatestAt(items, p, m, i)
  }

  ghost predicate LatestAt(items: seq<Message>, p: Peer, m: Message, i: int) {
    && 0 <= i < |items| && items[i] == m && m.peer == p
    && (forall j | 0 <= j < |items| && items[j].peer == p :: items[j].at <= m.at && (j < i ==> items[j].at < m.at))
  }

  ghost predicate LatestOfEach(items: seq<Message>, byPeer: map<Peer, Message>) {
    && (forall p :: p in byPeer <==> exists i :: 0 <= i < |items| && items[i].peer == p)
    && (forall p | p in byPeer :: IsLatest(items, p, byPeer[p]))
  }

  lemma {:induction false} LatestNone(items: seq<Message>)
    requires items == []
    ensures LatestOfEach(items, map[])
  {}

  lemma {:induction false} LatestAll(items: seq<Message>, byPeer: map<Peer, Message>)
    requires LatestOfEach(items, byPeer)
    ensures forall p :: p in byPeer <==> exists i :: 0 <= i < |items| && items[i].peer == p
    ensures forall p | p in byPeer :: IsLatest(items, p, byPeer[p])
  {
    hide IsLatest;
  }

  lemma {:induction false} LatestStep(items: seq<Message>, k: nat, byPeer: map<Peer, Message>)
    requires k < |items|
    requires LatestOfEach(items[..k], byPeer)
    ensures var m := items[k];
            var next := if m.peer !in byPeer || byPeer[m.peer].at < m.at then byPeer[m.peer := m] else byPeer;
            LatestOfEach(items[..k + 1], next)
  {
    var m := items[k];
    var next := if m.peer !in byPeer || byPeer[m.peer].at < m.at then byPeer[m.peer := m] else byPeer;
    forall p | p in next
      ensures IsLatest(items[..k + 1], p, next[p])
    {
      if p == m.peer && next[p] == m && (p !in byPeer || byPeer[p].at < m.at) {
        assert LatestAt(items[..k + 1], p, m, k) by {
          var seen := items[..k + 1];
          forall j | 0 <= j < |seen| && seen[j].peer == p
            ensures seen[j].at <= m.at && (j < k ==> seen[j].at < m.at)
          {
            if j < k {
              assert items[..k][j].peer == p;
            }
          }
        }
      } else {
        var i :| 0 <= i < k && LatestAt(items[..k], p, byPeer[p], i);
        assert forall j | 0 <= j < k :: items[..k][j] == items[..k + 1][j];
        assert LatestAt(items[..k + 1], p, byPeer[p], i);
      }
    }
    forall p
      ensures p in next <==> exists i :: 0 <= i < k + 1 && items[i].peer == p
    {
      if p == m.peer {
        assert items[k].peer == p;
      }
    }
  }

  // ---- Laws ----

  lemma {:induction false} FindHas(items: seq<Message>, id: Id)
    ensures Find(items, id).Some? <==> Has(items, id)
    ensures Find(items, id).Some? ==> Find(items, id).value.id == id
    decreases |items|
  {
    if items != [] {
      FindHas(items[1..], id);
      if Has(items, id) && items[0].id != id {
        var i :| 0 <= i < |items| && items[i].id == id;
        assert items[1..][i - 1].id == id;
      }
      if Has(items[1..], id) {
        var i :| 0 <= i < |items[1..]| && items[1..][i].id == id;
        assert items[i + 1].id == id;
      }
    }
  }

  lemma {:induction false} Appended(items: seq<Message>, m: Message)
    requires Find(items, m.id).None?
    ensures AddOrUpdate(items, m) == items + [m]
    decreases |items|
  {
    if items != [] {
      Appended(items[1..], m);
      assert items == [items[0]] + items[1..];
    }
  }

  lemma {:induction false} UpdatedAt(items: seq<Message>, m: Message, i: nat)
    requires i < |items| && items[i].id == m.id && forall k | 0 <= k < i :: items[k].id != m.id
    ensures AddOrUpdate(items, m) == items[i := m]
    decreases |items|
  {
    if i > 0 {
      UpdatedAt(items[1..], m, i - 1);
      assert items[i := m] == [items[0]] + items[1..][i - 1 := m];
    }
  }

  /** The ids after addOrUpdate. */
  lemma {:induction false} AddHas(items: seq<Message>, m: Message, id: Id)
    ensures Has(AddOrUpdate(items, m), id) <==> id == m.id || Has(items, id)
  {
    FindHas(items, m.id);
    if Find(items, m.id).None? {
      Appended(items, m);
      var r := items + [m];
      assert r[|items|] == m;
      if Has(items, id) {
        var i :| 0 <= i < |items| && items[i].id == id;
        assert r[i].id == id;
      }
    } else {
      var i := First(items, m.id);
      UpdatedAt(items, m, i);
      var r := items[i := m];
      assert r[i].id == m.id;
      if Has(items, id) {
        var j :| 0 <= j < |items| && items[j].id == id;
        assert r[j].id == id;
      }
      if Has(r, id) {
        var j :| 0 <= j < |r| && r[j].id == id;
        assert items[j].id == id;
      }
    }
  }

  lemma {:induction false} First(items: seq<Message>, id: Id) returns (i: nat)
    requires Find(items, id).Some?
    ensures i < |items| && items[i].id == id && forall k | 0 <= k < i :: items[k].id != id
    ensures Find(items, id) == Some(items[i])
    decreases |items|
  {
    if items[0].id == id {
      i := 0;
    } else {
      var j := First(items[1..], id);
      i := j + 1;
      forall k | 0 <= k < i
        ensures items[k].id != id
      {
        if k > 0 {
          assert items[1..][k - 1].id != id;
        }
      }
    }
  }

  lemma {:induction false} AddUnique(items: seq<Message>, m: Message)
    requires UniqueIds(items)
    ensures UniqueIds(AddOrUpdate(items, m))
  {
    FindHas(items, m.id);
    if Find(items, m.id).None? {
      Appended(items, m);
      var r := items + [m];
      forall i, j | 0 <= i < j < |r|
        ensures r[i].id != r[j].id
      {
        if j == |items| {
          assert items[i].id != m.id;
        }
      }
    } else {
      var i := First(items, m.id);
      UpdatedAt(items, m, i);
    }
  }

  lemma {:induction false} WithoutHas(items: seq<Message>, id: Id, x: Id)
    ensures Has(Without(items, id), x) <==> x != id && Has(items, x)
    decreases |items|
  {
    if items != [] {
      WithoutHas(items[1..], id, x);
      HasCons(items[0], items[1..], x);
      assert items == [items[0]] + items[1..];
      HasCons(items[0], Without(items[1..], id), x);
    }
  }

  lemma {:induction false} HasCons(m: Message, rest: seq<Message>, x: Id)
    ensures Has([m] + rest, x) <==> m.id == x || Has(rest, x)
    ensures [] + rest == rest
  {
    var r := [m] + rest;
    assert r[0] == m;
    if Has(rest, x) {
      var i :| 0 <= i < |rest| && rest[i].id == x;
      assert r[i + 1].id == x;
    }
    if Has(r, x) && m.id != x {
      var i :| 0 <= i < |r| && r[i].id == x;
      assert rest[i - 1].id == x;
    }
  }

  lemma {:induction false} UniqueCons(m: Message, rest: seq<Message>)
    ensures UniqueIds([m] + rest) <==> UniqueIds(rest) && !Has(rest, m.id)
  {
    var r := [m] + rest;
    if UniqueIds(r) {
      forall i, j | 0 <= i < j < |rest| ensures rest[i].id != rest[j].id { assert r[i + 1].id != r[j + 1].id; }
      forall i | 0 <= i < |rest| ensures rest[i].id != m.id { assert r[0].id != r[i + 1].id; }
    }
    if UniqueIds(rest) && !Has(rest, m.id) {
      forall i, j | 0 <= i < j < |r|
        ensures r[i].id != r[j].id
      {
        assert r[j] == rest[j - 1];
        if i > 0 {
          assert r[i] == rest[i - 1];
        }
      }
    }
  }

  lemma {:induction false} WithoutUnique(items: seq<Message>, id: Id)
    requires UniqueIds(items)
    ensures UniqueIds(Without(items, id))
    decreases |items|
  {
    if items != [] {
      var m, rest := items[0], items[1..];
      assert items == [m] + rest;
      UniqueCons(m, rest);
      WithoutUnique(rest, id);
      WithoutHas(rest, id, m.id);
      UniqueCons(m, Without(rest, id));
      HasCons(m, Without(rest, id), m.id);
    }
  }

  lemma {:induction false} WithoutPeerUnique(items: seq<Message>, peer: Peer)
    requires UniqueIds(items)
    ensures UniqueIds(WithoutPeer(items, peer))
    decreases |items|
  {
    if items != [] {
      var m, rest := items[0], items[1..];
      assert items == [m] + rest;
      UniqueCons(m, rest);
      WithoutPeerUnique(rest, peer);
      WithoutPeerHas(rest, peer, m.id);
      UniqueCons(m, WithoutPeer(rest, peer));
      HasCons(m, WithoutPeer(rest, peer), m.id);
    }
  }

  lemma {:induction false} MarkReadIds(items: seq<Message>, peer: Peer, x: Id)
    ensures Has(MarkRead(items, peer), x) <==> Has(items, x)
    ensures UniqueIds(items) ==> UniqueIds(MarkRead(items, peer))
  {
    var r := MarkRead(items, peer);
    assert forall i | 0 <= i < |items| :: r[i].id == items[i].id;
    if Has(items, x) {
      var i :| 0 <= i < |items| && items[i].id == x;
      assert r[i].id == x;
    }
  }

  // ---- Any sequence of operations ----

  datatype Op = Add(m: Message) | Read(peer: Peer) | Remove(id: Id) | RemoveAll(peer: Peer)

  function Apply(items: seq<Message>, op: Op): seq<Message> {
    match op
    case Add(m) => AddOrUpdate(items, m)
    case Read(peer) => MarkRead(items, peer)
    case Remove(id) => Without(items, id)
    case RemoveAll(peer) => WithoutPeer(items, peer)
  }

  function ApplyAll(items: seq<Message>, ops: seq<Op>): seq<Message>
    decreases |ops|
  {
    if ops == [] then items else ApplyAll(Apply(items, ops[0]), ops[1..])
  }

  /** How often id is reported as new. */
  function Announced(items: seq<Message>, ops: seq<Op>, id: Id): nat
    decreases |ops|
  {
    if ops == [] then 0
    else
      (if ops[0].Add? && ops[0].m.id == id && !Has(items, id) then 1 else 0)
        + Announced(Apply(items, ops[0]), ops[1..], id)
  }

  /** How often id is taken out of the store. */
  function Taken(items: seq<Message>, ops: seq<Op>, id: Id): nat
    decreases |ops|
  {
    if ops == [] then 0
    else (if Has(items, id) && !Has(Apply(items, ops[0]), id) then 1 else 0) + Taken(Apply(items, ops[0]), ops[1..], id)
  }

  function Present(items: seq<Message>, id: Id): nat {
    if Has(items, id) then 1 else 0
  }

  lemma {:induction false} ApplyUnique(items: seq<Message>, op: Op)
    requires UniqueIds(items)
    ensures UniqueIds(Apply(items, op))
  {
    match op
    case Add(m) => AddUnique(items, m);
    case Read(peer) => MarkReadIds(items, peer, 0);
    case Remove(id) => WithoutUnique(items, id);
    case RemoveAll(peer) => WithoutPeerUnique(items, peer);
  }

  /** Whatever is done to it, the store never has two entries with one id. */
  lemma {:induction false} AlwaysUnique(ops: seq<Op>)
    ensures UniqueIds(ApplyAll([], ops))
  {
    UniqueFrom([], ops);
  }

  lemma {:induction false} UniqueFrom(items: seq<Message>, ops: seq<Op>)
    requires UniqueIds(items)
    ensures UniqueIds(ApplyAll(items, ops))
    decreases |ops|
  {
    hide Apply, UniqueIds;
    if ops != [] {
      ApplyUnique(items, ops[0]);
      UniqueFrom(Apply(items, ops[0]), ops[1..]);
    }
  }

  /** An id is announced once for each time it is taken out, and once more if it is there now. */
  lemma {:induction false} AnnouncedOnce(items: seq<Message>, ops: seq<Op>, id: Id)
    ensures Announced(items, ops, id) + Present(items, id) == Taken(items, ops, id) + Present(ApplyAll(items, ops), id)
    decreases |ops|
  {
    hide Has;
    if ops != [] {
      AnnouncedOnce(Apply(items, ops[0]), ops[1..], id);
      Appears(items, ops[0], id);
    }
  }

  /** Only addOrUpdate with that id makes an id appear. */
  lemma {:induction false} Appears(items: seq<Message>, op: Op, id: Id)
    ensures !Has(items, id) ==> (Has(Apply(items, op), id) <==> op.Add? && op.m.id == id)
  {
    match op
    case Add(m) => AddHas(items, m, id);
    case Read(peer) => MarkReadIds(items, peer, id);
    case Remove(x) => WithoutHas(items, x, id);
    case RemoveAll(peer) => WithoutPeerHas(items, peer, id);
  }

  lemma {:induction false} WithoutPeerHas(items: seq<Message>, peer: Peer, x: Id)
    ensures Has(WithoutPeer(items, peer), x) ==> Has(items, x)
    decreases |items|
  {
    if items != [] {
      var m, rest := items[0], items[1..];
      assert items == [m] + rest;
      WithoutPeerHas(rest, peer, x);
      HasCons(m, rest, x);
      HasCons(m, WithoutPeer(rest, peer), x);
    }
  }

  /** Opening a conversation leaves nothing of it unread, and the unread messages of all others as they are. */
  lemma {:induction false} OpenedIsRead(items: seq<Message>, peer: Peer, other: Peer)
    ensures UnreadFor(MarkRead(items, peer), other) == if other == peer then 0 else UnreadFor(items, other)
    decreases |items|
  {
    if items != [] {
      var r := MarkRead(items, peer);
      assert r[1..] == MarkRead(items[1..], peer);
      OpenedIsRead(items[1..], peer, other);
    }
  }

  /** Removing by id goes message by message, and keeps their order. */
  lemma {:induction false} WithoutSplits(a: seq<Message>, b: seq<Message>, id: Id)
    ensures Without(a + b, id) == Without(a, id) + Without(b, id)
    ensures forall m :: Without([m], id) == if m.id == id then [] else [m]
    decreases |a|
  {
    if a == [] {
      assert a + b == b;
    } else {
      var one, more := if a[0].id == id then [] else [a[0]], Without(a[1..], id);
      assert (a + b)[1..] == a[1..] + b;
      WithoutSplits(a[1..], b, id);
      assert one + (more + Without(b, id)) == one + more + Without(b, id);
    }
  }

  /** And so does removing by peer. */
  lemma {:induction false} WithoutPeerSplits(a: seq<Message>, b: seq<Message>, peer: Peer)
    ensures WithoutPeer(a + b, peer) == WithoutPeer(a, peer) + WithoutPeer(b, peer)
    ensures forall m :: WithoutPeer([m], peer) == if m.peer == peer then [] else [m]
    decreases |a|
  {
    if a == [] {
      assert a + b == b;
    } else {
      var one, more := if a[0].peer == peer then [] else [a[0]], WithoutPeer(a[1..], peer);
      assert (a + b)[1..] == a[1..] + b;
      WithoutPeerSplits(a[1..], b, peer);
      assert one + (more + WithoutPeer(b, peer)) == one + more + WithoutPeer(b, peer);
    }
  }

  predicate IsUnread(m: Message, peer: Peer) {
    m.peer == peer && m.inbound && !m.read
  }

  /** The places of the received messages of a peer that were not read. */
  ghost function UnreadPlaces(items: seq<Message>, peer: Peer): set<int> {
    set i | 0 <= i < |items| && IsUnread(items[i], peer)
  }

  /** What is counted. */
  lemma {:induction false} UnreadCounts(items: seq<Message>, peer: Peer)
    ensures UnreadFor(items, peer) == |UnreadPlaces(items, peer)|
    decreases |items|
  {
    hide UnreadPlaces, IsUnread;
    if items == [] {
      PlacesLast(items, peer);
    } else {
      UnreadCounts(items[..|items| - 1], peer);
      UnreadLast(items, peer);
      PlacesLast(items, peer);
    }
  }

  lemma {:induction false} PlacesLast(items: seq<Message>, peer: Peer)
    ensures items == [] ==> UnreadPlaces(items, peer) == {}
    ensures items != [] ==>
              |UnreadPlaces(items, peer)| == |UnreadPlaces(items[..|items| - 1], peer)|
              + if IsUnread(items[|items| - 1], peer) then 1 else 0
  {
    hide IsUnread;
    if items != [] {
      var last := |items| - 1;
      var was := UnreadPlaces(items[..last], peer);
      assert UnreadPlaces(items, peer) == if IsUnread(items[last], peer) then was + {last} else was;
    }
  }

  lemma {:induction false} UnreadLast(items: seq<Message>, peer: Peer)
    requires items != []
    ensures UnreadFor(items, peer)
         == UnreadFor(items[..|items| - 1], peer) + if IsUnread(items[|items| - 1], peer) then 1 else 0
  {
    if |items| > 1 {
      UnreadLast(items[1..], peer);
      assert items[1..][..|items| - 2] == items[..|items| - 1][1..];
    }
  }

  /** The copy a phone keeps of a message it sent is the first one with that client id, if there is any. */
  lemma {:induction false} FoundByClient(items: seq<Message>, cid: Id)
    ensures FindClient(items, cid).None? <==> forall m | m in items :: m.clientId != Some(cid)
    ensures FindClient(items, cid).Some? ==>
              exists i :: 0 <= i < |items| && FindClient(items, cid) == Some(items[i]) && items[i].clientId == Some(cid)
                          && forall j | 0 <= j < i :: items[j].clientId != Some(cid)
  {
    if items != [] && items[0].clientId != Some(cid) {
      var rest := items[1..];
      FoundByClient(rest, cid);
      assert forall m | m in items :: m == items[0] || m in rest;
      if FindClient(rest, cid).Some? {
        var i :| 0 <= i < |rest| && FindClient(rest, cid) == Some(rest[i]) && rest[i].clientId == Some(cid)
                 && forall j | 0 <= j < i :: rest[j].clientId != Some(cid);
        assert items[i + 1] == rest[i] && forall j | 0 < j < i + 1 :: items[j] == rest[j - 1];
      }
    }
  }
}
