/**
  Call ids between locked sections.

  Handlers of one exchange run concurrently; only the sections under a mutex are atomic.
  Here every step is one such section, or one call to a recorder made between sections, and
  steps of any number of goroutines interleave freely. A goroutine is what it still has to
  do with a call id it holds.
 */
module CallPhases {
  import opened Options

  type Id = int
  type Number = int
  type Goroutine = int

  datatype Task =
    | Placing(id: Id)      // has generated id
    | Routing(id: Id)      // has taken id out of the ring or the queue and will try voicemail
    | Recorded(id: Id)     // HandleCall has returned, svcCalls is not written yet
    | Ending(id: Id)       // has taken id out of svcCalls, EndCall is still to come

  datatype Phase = Ringing | Queued | Serving

  datatype Tables = Tables(
    rings: set<Id>,
    pending: map<Number, Id>,
    svc: set<Id>,
    tasks: map<Goroutine, Task>,
    // history
    local: set<Id>,            // ids this exchange has generated
    remote: set<Id>,           // ids that came over the bridge
    path: map<Id, seq<Phase>>, // the tables each local id has been entered into
    sessions: multiset<Id>,    // LeaveService.HandleCall invocations
    ends: multiset<Id>         // Service.EndCall invocations
  )

  datatype Section =
    | Generate(g: Goroutine, id: Id)
    | StartRing(g: Goroutine)
    | Queue(g: Goroutine, n: Number)
    | QueueRemote(n: Number, id: Id)
    | TakeRing(id: Id, routes: Option<Goroutine>)        // takeRing and onRingTimeout
    // deliverPendingCall, expirePendingCalls, removePendingByCallID
    | TakePending(n: Number, routes: Option<Goroutine>)
    | Record(g: Goroutine, answers: bool)                // HandleCall returns
    | Serve(g: Goroutine)                                // svcCalls[id] = ...
    | TakeService(id: Id, g: Goroutine)
    | EndService(g: Goroutine)

  function Visit(t: Tables, id: Id, p: Phase): map<Id, seq<Phase>> {
    t.path[id := (if id in t.path then t.path[id] else []) + [p]]
  }

  predicate Free(t: Tables, r: Option<Goroutine>) {
    r.Some? ==> r.value !in t.tasks
  }

  /** Which sections can run: generated ids are new, and a goroutine does one thing after another. */
  predicate Enabled(t: Tables, s: Section) {
    match s
    case Generate(g, id) => g !in t.tasks && id !in t.local && id !in t.remote
    case StartRing(g) => g in t.tasks && t.tasks[g].Placing?
    case Queue(g, _) => g in t.tasks && t.tasks[g].Placing?
    case QueueRemote(_, id) => id !in t.local && id !in t.remote
    case TakeRing(id, r) => id in t.rings && Free(t, r)
    case TakePending(n, r) => n in t.pending && Free(t, r) && (r.Some? ==> t.pending[n] in t.local)
    case Record(g, _) => g in t.tasks && (t.tasks[g].Placing? || t.tasks[g].Routing?)
    case Serve(g) => g in t.tasks && (t.tasks[g].Recorded? || t.tasks[g].Placing?)
    case TakeService(id, g) => id in t.svc && g !in t.tasks
    case EndService(g) => g in t.tasks && t.tasks[g].Ending?
  }

  function Hand(t: Tables, r: Option<Goroutine>, id: Id): map<Goroutine, Task> {
    if r.Some? then t.tasks[r.value := Routing(id)] else t.tasks
  }

  function Run(t: Tables, s: Section): Tables
    requires Enabled(t, s)
  {
    match s
    case Generate(g, id) => t.(local := t.local + {id}, tasks := t.tasks[g := Placing(id)])
    case StartRing(g) =>
      var id := t.tasks[g].id;
      t.(rings := t.rings + {id}, path := Visit(t, id, Ringing), tasks := t.tasks - {g})
    case Queue(g, n) =>
      var id := t.tasks[g].id;
      t.(pending := t.pending[n := id], path := Visit(t, id, Queued), tasks := t.tasks - {g})
    case QueueRemote(n, id) => t.(remote := t.remote + {id}, pending := t.pending[n := id])
    case TakeRing(id, r) => t.(rings := t.rings - {id}, tasks := Hand(t, r, id))
    case TakePending(n, r) => t.(pending := t.pending - {n}, tasks := Hand(t, r, t.pending[n]))
    case Record(g, answers) =>
      var id := t.tasks[g].id;
      t.(sessions := t.sessions + multiset{id},
         tasks := if answers then t.tasks[g := Recorded(id)] else t.tasks - {g})
    case Serve(g) =>
      var id := t.tasks[g].id;
      t.(svc := t.svc + {id}, path := Visit(t, id, Serving), tasks := t.tasks - {g})
    case TakeService(id, g) => t.(svc := t.svc - {id}, tasks := t.tasks[g := Ending(id)])
    case EndService(g) => t.(ends := t.ends + multiset{t.tasks[g].id}, tasks := t.tasks - {g})
  }

  const START := Tables({}, map[], {}, map[], {}, {}, map[], multiset{}, multiset{})

  ghost predicate Interleaving(ts: seq<Tables>, ss: seq<Section>) {
    && |ts| == |ss| + 1 && ts[0] == START
    && forall i | 0 <= i < |ss| :: Enabled(ts[i], ss[i]) && ts[i + 1] == Run(ts[i], ss[i])
  }

  // ---- The invariant: a call id is one token ----

  function Path(t: Tables, id: Id): seq<Phase> {
    if id in t.path then t.path[id] else []
  }

  predicate Waited(p: seq<Phase>) {
    p == [Ringing] || p == [Queued]
  }

  predicate Served(p: seq<Phase>) {
    p == [Serving] || p == [Ringing, Serving] || p == [Queued, Serving]
  }

  /** The id is in one place at most. */
  ghost predicate OnePlace(t: Tables, id: Id) {
    && (id in t.rings ==> id !in t.svc)
    && (forall n | n in t.pending && t.pending[n] == id :: id !in t.rings && id !in t.svc)
    && (forall n, m | n in t.pending && m in t.pending && t.pending[n] == id && t.pending[m] == id :: n == m)
    && (forall g | g in t.tasks && t.tasks[g].id == id ::
          && id !in t.rings && id !in t.svc && (forall n | n in t.pending :: t.pending[n] != id)
          && forall h | h in t.tasks && t.tasks[h].id == id :: g == h)
  }

  /** What the id has been through fits the place it is in. */
  ghost predicate Fits(t: Tables, id: Id) {
    && (id in t.rings ==> id in t.local && Path(t, id) == [Ringing] && t.sessions[id] == 0 && t.ends[id] == 0)
    && (forall n | n in t.pending && t.pending[n] == id ::
          id in t.remote || (id in t.local && Path(t, id) == [Queued] && t.sessions[id] == 0 && t.ends[id] == 0))
    && (id in t.svc ==> id in t.local && Served(Path(t, id)) && t.sessions[id] <= 1 && t.ends[id] == 0)
    && (forall g | g in t.tasks && t.tasks[g].id == id :: id in t.local && Due(t, t.tasks[g]))
    && (Path(t, id) == [] || Waited(Path(t, id)) || Served(Path(t, id)))
    && t.sessions[id] <= 1 && t.ends[id] <= 1 && (t.ends[id] > 0 ==> Served(Path(t, id)))
    && (id in t.remote || id !in t.local ==> Path(t, id) == [] && t.sessions[id] == 0 && t.ends[id] == 0)
    && !(id in t.remote && id in t.local)
  }

  ghost predicate Due(t: Tables, k: Task) {
    match k
    case Placing(id) => Path(t, id) == [] && t.sessions[id] == 0 && t.ends[id] == 0
    case Routing(id) => Waited(Path(t, id)) && t.sessions[id] == 0 && t.ends[id] == 0
    case Recorded(id) => (Path(t, id) == [] || Waited(Path(t, id))) && t.sessions[id] == 1 && t.ends[id] == 0
    case Ending(id) => Served(Path(t, id)) && t.sessions[id] <= 1 && t.ends[id] == 0
  }

  ghost predicate Linear(t: Tables) {
    forall id :: OnePlace(t, id) && Fits(t, id)
  }

  lemma {:induction false} GenerateKeeps(t: Tables, g: Goroutine, k: Id, id: Id)
    requires Enabled(t, Generate(g, k)) && Linear(t)
    ensures OnePlace(Run(t, Generate(g, k)), id) && Fits(Run(t, Generate(g, k)), id)
  {
    assert OnePlace(t, id) && Fits(t, id);
  }

  lemma {:induction false} StartRingKeeps(t: Tables, g: Goroutine, id: Id)
    requires Enabled(t, StartRing(g)) && Linear(t)
    ensures OnePlace(Run(t, StartRing(g)), id) && Fits(Run(t, StartRing(g)), id)
  {
    assert OnePlace(t, id) && Fits(t, id);
  }

  lemma {:induction false} QueueKeeps(t: Tables, g: Goroutine, n: Number, id: Id)
    requires Enabled(t, Queue(g, n)) && Linear(t)
    ensures OnePlace(Run(t, Queue(g, n)), id) && Fits(Run(t, Queue(g, n)), id)
  {
    assert OnePlace(t, id) && Fits(t, id);
  }

  lemma {:induction false} QueueRemoteKeeps(t: Tables, n: Number, k: Id, id: Id)
    requires Enabled(t, QueueRemote(n, k)) && Linear(t)
    ensures OnePlace(Run(t, QueueRemote(n, k)), id) && Fits(Run(t, QueueRemote(n, k)), id)
  {
    assert OnePlace(t, id) && Fits(t, id);
  }

  lemma {:induction false} TakeRingKeeps(t: Tables, k: Id, r: Option<Goroutine>, id: Id)
    requires Enabled(t, TakeRing(k, r)) && Linear(t)
    ensures OnePlace(Run(t, TakeRing(k, r)), id) && Fits(Run(t, TakeRing(k, r)), id)
  {
    assert OnePlace(t, id) && Fits(t, id);
  }

  lemma {:induction false} TakePendingKeeps(t: Tables, n: Number, r: Option<Goroutine>, id: Id)
    requires Enabled(t, TakePending(n, r)) && Linear(t)
    ensures OnePlace(Run(t, TakePending(n, r)), id) && Fits(Run(t, TakePending(n, r)), id)
  {
    assert OnePlace(t, id) && Fits(t, id);
  }

  lemma {:induction false} RecordKeeps(t: Tables, g: Goroutine, answers: bool, id: Id)
    requires Enabled(t, Record(g, answers)) && Linear(t)
    ensures OnePlace(Run(t, Record(g, answers)), id) && Fits(Run(t, Record(g, answers)), id)
  {
    assert OnePlace(t, id) && Fits(t, id);
  }

  lemma {:induction false} ServeKeeps(t: Tables, g: Goroutine, id: Id)
    requires Enabled(t, Serve(g)) && Linear(t)
    ensures OnePlace(Run(t, Serve(g)), id) && Fits(Run(t, Serve(g)), id)
  {
    assert OnePlace(t, id) && Fits(t, id);
  }

  lemma {:induction false} TakeServiceKeeps(t: Tables, k: Id, g: Goroutine, id: Id)
    requires Enabled(t, TakeService(k, g)) && Linear(t)
    ensures OnePlace(Run(t, TakeService(k, g)), id) && Fits(Run(t, TakeService(k, g)), id)
  {
    assert OnePlace(t, id) && Fits(t, id);
  }

  lemma {:induction false} EndServiceKeeps(t: Tables, g: Goroutine, id: Id)
    requires Enabled(t, EndService(g)) && Linear(t)
    ensures OnePlace(Run(t, EndService(g)), id) && Fits(Run(t, EndService(g)), id)
  {
    assert OnePlace(t, id) && Fits(t, id);
  }

  lemma {:induction false} SectionKeeps(t: Tables, s: Section)
    requires Linear(t) && Enabled(t, s)
    ensures Linear(Run(t, s))
  {
    hide OnePlace, Fits;
    forall id ensures OnePlace(Run(t, s), id) && Fits(Run(t, s), id) {
      match s
      case Generate(g, k) => GenerateKeeps(t, g, k, id);
      case StartRing(g) => StartRingKeeps(t, g, id);
      case Queue(g, n) => QueueKeeps(t, g, n, id);
      case QueueRemote(n, k) => QueueRemoteKeeps(t, n, k, id);
      case TakeRing(k, r) => TakeRingKeeps(t, k, r, id);
      case TakePending(n, r) => TakePendingKeeps(t, n, r, id);
      case Record(g, answers) => RecordKeeps(t, g, answers, id);
      case Serve(g) => ServeKeeps(t, g, id);
      case TakeService(k, g) => TakeServiceKeeps(t, k, g, id);
      case EndService(g) => EndServiceKeeps(t, g, id);
    }
  }

  lemma {:induction false} InterleavingKeeps(ts: seq<Tables>, ss: seq<Section>, i: nat)
    requires Interleaving(ts, ss) && i < |ts|
    ensures Linear(ts[i])
  {
    hide Enabled, Run, Linear;
    if i == 0 {
      StartLinear();
    } else {
      InterleavingKeeps(ts, ss, i - 1);
      SectionKeeps(ts[i - 1], ss[i - 1]);
    }
  }

  lemma {:induction false} StartLinear()
    ensures Linear(START)
  {}

  /**
    However the sections interleave: a local call id is in one table at most, has gone through at most one of
    ring and queue and then at most once into service, was given one recorder at most, and that was ended at
    most once.
   */
  lemma {:induction false} CallIdPhases(ts: seq<Tables>, ss: seq<Section>, i: nat, id: Id)
    requires Interleaving(ts, ss) && i < |ts| && id in ts[i].local
    ensures var t := ts[i];
            && !(id in t.rings && id in t.svc)
            && (forall n | n in t.pending && t.pending[n] == id ::
                  id !in t.rings && id !in t.svc && forall m | m in t.pending && m != n :: t.pending[m] != id)
            && Path(t, id) in {[], [Ringing], [Queued], [Serving], [Ringing, Serving], [Queued, Serving]}
            && (id in t.rings ==> Path(t, id) == [Ringing]) && (id in t.svc ==> Served(Path(t, id)))
            && t.sessions[id] <= 1 && t.ends[id] <= 1
            && (t.ends[id] == 1 ==> Served(Path(t, id)) && id !in t.svc)
  {
    InterleavingKeeps(ts, ss, i);
    assert OnePlace(ts[i], id) && Fits(ts[i], id);
    hide Run, Enabled;
  }

  // ---- Services are told ----

  /** A goroutine is about to tell the service of the id that the call is over. */
  ghost predicate IsEnding(t: Tables, id: Id) {
    exists g :: g in t.tasks && t.tasks[g] == Ending(id)
  }

  /** A call that had a service still has it, or the service was told once that it is over, or is about to be. */
  ghost predicate Told(t: Tables, id: Id) {
    Served(Path(t, id)) ==> id in t.svc || t.ends[id] == 1 || IsEnding(t, id)
  }

  lemma {:induction false} SectionTells(t: Tables, s: Section, id: Id)
    requires Linear(t) && Enabled(t, s) && Told(t, id)
    ensures Told(Run(t, s), id)
  {
    assert OnePlace(t, id) && Fits(t, id);
    hide Linear, OnePlace;
    var t' := Run(t, s);
    if IsEnding(t, id) {
      var g :| g in t.tasks && t.tasks[g] == Ending(id);
      if s != EndService(g) {
        assert g in t'.tasks && t'.tasks[g] == Ending(id);
      }
    } else if s.TakeService? && s.id == id {
      assert t'.tasks[s.g] == Ending(id);
    } else if s.EndService? {
      assert t.tasks[s.g].id != id && t'.ends[id] == t.ends[id];
    } else {
      var p := Path(t', id);
      assert p == Path(t, id) || (p != [] && p[|p| - 1] != Serving) || id in t'.svc;
      assert Served(p) ==> p[|p| - 1] == Serving;
    }
  }

  lemma {:induction false} ServicesAreTold(ts: seq<Tables>, ss: seq<Section>, i: nat, id: Id)
    requires Interleaving(ts, ss) && i < |ts|
    ensures Told(ts[i], id)
  {
    hide Enabled, Run, Linear, Told;
    if i == 0 {
      NothingTold(id);
    } else {
      ServicesAreTold(ts, ss, i - 1, id);
      InterleavingKeeps(ts, ss, i - 1);
      SectionTells(ts[i - 1], ss[i - 1], id);
    }
  }

  lemma {:induction false} NothingTold(id: Id)
    ensures Told(START, id) && !Waits(START, id) && Path(START, id) == []
  {}

  // ---- Accounts ----

  datatype Kind = ToRing | FromRing | ToQueue | FromQueue | Asked | ToService | FromService | Over

  /** What the section does with an id, and with which. */
  function Deed(t: Tables, s: Section): Option<(Kind, Id)>
    requires Enabled(t, s)
  {
    match s
    case Generate(_, _) => None
    case StartRing(g) => Some((ToRing, t.tasks[g].id))
    case Queue(g, _) => Some((ToQueue, t.tasks[g].id))
    case QueueRemote(_, id) => Some((ToQueue, id))
    case TakeRing(id, _) => Some((FromRing, id))
    case TakePending(n, _) => Some((FromQueue, t.pending[n]))
    case Record(g, _) => Some((Asked, t.tasks[g].id))
    case Serve(g) => Some((ToService, t.tasks[g].id))
    case TakeService(id, _) => Some((FromService, id))
    case EndService(g) => Some((Over, t.tasks[g].id))
  }

  /** How often that was done in the first i sections. */
  ghost function Times(ts: seq<Tables>, ss: seq<Section>, i: nat, k: Kind, id: Id): nat
    requires Interleaving(ts, ss) && i < |ts|
  {
    if i == 0 then 0
    else Times(ts, ss, i - 1, k, id) + if Deed(ts[i - 1], ss[i - 1]) == Some((k, id)) then 1 else 0
  }

  function One(b: bool): int {
    if b then 1 else 0
  }

  ghost predicate Waits(t: Tables, id: Id) {
    exists n :: n in t.pending && t.pending[n] == id
  }

  /**
    The accounts of any id balance, however the sections interleave: what went into the ring or service table and did
    not come out is there, a queued id went in once more than it came out, and each recorder that was asked, and each
    service that was told, is counted once.
   */
  lemma {:induction false} AccountsBalance(ts: seq<Tables>, ss: seq<Section>, i: nat, id: Id)
    requires Interleaving(ts, ss) && i < |ts|
    ensures Times(ts, ss, i, ToRing, id) - Times(ts, ss, i, FromRing, id) == One(id in ts[i].rings)
    ensures Times(ts, ss, i, ToService, id) - Times(ts, ss, i, FromService, id) == One(id in ts[i].svc)
    ensures Times(ts, ss, i, ToQueue, id) - Times(ts, ss, i, FromQueue, id) >= One(Waits(ts[i], id))
    ensures Times(ts, ss, i, Asked, id) == ts[i].sessions[id] && Times(ts, ss, i, Over, id) == ts[i].ends[id]
    ensures Times(ts, ss, i, ToRing, id) + Times(ts, ss, i, ToService, id) <= |Path(ts[i], id)|
  {
    hide Enabled, Run, Linear, Deed, Waits, Path;
    if i == 0 {
      NothingTold(id);
    } else {
      AccountsBalance(ts, ss, i - 1, id);
      InterleavingKeeps(ts, ss, i - 1);
      SectionCounts(ts[i - 1], ss[i - 1], id);
    }
  }

  lemma {:induction false} SectionCounts(t: Tables, s: Section, id: Id)
    requires Linear(t) && Enabled(t, s)
    ensures var t', d := Run(t, s), Deed(t, s);
            && One(id in t'.rings) == One(id in t.rings) + One(d == Some((ToRing, id))) - One(d == Some((FromRing, id)))
            && One(id in t'.svc)
               == One(id in t.svc) + One(d == Some((ToService, id))) - One(d == Some((FromService, id)))
            && One(Waits(t', id))
               <= One(Waits(t, id)) + One(d == Some((ToQueue, id))) - One(d == Some((FromQueue, id)))
            && t'.sessions[id] == t.sessions[id] + One(d == Some((Asked, id)))
            && t'.ends[id] == t.ends[id] + One(d == Some((Over, id)))
            && |Path(t', id)| >= |Path(t, id)| + One(d == Some((ToRing, id))) + One(d == Some((ToService, id)))
  {
    assert OnePlace(t, id) && Fits(t, id);
  }
}
