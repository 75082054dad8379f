/**
  How the softphone buffers ICE candidates around a call (softphone/lib/core/app_state.dart).

  Callbacks run one at a time, but makeCall, answerCall and onCallConnected wait on the
  way; when they go on, the active call may be another one, and they do not look.
 */
module SoftphoneIce {
  import opened Options

  type CallId = int
  type Candidate = int

  /** The active call; the last five fields record what happened to its candidates. */
  datatype Call = Call(
    callId: Option<CallId>,             // None is the empty id of a call just placed
    incoming: bool,
    peer: bool,                         // peerConnection != null
    remoteSet: bool,                    // remoteDescriptionSet
    pendingLocal: seq<Candidate>,
    pendingRemote: seq<Candidate>,
    described: bool,                    // its peer connection has a remote description
    gathered: seq<Candidate>,           // local candidates produced
    sent: seq<(Option<CallId>, Candidate)>,
    accepted: seq<Candidate>,           // remote candidates taken
    applied: seq<Candidate>             // remote candidates given to the peer connection
  )

  function Fresh(id: Option<CallId>, incoming: bool): Call {
    Call(id, incoming, false, false, [], [], false, [], [], [], [])
  }

  function Tagged(id: Option<CallId>, cs: seq<Candidate>): seq<(Option<CallId>, Candidate)> {
    seq(|cs|, i requires 0 <= i < |cs| => (id, cs[i]))
  }

  function Untagged(sent: seq<(Option<CallId>, Candidate)>): seq<Candidate> {
    seq(|sent|, i requires 0 <= i < |sent| => sent[i].1)
  }

  // ---- What the callbacks do to the call ----

  function FlushLocal(c: Call): Call {
    c.(sent := c.sent + Tagged(c.callId, c.pendingLocal), pendingLocal := [])
  }

  function FlushRemote(c: Call): Call {
    if c.peer && c.remoteSet then c.(applied := c.applied + c.pendingRemote, pendingRemote := []) else c
  }

  function OnGathered(c: Call, x: Candidate): Call {
    var g := c.(gathered := c.gathered + [x]);
    if c.callId.Some? then g.(sent := g.sent + [(g.callId, x)]) else g.(pendingLocal := g.pendingLocal + [x])
  }

  function OnRemote(c: Call, id: CallId, x: Candidate): Call {
    if c.callId.Some? && c.callId != Some(id) then c
    else
      var a := c.(accepted := c.accepted + [x]);
      if c.peer && c.remoteSet then a.(applied := a.applied + [x]) else a.(pendingRemote := a.pendingRemote + [x])
  }

  function OnRinging(c: Call, id: CallId): Call {
    FlushLocal(c.(callId := Some(id)))
  }

  predicate Matches(c: Call, id: CallId) {
    c.callId == Some(id) || (c.callId.None? && !c.incoming)
  }

  /** onCallConnected up to its first wait. */
  function OnConnected(c: Call, id: CallId): Call {
    if Matches(c, id) then c.(callId := Some(id)) else c
  }

  /** Between its two waits: the remote description goes to whatever call is active. */
  function Describe(c: Call): Call {
    if c.peer then c.(described := true) else c
  }

  /** After them: `answered` says whether a remote description was set. */
  function Finish(c: Call, answered: bool): Call {
    FlushRemote(FlushLocal(if answered then c.(remoteSet := true) else c))
  }

  /** makeCall and answerCall have created a peer connection, and give it to whatever call is active. */
  function WithPeer(c: Call): Call {
    c.(peer := true, described := false)
  }

  /**
    answerCall goes on once its own peer connection has an offer as its remote description; `own` says whether
    that is the connection of the active call.
   */
  function Accept(c: Call, own: bool): Call {
    FlushRemote(c.(described := own || c.described, remoteSet := true))
  }

  class AppState {
    var activeCall: Option<Call>

    constructor ()
      ensures activeCall.None?
    {
      activeCall := None;
    }

    method FlushLocalIce()
      modifies this
      ensures activeCall == if old(activeCall).None? then None else Some(FlushLocal(old(activeCall).value))
    {
      if activeCall.None? {
        return;
      }
      var c := activeCall.value;
      var i := 0;
      while i < |c.pendingLocal|
        invariant 0 <= i <= |c.pendingLocal|
        invariant activeCall.Some? && activeCall.value == c.(sent := activeCall.value.sent)
        invariant activeCall.value.sent == c.sent + Tagged(c.callId, c.pendingLocal[..i])
      {
        var a := activeCall.value;
        activeCall := Some(a.(sent := a.sent + [(a.callId, c.pendingLocal[i])]));
        assert Tagged(c.callId, c.pendingLocal[..i + 1])
          == Tagged(c.callId, c.pendingLocal[..i]) + [(c.callId, c.pendingLocal[i])];
        i := i + 1;
      }
      assert c.pendingLocal[..i] == c.pendingLocal;
      activeCall := Some(activeCall.value.(pendingLocal := []));
    }

    method FlushRemoteIce()
      modifies this
      ensures activeCall == if old(activeCall).None? then None else Some(FlushRemote(old(activeCall).value))
    {
      if activeCall.None? || !activeCall.value.peer || !activeCall.value.remoteSet {
        return;
      }
      var c := activeCall.value;
      var i := 0;
      while i < |c.pendingRemote|
        invariant 0 <= i <= |c.pendingRemote|
        invariant activeCall.Some? && activeCall.value == c.(applied := activeCall.value.applied)
        invariant activeCall.value.applied == c.applied + c.pendingRemote[..i]
      {
        assert c.pendingRemote[..i + 1] == c.pendingRemote[..i] + [c.pendingRemote[i]];
        activeCall := Some(activeCall.value.(applied := activeCall.value.applied + [c.pendingRemote[i]]));
        i := i + 1;
      }
      assert c.pendingRemote[..i] == c.pendingRemote;
      activeCall := Some(activeCall.value.(pendingRemote := []));
    }

    method OnICECandidate(id: CallId, x: Candidate)
      modifies this
      ensures activeCall == if old(activeCall).None? then None else Some(OnRemote(old(activeCall).value, id, x))
    {
      if activeCall.None? {
        return;
      }
      var c := activeCall.value;
      if c.callId != Some(id) && c.callId.Some? {
        return;
      }
      c := c.(accepted := c.accepted + [x]);
      activeCall := Some(if c.peer && c.remoteSet then c.(applied := c.applied + [x])
                         else c.(pendingRemote := c.pendingRemote + [x]));
    }

    /** pc.onIceCandidate. */
    method OnIceCandidate(x: Candidate)
      modifies this
      ensures activeCall == if old(activeCall).None? then None else Some(OnGathered(old(activeCall).value, x))
    {
      if activeCall.Some? {
        var c := activeCall.value.(gathered := activeCall.value.gathered + [x]);
        activeCall := Some(if c.callId.Some? then c.(sent := c.sent + [(c.callId, x)])
                           else c.(pendingLocal := c.pendingLocal + [x]));
      }
    }

    method OnCallRinging(id: CallId)
      modifies this
      ensures activeCall == if old(activeCall).None? then None else Some(OnRinging(old(activeCall).value, id))
    {
      if activeCall.Some? {
        activeCall := Some(activeCall.value.(callId := Some(id)));
        FlushLocalIce();
      }
    }

    /** answerCall, after its wait for setRemoteDescription. */
    method OfferDescribed(own: bool)
      modifies this
      ensures activeCall == if old(activeCall).None? then None else Some(Accept(old(activeCall).value, own))
    {
      if activeCall.Some? {
        activeCall := Some(activeCall.value.(described := own || activeCall.value.described, remoteSet := true));
        FlushRemoteIce();
      }
    }

    /** The end of onCallConnected. */
    method FinishConnected(answered: bool)
      modifies this
      ensures activeCall == if old(activeCall).None? then None else Some(Finish(old(activeCall).value, answered))
    {
      if activeCall.Some? && answered {
        activeCall := Some(activeCall.value.(remoteSet := true));
      }
      FlushLocalIce();
      FlushRemoteIce();
    }
  }

  // ---- Runs ----

  /** Where an onCallConnected that has been let in stands: before its remote description, or before its flushes. */
  datatype Waiting = ToDescribe(serial: int, answer: bool) | ToFinish(serial: int, answered: bool)

  /** The active call with a serial number for its identity, and the callbacks that wait. */
  datatype App = App(call: Option<Call>, serial: int, waits: seq<Waiting>)

  datatype Event =
    | Place                                    // makeCall
    | Incoming(id: CallId)
    | PeerReady                                // some makeCall or answerCall has its peer connection
    | Gathered(x: Candidate)
    | Remote(id: CallId, x: Candidate)
    | Ringing(id: CallId)
    | Connected(id: CallId, answer: bool)
    | Resume(k: nat)                           // the k-th waiting callback goes on
    | OfferSet(own: bool)                      // some answerCall has set an offer as remote description
    | Over                                     // hangup, decline, call_ended

  const START := App(None, 0, [])

  predicate Can(a: App, e: Event) {
    match e
    case Resume(k) => k < |a.waits|
    case PeerReady => a.call.Some?
    case OfferSet(own) => a.call.Some? && (own ==> a.call.value.peer)
    case Gathered(_) => a.call.Some?
    case _ => true
  }

  function With(a: App, c: Call): App {
    a.(call := Some(c))
  }

  function Next(a: App, e: Event): App
    requires Can(a, e)
  {
    match e
    case Place => a.(call := Some(Fresh(None, false)), serial := a.serial + 1)
    case Incoming(id) => a.(call := Some(Fresh(Some(id), true)), serial := a.serial + 1)
    case PeerReady => With(a, WithPeer(a.call.value))
    case Gathered(x) => With(a, OnGathered(a.call.value, x))
    case Remote(id, x) => if a.call.None? then a else With(a, OnRemote(a.call.value, id, x))
    case Ringing(id) => if a.call.None? then a else With(a, OnRinging(a.call.value, id))
    case Connected(id, answer) =>
      if a.call.None? || !Matches(a.call.value, id) then a
      else With(a, OnConnected(a.call.value, id)).(waits := a.waits + [ToDescribe(a.serial, answer)])
    case Resume(k) => Resumed(a.(waits := a.waits[..k] + a.waits[k + 1..]), a.waits[k])
    case OfferSet(own) => With(a, Accept(a.call.value, own))
    case Over => a.(call := None)
  }

  function Resumed(a: App, w: Waiting): App {
    match w
    case ToDescribe(serial, answer) =>
      if answer && a.call.Some? && a.call.value.peer
      then With(a, Describe(a.call.value)).(waits := a.waits + [ToFinish(serial, true)])
      else if a.call.None? then a
      else With(a, Finish(a.call.value, false))
    case ToFinish(serial, answered) =>
      if a.call.None? then a else With(a, Finish(a.call.value, answered))
  }

  ghost predicate Run(apps: seq<App>, events: seq<Event>) {
    && |apps| == |events| + 1 && apps[0] == START
    && forall i | 0 <= i < |events| :: Can(apps[i], events[i]) && apps[i + 1] == Next(apps[i], events[i])
  }

  // ---- What is always true of the active call ----

  /** Local candidates: each one sent or waiting to be, none twice. */
  predicate LocalKept(c: Call) {
    multiset(c.gathered) == multiset(Untagged(c.sent)) + multiset(c.pendingLocal)
  }

  /** No candidate went out with an empty call id. */
  predicate NeverEmpty(c: Call) {
    forall i | 0 <= i < |c.sent| :: c.sent[i].0.Some?
  }

  /** Remote candidates: applied ones first, then the buffered ones, in the order they came. */
  predicate RemoteKept(c: Call) {
    && c.accepted == c.applied + c.pendingRemote
    && (c.applied != [] ==> c.remoteSet) && (c.remoteSet ==> c.described && c.peer && c.pendingRemote == [])
  }

  predicate Sound(c: Call) {
    && LocalKept(c) && NeverEmpty(c) && RemoteKept(c)
    && (c.callId.None? ==> !c.incoming && c.sent == [])
    && (c.described ==> c.peer)
  }

  /** No local candidate waits for an id. */
  predicate Sendable(c: Call) {
    c.callId.Some? || c.pendingLocal == []
  }

  /** What a callback that goes on late has to find in the active call. */
  predicate Meets(a: App, e: Event)
    requires Can(a, e)
  {
    a.call.Some? ==>
      var c := a.call.value;
      match e
      case PeerReady => !c.remoteSet
      case OfferSet(own) => own || c.described
      case Resume(k) =>
        (match a.waits[k]
         case ToDescribe(_, answer) => (answer && c.peer) || Sendable(c)
         case ToFinish(_, answered) => Sendable(c) && (answered ==> c.described))
      case _ => true
  }

  lemma {:induction false} UntaggedMore(sent: seq<(Option<CallId>, Candidate)>, id: Option<CallId>, cs: seq<Candidate>)
    ensures Untagged(sent + Tagged(id, cs)) == Untagged(sent) + cs
  {}

  lemma {:induction false} FlushLocalSound(c: Call)
    requires Sound(c) && c.callId.Some?
    ensures Sound(FlushLocal(c))
  {
    UntaggedMore(c.sent, c.callId, c.pendingLocal);
  }

  lemma {:induction false} GatheredSound(c: Call, x: Candidate)
    requires Sound(c)
    ensures Sound(OnGathered(c, x))
  {
    hide LocalKept;
    GatheredKept(c, x);
  }

  lemma {:induction false} GatheredKept(c: Call, x: Candidate)
    requires LocalKept(c)
    ensures LocalKept(OnGathered(c, x))
  {
    hide Untagged, Tagged;
    var d := OnGathered(c, x);
    OneMoreIn(c.gathered, x);
    if c.callId.Some? {
      OneTagged(c.sent, c.callId, x);
      OneMoreIn(Untagged(c.sent), x);
      assert d.sent == c.sent + [(c.callId, x)] && d.pendingLocal == c.pendingLocal;
    } else {
      OneMoreIn(c.pendingLocal, x);
      assert d.sent == c.sent && d.pendingLocal == c.pendingLocal + [x];
    }
  }

  lemma {:induction false} OneMoreIn(xs: seq<Candidate>, x: Candidate)
    ensures multiset(xs + [x]) == multiset(xs) + multiset{x}
  {}

  lemma {:induction false} OneTagged(sent: seq<(Option<CallId>, Candidate)>, id: Option<CallId>, x: Candidate)
    ensures Untagged(sent + [(id, x)]) == Untagged(sent) + [x]
  {
    assert Tagged(id, [x]) == [(id, x)];
    UntaggedMore(sent, id, [x]);
  }

  lemma {:induction false} RemoteSound(c: Call, id: CallId, x: Candidate)
    requires Sound(c)
    ensures Sound(OnRemote(c, id, x))
  {
    var d := OnRemote(c, id, x);
    if d.applied == c.applied {
      assert c.applied + (c.pendingRemote + [x]) == c.applied + c.pendingRemote + [x];
    }
  }

  lemma {:induction false} DescribeSound(c: Call)
    requires Sound(c) && c.peer
    ensures Sound(Describe(c)) && Describe(c).described && Describe(c).callId == c.callId
  {}

  /** A flush sends something under an empty id exactly when the active call has none yet and candidates wait. */
  lemma {:induction false} EmptyIdSentIff(c: Call, answered: bool)
    requires NeverEmpty(c)
    ensures !NeverEmpty(Finish(c, answered)) <==> !Sendable(c)
  {
    var d := Finish(c, answered);
    assert d.sent == c.sent + Tagged(c.callId, c.pendingLocal);
    if !Sendable(c) {
      assert d.sent[|c.sent|] == (None, c.pendingLocal[0]);
    }
  }

  lemma {:induction false} FinishLocal(c: Call, answered: bool)
    requires LocalKept(c)
    ensures var d := Finish(c, answered); LocalKept(d) && d.callId == c.callId && d.incoming == c.incoming
    ensures c.sent == [] && c.pendingLocal == [] ==> Finish(c, answered).sent == []
  {
    UntaggedMore(c.sent, c.callId, c.pendingLocal);
  }

  lemma {:induction false} FinishRemoteIff(c: Call, answered: bool)
    requires RemoteKept(c) && (c.described ==> c.peer)
    ensures var d := Finish(c, answered);
            (RemoteKept(d) && (d.described ==> d.peer)) <==> (answered ==> c.described)
  {
    assert c.applied + c.pendingRemote + [] == c.applied + c.pendingRemote;
  }

  /** The end of onCallConnected leaves the active call in order exactly when it finds it ready. */
  lemma {:induction false} FinishSoundIff(c: Call, answered: bool)
    requires Sound(c)
    ensures Sound(Finish(c, answered)) <==> Sendable(c) && (answered ==> c.described)
  {
    hide LocalKept, NeverEmpty, RemoteKept, Finish;
    FinishLocal(c, answered);
    EmptyIdSentIff(c, answered);
    FinishRemoteIff(c, answered);
  }

  lemma {:induction false} AcceptSoundIff(c: Call, own: bool)
    requires Sound(c) && (own ==> c.peer)
    ensures Sound(Accept(c, own)) <==> own || c.described
  {
    assert c.applied + c.pendingRemote + [] == c.applied + c.pendingRemote;
  }

  lemma {:induction false} PeerSoundIff(c: Call)
    requires Sound(c)
    ensures Sound(WithPeer(c)) <==> !c.remoteSet
  {}

  lemma {:induction false} NamedSound(c: Call, id: CallId)
    requires Sound(c)
    ensures Sound(c.(callId := Some(id)))
  {}

  /** Whatever happens to a call in order: it stays in order exactly when the callback finds what it has to. */
  lemma {:induction false} NextSoundIff(a: App, e: Event)
    requires Can(a, e) && a.call.Some? && Sound(a.call.value) && Next(a, e).serial == a.serial && !e.Over?
    ensures Next(a, e).call.Some? && (Sound(Next(a, e).call.value) <==> Meets(a, e))
  {
    hide Sound, Finish, Describe, Accept, WithPeer, OnGathered, OnRemote, FlushLocal, Sendable;
    var c := a.call.value;
    match e
    case PeerReady => PeerSoundIff(c);
    case Gathered(x) => GatheredSound(c, x);
    case Remote(id, x) => RemoteSound(c, id, x);
    case Ringing(id) => NamedSound(c, id); FlushLocalSound(c.(callId := Some(id)));
    case Connected(id, _) => NamedSound(c, id);
    case OfferSet(own) => AcceptSoundIff(c, own);
    case Resume(k) =>
      match a.waits[k] {
        case ToDescribe(_, answer) => if answer && c.peer { DescribeSound(c); } else { FinishSoundIff(c, false); }
        case ToFinish(_, answered) => FinishSoundIff(c, answered);
      }
    case _ =>
  }

  lemma {:induction false} FreshSound(id: CallId)
    ensures Sound(Fresh(None, false)) && Sound(Fresh(Some(id), true))
  {}

  /** A run in which every late callback finds what it has to. */
  ghost predicate MetRun(apps: seq<App>, events: seq<Event>) {
    Run(apps, events) && forall i | 0 <= i < |events| :: Meets(apps[i], events[i])
  }

  lemma {:induction false} MetSound(apps: seq<App>, events: seq<Event>, i: nat)
    requires MetRun(apps, events) && i < |apps|
    ensures apps[i].call.Some? ==> Sound(apps[i].call.value)
  {
    hide Sound, Meets, Fresh;
    if i > 0 {
      MetSound(apps, events, i - 1);
      var a, e := apps[i - 1], events[i - 1];
      match e
      case Place => FreshSound(0);
      case Incoming(id) => FreshSound(id);
      case Over =>
      case _ =>
        if a.call.Some? {
          SameCall(a, e);
          NextSoundIff(a, e);
        }
    }
  }

  lemma {:induction false} SameCall(a: App, e: Event)
    requires Can(a, e) && !e.Place? && !e.Incoming?
    ensures Next(a, e).serial == a.serial && (a.call.None? ==> Next(a, e).call.None?)
  {}

  /**
    The remote candidates taken are those applied and then those buffered, in the order they came; none is applied
    before there is a remote description; and no local candidate went out under an empty call id.
   */
  predicate InOrder(c: Call) {
    c.accepted == c.applied + c.pendingRemote && (c.applied != [] ==> c.described) && NeverEmpty(c)
  }

  /**
    All that holds, and each local candidate is sent once or still waits, as long as late callbacks find what they
    have to.
   */
  lemma {:induction false} CandidatesInOrder(apps: seq<App>, events: seq<Event>, i: nat)
    requires MetRun(apps, events) && i < |apps| && apps[i].call.Some?
    ensures InOrder(apps[i].call.value) && LocalKept(apps[i].call.value)
  {
    hide Can, Next, Meets;
    MetSound(apps, events, i);
  }

  // ---- And otherwise ----

  lemma {:induction false} OneMore(apps: seq<App>, events: seq<Event>, e: Event)
    returns (apps': seq<App>, events': seq<Event>)
    requires Run(apps, events) && Can(apps[|events|], e)
    ensures Run(apps', events') && events' == events + [e] && apps' == apps + [Next(apps[|events|], e)]
    ensures apps'[|events'|] == Next(apps[|events|], e)
  {
    hide Next;
    apps', events' := apps + [Next(apps[|events|], e)], events + [e];
  }

  /** A call whose flag says it is described, but is not, takes the next remote candidate too early. */
  lemma {:induction false} FlagSpoils(apps: seq<App>, events: seq<Event>) returns (apps': seq<App>, events': seq<Event>)
    requires Run(apps, events) && apps[|events|].call.Some?
    requires apps[|events|].call.value.remoteSet && !apps[|events|].call.value.described
    ensures Run(apps', events') && apps <= apps' && events <= events'
    ensures apps'[|events'|].call.Some? && !InOrder(apps'[|events'|].call.value)
  {
    assert |apps| == |events| + 1;
    hide Run;
    apps', events' := apps, events;
    if !apps[|events|].call.value.peer {
      apps', events' := OneMore(apps', events', PeerReady);
    }
    var c := apps'[|events'|].call.value;
    apps', events' := OneMore(apps', events', Remote(if c.callId.Some? then c.callId.value else 0, 0));
  }

  /** Once a late callback does not find what it has to, some way of going on breaks the order. */
  lemma {:induction false} NotMetSpoils(apps: seq<App>, events: seq<Event>, e: Event)
    returns (apps': seq<App>, events': seq<Event>)
    requires MetRun(apps, events) && Can(apps[|events|], e) && !Meets(apps[|events|], e)
    ensures Run(apps', events') && apps <= apps' && events + [e] <= events'
    ensures apps'[|events'|].call.Some? && !InOrder(apps'[|events'|].call.value)
  {
    MetSound(apps, events, |events|);
    var a := apps[|events|];
    NotMetLeaves(a, e);
    hide Run, Meets, Can, Sound, InOrder;
    apps', events' := OneMore(apps, events, e);
    if InOrder(apps'[|events'|].call.value) {
      apps', events' := FlagSpoils(apps', events');
    }
  }

  lemma {:induction false} NotMetLeaves(a: App, e: Event)
    requires Can(a, e) && !Meets(a, e) && Sound(a.call.value)
    ensures Next(a, e).call.Some?
    ensures var d := Next(a, e).call.value; InOrder(d) ==> d.remoteSet && !d.described
  {
    var c := a.call.value;
    if e.Resume? && !Sendable(c) {
      var answered := a.waits[e.k].ToFinish? && a.waits[e.k].answered;
      assert Next(a, e).call == Some(Finish(c, answered));
      EmptyIdSentIff(c, answered);
    }
  }

  /**
    The three things do go wrong. An id is missing: one call ends while its answer is handled, the next is just
    dialled.
   */
  lemma {:induction false} LateCallback() returns (apps: seq<App>, events: seq<Event>)
    ensures Run(apps, events) && apps[|events|].call.Some? && !NeverEmpty(apps[|events|].call.value)
  {
    hide Finish, Run;
    apps, events := Began();
    apps, events := OneMore(apps, events, Connected(1, false));
    apps, events := OneMore(apps, events, Place);
    apps, events := OneMore(apps, events, Gathered(7));
    var c := OnGathered(Fresh(None, false), 7);
    assert apps[|events|] == App(Some(c), 2, [ToDescribe(1, false)]);
    apps, events := OneMore(apps, events, Resume(0));
    assert apps[|events|].call == Some(Finish(c, false));
    EmptyIdSentIff(c, false);
  }

  lemma {:induction false} Began() returns (apps: seq<App>, events: seq<Event>)
    ensures Run(apps, events) && apps[|events|] == App(Some(Fresh(None, false)), 1, [])
  {
    apps, events := [START], [];
    apps, events := OneMore(apps, events, Place);
  }

  /** The first call has just had its answer set as remote description. */
  lemma {:induction false} Answered() returns (apps: seq<App>, events: seq<Event>)
    ensures Run(apps, events) && apps[|events|].waits == [ToFinish(1, true)] && apps[|events|].serial == 1
  {
    hide Run;
    apps, events := Began();
    apps, events := OneMore(apps, events, PeerReady);
    apps, events := OneMore(apps, events, Connected(1, true));
    assert apps[|events|] == App(Some(Fresh(Some(1), false).(peer := true)), 1, [ToDescribe(1, true)]);
    apps, events := OneMore(apps, events, Resume(0));
  }

  /**
    A candidate is applied too early: that answer is handled when the next call has a peer connection and a candidate.
   */
  lemma {:induction false} LateAnswer() returns (apps: seq<App>, events: seq<Event>)
    ensures Run(apps, events) && apps[|events|].call.Some?
    ensures var c := apps[|events|].call.value; c.applied != [] && !c.described
  {
    hide Run;
    apps, events := Answered();
    apps, events := OneMore(apps, events, Place);
    apps, events := OneMore(apps, events, PeerReady);
    apps, events := OneMore(apps, events, Remote(2, 7));
    assert apps[|events|].call == Some(OnRemote(Fresh(None, false).(peer := true), 2, 7));
    apps, events := OneMore(apps, events, Resume(0));
  }

  /** The order is broken: it is handled when the next call has a candidate and no peer connection yet. */
  lemma {:induction false} LateOrder() returns (apps: seq<App>, events: seq<Event>)
    ensures Run(apps, events) && apps[|events|].call.Some?
    ensures var c := apps[|events|].call.value; c.accepted == [7, 8] && c.applied == [8] && c.pendingRemote == [7]
  {
    hide Run;
    apps, events := Answered();
    apps, events := OneMore(apps, events, Incoming(5));
    apps, events := OneMore(apps, events, Remote(5, 7));
    assert apps[|events|].call == Some(OnRemote(Fresh(Some(5), true), 5, 7));
    apps, events := OneMore(apps, events, Resume(0));
    apps, events := OneMore(apps, events, PeerReady);
    apps, events := OneMore(apps, events, Remote(5, 8));
  }

  // ---- When callbacks go on with the call they began with ----

  /** A waiting callback goes on with the call it began with, or with none. */
  predicate Faithful(a: App, e: Event)
    requires Can(a, e)
  {
    a.call.Some? ==>
      match e
      case PeerReady => !a.call.value.peer
      case OfferSet(own) => own
      case Resume(k) => a.waits[k].serial == a.serial
      case _ => true
  }

  ghost predicate FaithfulRun(apps: seq<App>, events: seq<Event>) {
    Run(apps, events) && forall i | 0 <= i < |events| :: Faithful(apps[i], events[i])
  }

  /** Callbacks that wait for the active call: it has an id by now, and a remote description once they have set one. */
  ghost predicate WaitsOk(a: App) {
    forall k | 0 <= k < |a.waits| ::
      && a.waits[k].serial <= a.serial
      && (a.call.Some? && a.waits[k].serial == a.serial ==>
            && a.call.value.callId.Some?
            && (a.waits[k].ToFinish? && a.waits[k].answered ==> a.call.value.described))
  }

  lemma {:induction false} FaithfulMeets(a: App, e: Event)
    requires Can(a, e) && Faithful(a, e) && WaitsOk(a) && (a.call.Some? ==> Sound(a.call.value))
    ensures Meets(a, e)
  {}

  lemma {:induction false} WaitsStay(a: App, e: Event)
    requires Can(a, e) && Faithful(a, e) && WaitsOk(a) && (a.call.Some? ==> Sound(a.call.value))
    ensures WaitsOk(Next(a, e))
  {
    hide LocalKept, NeverEmpty, RemoteKept, FlushLocal, FlushRemote, OnGathered, OnRemote;
    if a.call.Some? {
      var c := a.call.value;
      CallbacksLeave(c);
      match e
      case Ringing(id) => CallbacksLeave(c.(callId := Some(id)));
      case OfferSet(own) => CallbacksLeave(c.(described := own || c.described, remoteSet := true));
      case _ =>
    }
    if e.Resume? {
      ResumeStays(a, e.k);
      hide *;
    }
  }

  lemma {:induction false} ResumeStays(a: App, k: nat)
    requires k < |a.waits| && WaitsOk(a) && (a.call.Some? ==> a.waits[k].serial == a.serial)
    ensures WaitsOk(Next(a, Resume(k)))
  {
    hide Finish, Describe;
    var rest := a.waits[..k] + a.waits[k + 1..];
    assert forall i | 0 <= i < |rest| :: rest[i] in a.waits;
    if a.call.Some? {
      FinishKeeps(a.call.value, false);
      FinishKeeps(a.call.value, true);
      DescribeKeeps(a.call.value);
    }
  }

  lemma {:induction false} FinishKeeps(c: Call, answered: bool)
    ensures Finish(c, answered).callId == c.callId && Finish(c, answered).described == c.described
  {}

  lemma {:induction false} DescribeKeeps(c: Call)
    ensures Describe(c).callId == c.callId && (c.described || c.peer ==> Describe(c).described)
  {}

  /** What most callbacks leave alone. */
  lemma {:induction false} CallbacksLeave(c: Call)
    ensures FlushLocal(c).callId == c.callId && FlushLocal(c).described == c.described
    ensures FlushRemote(c).callId == c.callId && FlushRemote(c).described == c.described
    ensures forall x :: OnGathered(c, x).callId == c.callId && OnGathered(c, x).described == c.described
    ensures forall id, x :: OnRemote(c, id, x).callId == c.callId && OnRemote(c, id, x).described == c.described
  {}

  /** So every faithful run is one in which late callbacks find what they have to. */
  lemma {:induction false} FaithfulIsMet(apps: seq<App>, events: seq<Event>)
    requires FaithfulRun(apps, events)
    ensures MetRun(apps, events)
  {
    forall i | 0 <= i < |events| ensures Meets(apps[i], events[i]) { FaithfulAt(apps, events, i); }
  }

  lemma {:induction false} FaithfulAt(apps: seq<App>, events: seq<Event>, i: nat)
    requires FaithfulRun(apps, events) && i < |events|
    ensures WaitsOk(apps[i]) && (apps[i].call.Some? ==> Sound(apps[i].call.value)) && Meets(apps[i], events[i])
  {
    hide Sound, WaitsOk, Meets, Faithful, Fresh;
    if i == 0 {
      StartWaits();
    } else {
      FaithfulAt(apps, events, i - 1);
      var a, e := apps[i - 1], events[i - 1];
      WaitsStay(a, e);
      match e
      case Place => FreshSound(0);
      case Incoming(id) => FreshSound(id);
      case Over =>
      case _ =>
        if a.call.Some? {
          SameCall(a, e);
          NextSoundIff(a, e);
        }
    }
    FaithfulMeets(apps[i], events[i]);
  }

  lemma {:induction false} StartWaits()
    ensures WaitsOk(START)
  {}

  // ---- Whatever callbacks find ----

  /** Each candidate sent or waiting, applied or waiting, and none twice; the order is left open. */
  predicate NoneLost(c: Call) {
    LocalKept(c) && multiset(c.accepted) == multiset(c.applied) + multiset(c.pendingRemote)
  }

  lemma {:induction false} RemoteNotLost(c: Call, id: CallId, x: Candidate)
    requires NoneLost(c)
    ensures NoneLost(OnRemote(c, id, x))
  {}

  lemma {:induction false} FlushNotLost(c: Call)
    requires NoneLost(c)
    ensures NoneLost(FlushLocal(c)) && NoneLost(FlushRemote(c))
  {
    UntaggedMore(c.sent, c.callId, c.pendingLocal);
  }

  lemma {:induction false} FinishNotLost(c: Call, answered: bool)
    requires NoneLost(c)
    ensures NoneLost(Finish(c, answered))
  {
    var d := if answered then c.(remoteSet := true) else c;
    assert NoneLost(d);
    hide NoneLost, FlushLocal, FlushRemote;
    FlushNotLost(d);
    FlushNotLost(FlushLocal(d));
  }

  lemma {:induction false} FreshNotLost(id: Option<CallId>, incoming: bool)
    ensures NoneLost(Fresh(id, incoming))
  {}

  lemma {:induction false} RenamedNotLost(c: Call, d: Call)
    requires NoneLost(c)
      && d == c.(callId := d.callId, peer := d.peer, remoteSet := d.remoteSet, described := d.described)
    ensures NoneLost(d)
  {}

  lemma {:induction false} GatheredNotLost(c: Call, x: Candidate)
    requires NoneLost(c)
    ensures NoneLost(OnGathered(c, x))
  {
    hide LocalKept;
    GatheredKept(c, x);
  }

  lemma {:induction false} NextNotLost(a: App, e: Event)
    requires Can(a, e) && (a.call.Some? ==> NoneLost(a.call.value))
    ensures Next(a, e).call.Some? ==> NoneLost(Next(a, e).call.value)
  {
    hide NoneLost, Finish, FlushLocal, FlushRemote, OnGathered, OnRemote, Fresh;
    match e
    case Place => FreshNotLost(None, false);
    case Incoming(id) => FreshNotLost(Some(id), true);
    case Over =>
    case _ =>
      if a.call.Some? {
        StayNotLost(a, e);
      }
  }

  lemma {:induction false} StayNotLost(a: App, e: Event)
    requires Can(a, e) && a.call.Some? && NoneLost(a.call.value) && !e.Place? && !e.Incoming? && !e.Over?
    ensures Next(a, e).call.Some? && NoneLost(Next(a, e).call.value)
  {
    hide NoneLost, Finish, FlushLocal, FlushRemote, OnGathered, OnRemote;
    var c := a.call.value;
    match e
    case PeerReady => RenamedNotLost(c, WithPeer(c));
    case Gathered(x) => GatheredNotLost(c, x);
    case Remote(id, x) => RemoteNotLost(c, id, x);
    case Ringing(id) => RenamedNotLost(c, c.(callId := Some(id))); FlushNotLost(c.(callId := Some(id)));
    case Connected(id, _) => RenamedNotLost(c, OnConnected(c, id));
    case Resume(k) => FinishNotLost(c, a.waits[k].ToFinish? && a.waits[k].answered); RenamedNotLost(c, Describe(c));
    case OfferSet(own) =>
      var d := c.(described := own || c.described, remoteSet := true);
      RenamedNotLost(c, d);
      FlushNotLost(d);
    case _ =>
  }

  /** Nothing is lost or used twice: every candidate is sent once or waits, every one taken is applied once or waits. */
  lemma {:induction false} NeverLost(apps: seq<App>, events: seq<Event>, i: nat)
    requires Run(apps, events) && i < |apps| && apps[i].call.Some?
    ensures var c := apps[i].call.value;
            && multiset(c.gathered) == multiset(Untagged(c.sent)) + multiset(c.pendingLocal)
            && multiset(c.accepted) == multiset(c.applied) + multiset(c.pendingRemote)
  {
    hide Can, Next;
    NeverLostAt(apps, events, i);
  }

  lemma {:induction false} NeverLostAt(apps: seq<App>, events: seq<Event>, i: nat)
    requires Run(apps, events) && i < |apps|
    ensures apps[i].call.Some? ==> NoneLost(apps[i].call.value)
  {
    hide NoneLost, Can, Next;
    if i > 0 {
      NeverLostAt(apps, events, i - 1);
      NextNotLost(apps[i - 1], events[i - 1]);
    }
  }

  // ---- What the active call got, and what it sent ----

  /** The remote candidates that came for the active call since it began: under its id, or before it had one. */
  function Addressed(apps: seq<App>, events: seq<Event>, i: nat): seq<Candidate>
    requires i <= |apps| && i <= |events|
  {
    if i == 0 then []
    else
      var before := Addressed(apps, events, i - 1);
      match events[i - 1]
      case Place => []
      case Incoming(_) => []
      case Remote(id, x) =>
        if apps[i - 1].call.Some? && apps[i - 1].call.value.callId in {None, Some(id)} then before + [x] else before
      case _ => before
  }

  /** The local candidates gathered since the active call began. */
  function Produced(events: seq<Event>, i: nat): seq<Candidate>
    requires i <= |events|
  {
    if i == 0 then []
    else
      match events[i - 1]
      case Place => []
      case Incoming(_) => []
      case Gathered(x) => Produced(events, i - 1) + [x]
      case _ => Produced(events, i - 1)
  }

  /** The call has taken these remote candidates, and was given these local ones. */
  predicate Got(c: Call, remote: seq<Candidate>, local: seq<Candidate>) {
    c.accepted == remote && c.gathered == local
  }

  /** A call takes every remote candidate that is for it, and none that is for another; and all that are gathered. */
  lemma {:induction false} OwnCandidatesOnly(apps: seq<App>, events: seq<Event>, i: nat)
    requires Run(apps, events) && i < |apps|
    ensures i <= |events|
    ensures apps[i].call.Some? ==> Got(apps[i].call.value, Addressed(apps, events, i), Produced(events, i))
  {
    if i > 0 {
      OwnCandidatesOnly(apps, events, i - 1);
      assert Can(apps[i - 1], events[i - 1]) && apps[i] == Next(apps[i - 1], events[i - 1]);
      hide Run;
      if apps[i - 1].call.Some? {
        CallbacksTakeNone(apps[i - 1].call.value);
      }
      hide Finish, FlushLocal, Describe, Accept, WithPeer;
    }
  }

  lemma {:induction false} CallbacksTakeNone(c: Call)
    ensures forall answered :: Got(Finish(c, answered), c.accepted, c.gathered)
    ensures forall own :: Got(Accept(c, own), c.accepted, c.gathered)
    ensures forall id :: Got(FlushLocal(c.(callId := Some(id))), c.accepted, c.gathered)
    ensures Got(Describe(c), c.accepted, c.gathered) && Got(WithPeer(c), c.accepted, c.gathered)
  {}

  // ---- Under which id ----

  /** What is sent goes out under this id, or under none. */
  predicate Under(c: Call, id: CallId) {
    c.callId in {None, Some(id)} && forall k | 0 <= k < |c.sent| :: c.sent[k].0 in {None, Some(id)}
  }

  /** Nothing names the active call anything but this. */
  predicate Names(e: Event, id: CallId) {
    match e
    case Incoming(j) => j == id
    case Ringing(j) => j == id
    case Connected(j, _) => j == id
    case _ => true
  }

  /** While the server calls it by one id only, all that a call sends goes out under this id. */
  lemma {:induction false} SentUnderItsId(apps: seq<App>, events: seq<Event>, b: nat, i: nat, id: CallId)
    requires Run(apps, events) && b < i < |apps| && b < |events| && (events[b].Place? || events[b] == Incoming(id))
    requires forall k | b < k < i && k < |events| :: Names(events[k], id)
    ensures apps[i].call.Some? ==> Under(apps[i].call.value, id)
    decreases i
  {
    if i > b + 1 {
      SentUnderItsId(apps, events, b, i - 1, id);
      assert Can(apps[i - 1], events[i - 1]) && apps[i] == Next(apps[i - 1], events[i - 1]);
      assert Names(events[i - 1], id);
      if apps[i - 1].call.Some? {
        CallbacksKeepId(apps[i - 1].call.value, id);
      }
      hide Run, Finish, FlushLocal, FlushRemote, Describe, Accept, WithPeer;
    } else {
      assert apps[i] == Next(apps[b], events[b]);
    }
  }

  lemma {:induction false} CallbacksKeepId(c: Call, id: CallId)
    requires Under(c, id)
    ensures forall answered :: Under(Finish(c, answered), id)
    ensures forall own :: Under(Accept(c, own), id)
    ensures Under(FlushLocal(c.(callId := Some(id))), id) && Under(Describe(c), id) && Under(WithPeer(c), id)
  {}

  // ---- In which order ----

  /** Local candidates: those sent, then those that wait, in the order they were gathered. */
  predicate LocalOrder(c: Call) {
    c.gathered == Untagged(c.sent) + c.pendingLocal
  }

  /** A candidate is gathered when the call has its id, but what waited for that is not sent yet. */
  predicate Overtakes(a: App, e: Event) {
    && e.Gathered? && a.call.Some? && a.call.value.callId.Some?
    && a.call.value.pendingLocal + [e.x] != [e.x] + a.call.value.pendingLocal
  }

  /** The order of local candidates is kept exactly as long as none overtakes those that wait. */
  lemma {:induction false} LocalOrderIff(a: App, e: Event)
    requires Can(a, e) && a.call.Some? && LocalOrder(a.call.value) && !e.Place? && !e.Incoming? && !e.Over?
    ensures Next(a, e).call.Some? && (LocalOrder(Next(a, e).call.value) <==> !Overtakes(a, e))
  {
    var c := a.call.value;
    FlushesInOrder(c);
    match e
    case Gathered(x) => OneGathered(c, x);
    case Ringing(id) => FlushesInOrder(c.(callId := Some(id)));
    case _ =>
    hide FlushLocal, OnGathered, LocalOrder;
  }

  lemma {:induction false} FlushesInOrder(c: Call)
    requires LocalOrder(c)
    ensures LocalOrder(FlushLocal(c)) && forall answered :: LocalOrder(Finish(c, answered))
    ensures (forall own :: LocalOrder(Accept(c, own))) && LocalOrder(WithPeer(c)) && LocalOrder(Describe(c))
    ensures forall id :: LocalOrder(c.(callId := Some(id)))
    ensures forall id, x :: LocalOrder(OnRemote(c, id, x))
  {
    UntaggedMore(c.sent, c.callId, c.pendingLocal);
  }

  lemma {:induction false} OneGathered(c: Call, x: Candidate)
    requires LocalOrder(c)
    ensures LocalOrder(OnGathered(c, x)) <==> c.callId.None? || c.pendingLocal + [x] == [x] + c.pendingLocal
  {
    var u, p := Untagged(c.sent), c.pendingLocal;
    UntaggedMore(c.sent, c.callId, [x]);
    assert Tagged(c.callId, [x]) == [(c.callId, x)];
    assert u + p + [x] == u + (p + [x]) && u + [x] + p == u + ([x] + p);
    if c.callId.Some? {
      assert (u + (p + [x]))[|u|..] == p + [x] && (u + ([x] + p))[|u|..] == [x] + p;
    }
  }

  /** It does happen: a call that is connected before it rings. */
  lemma {:induction false} Overtaken() returns (apps: seq<App>, events: seq<Event>)
    ensures Run(apps, events) && apps[|events|].call.Some?
    ensures var c := apps[|events|].call.value;
            c.gathered == [7, 8] && c.sent == [(Some(1), 8)] && c.pendingLocal == [7]
  {
    hide Run;
    apps, events := Began();
    apps, events := OneMore(apps, events, Gathered(7));
    apps, events := OneMore(apps, events, Connected(1, true));
    apps, events := OneMore(apps, events, Gathered(8));
  }

  // ---- Whose answer is taken ----

  /** A call without an id is one that this phone placed: nothing but ringing or an answer names it. */
  lemma {:induction false} NamelessIsPlaced(apps: seq<App>, events: seq<Event>, i: nat)
    requires Run(apps, events) && i < |apps|
    ensures apps[i].call.Some? && apps[i].call.value.callId.None? ==> !apps[i].call.value.incoming
  {
    if i > 0 {
      NamelessIsPlaced(apps, events, i - 1);
      StaysPlaced(apps[i - 1], events[i - 1]);
    }
  }

  lemma {:induction false} StaysPlaced(a: App, e: Event)
    requires Can(a, e) && (a.call.Some? && a.call.value.callId.None? ==> !a.call.value.incoming)
    ensures var c := Next(a, e).call; c.Some? && c.value.callId.None? ==> !c.value.incoming
  {
    if e.Resume? {
      hide Tagged;
      assert a.waits[e.k].ToDescribe? || a.waits[e.k].ToFinish?;
    }
  }

  /**
    In any run, "connected" is taken exactly when it is for the active call, or when that call was placed here and
    has no id yet; then the call has the id. Any other leaves all as it is. Nothing but "ringing" or the next call
    changes the id of a call that has one.
   */
  lemma {:induction false} AnswersItsOwnCall(apps: seq<App>, events: seq<Event>, i: nat)
    requires Run(apps, events) && i < |events| && apps[i].call.Some?
    ensures var c := apps[i].call.value;
            && (events[i].Connected? ==>
                  if c.callId.Some? && c.callId != Some(events[i].id) then apps[i + 1] == apps[i]
                  else
                    && apps[i + 1].call == Some(c.(callId := Some(events[i].id)))
                    && apps[i + 1].waits == apps[i].waits + [ToDescribe(apps[i].serial, events[i].answer)])
            && (c.callId.Some? && !events[i].Ringing? && !events[i].Place? && !events[i].Incoming? && !events[i].Over?
                ==> apps[i + 1].call.Some? && apps[i + 1].call.value.callId == c.callId)
  {
    NamelessIsPlaced(apps, events, i);
  }
}
