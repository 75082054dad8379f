/**
  The voicemail recorder.
 */
module VoicemailRecorder {
  // Its table of sessions, its recording loop and the trimming of trailing silence. Reading a packet, decoding a frame
  // and whether a decoded frame is silent are parameters.

  type CallId = int
  type Session = int
  type Frame = seq<bv8>

  // ---- Sessions ----

  /** A done channel may be closed once; closing it again would panic. */
  class LeaveService {
    var calls: map<CallId, Session>
    ghost var made: set<Session>
    ghost var closed: multiset<Session>

    ghost predicate Valid()
      reads this
    {
      && (forall id | id in calls :: calls[id] in made && closed[calls[id]] == 0)
      && (forall a, b | a in calls && b in calls && a != b :: calls[a] != calls[b])
      && (forall s | s in closed :: s in made && closed[s] == 1)
    }

    constructor ()
      ensures Valid() && calls == map[] && made == {} && closed == multiset{}
    {
      calls, made, closed := map[], {}, multiset{};
    }

    /** HandleCall; `fails` is whether the peer connection refuses the offer or the answer. */
    method HandleCall(id: CallId, session: Session, fails: bool) returns (ok: bool)
      requires Valid() && session !in made
      modifies this
      ensures Valid() && ok == !fails && closed == old(closed) && made == old(made) + {session}
      ensures calls == if fails then old(calls) - {id} else old(calls)[id := session]
    {
      made := made + {session};
      calls := calls[id := session];
      if fails {
        Remove(id);
        assert old(calls)[id := session] - {id} == old(calls) - {id};
      }
      ok := !fails;
    }

    /** EndCall, by call control or by the recorder itself: only the first one for a session closes anything. */
    method EndCall(id: CallId)
      requires Valid()
      modifies this
      ensures Valid() && calls == old(calls) - {id} && made == old(made)
      ensures closed == if id in old(calls) then old(closed) + multiset{old(calls)[id]} else old(closed)
    {
      if id !in calls {
        assert calls - {id} == calls;
        return;
      }
      var session := calls[id];
      calls := calls - {id};
      closed := closed + multiset{session};
    }

    method Remove(id: CallId)
      requires Valid()
      modifies this
      ensures Valid() && calls == old(calls) - {id} && made == old(made) && closed == old(closed)
    {
      calls := calls - {id};
    }
  }

  // ---- Recording ----

  /** What the recording loop meets next: the end of the call, a read error, a packet to skip or a frame. */
  datatype Packet = Stop | ReadError | Other | Audio(frame: Frame)

  /** The frames among the packets up to the first stop or error. */
  function AudioOf(packets: seq<Packet>): seq<Frame> {
    if packets == [] || packets[0].Stop? || packets[0].ReadError? then []
    else (if packets[0].Audio? && packets[0].frame != [] then [packets[0].frame] else []) + AudioOf(packets[1..])
  }

  /**
    The recorder listens packet by packet until the call stops or a read fails, and keeps what is audio and not
    empty.
   */
  lemma {:induction false} AudioHeard(a: seq<Packet>, b: seq<Packet>, p: Packet)
    requires forall q | q in a :: !q.Stop? && !q.ReadError?
    ensures var kept := match p
              case Audio(frame) => (if frame == [] then [] else [frame]) + AudioOf(b)
              case Other => AudioOf(b)
              case _ => [];
            AudioOf(a + ([p] + b)) == AudioOf(a) + kept
  {
    AudioSplits(a, [p] + b);
    assert ([p] + b)[1..] == b;
  }

  lemma {:induction false} AudioSplits(a: seq<Packet>, b: seq<Packet>)
    requires forall q | q in a :: !q.Stop? && !q.ReadError?
    ensures AudioOf(a + b) == AudioOf(a) + AudioOf(b)
    decreases |a|
  {
    if a == [] {
      assert a + b == b;
    } else {
      var one, more := if a[0].Audio? && a[0].frame != [] then [a[0].frame] else [], AudioOf(a[1..]);
      AudioSplits(a[1..], b);
      assert (a + b)[1..] == a[1..] + b;
      assert one + (more + AudioOf(b)) == one + more + AudioOf(b);
    }
  }

  /**
    The recording is the first maxFrames frames; the recorder ends the call itself exactly when there are that many.
   */
  method Record(packets: seq<Packet>, maxFrames: nat) returns (frames: seq<Frame>, selfEnd: bool)
    requires maxFrames > 0
    ensures var audio := AudioOf(packets);
            && frames == (if |audio| < maxFrames then audio else audio[..maxFrames])
            && (selfEnd <==> |audio| >= maxFrames)
  {
    frames, selfEnd := [], false;
    var i := 0;
    assert packets[0..] == packets;
    while i < |packets| && |frames| < maxFrames
      invariant 0 <= i <= |packets| && |frames| < maxFrames && !selfEnd
      invariant frames + AudioOf(packets[i..]) == AudioOf(packets)
    {
      var p := packets[i];
      assert packets[i..][1..] == packets[i + 1..];
      if p.Stop? || p.ReadError? {
        break;
      }
      i := i + 1;
      if p.Other? || p.frame == [] {
        continue;
      }
      frames := frames + [p.frame];
      if |frames| >= maxFrames {
        selfEnd := true;
        assert AudioOf(packets)[..maxFrames] == frames;
        break;
      }
    }
  }

  // ---- Trimming ----

  /** The frames without the silent ones at the end. */
  function WithoutTail(frames: seq<Frame>, quiet: Frame -> bool): seq<Frame>
    decreases |frames|
  {
    if frames == [] then []
    else if quiet(frames[|frames| - 1]) then WithoutTail(frames[..|frames| - 1], quiet)
    else frames
  }

  const FRAME_MS := 20

  const LIMIT := 3 * 1000 / FRAME_MS

  /** trimSilence; a frame that does not decode counts as not quiet. */
  method TrimSilence(frames: seq<Frame>, quiet: Frame -> bool) returns (r: seq<Frame>)
    ensures r == WithoutTail(frames, quiet)
  {
    var keep := |frames|;
    var removable := LIMIT;
    var i := |frames| - 1;
    assert frames[..|frames|] == frames;
    while i >= 0
      invariant -1 <= i < |frames| && keep == i + 1
      invariant WithoutTail(frames[..keep], quiet) == WithoutTail(frames, quiet)
    {
      if keep - i > removable {
        break;
      }
      assert frames[..keep][keep - 1] == frames[i] && frames[..keep][..keep - 1] == frames[..i];
      if !quiet(frames[i]) {
        break;
      }
      keep := i;
      i := i - 1;
    }
    r := frames[..keep];
  }

  /** What is kept is a beginning of the message, what is cut off is quiet, and the last frame kept is not. */
  lemma {:induction false} TrimmedExactly(frames: seq<Frame>, quiet: Frame -> bool)
    ensures var r := WithoutTail(frames, quiet);
            && r <= frames && (forall i | |r| <= i < |frames| :: quiet(frames[i]))
            && (r != [] ==> !quiet(r[|r| - 1]))
    decreases |frames|
  {
    if frames != [] && quiet(frames[|frames| - 1]) {
      TrimmedExactly(frames[..|frames| - 1], quiet);
    }
  }

  /**
    The three seconds (150 frames) the source's comment allows are kept to exactly when the message is no longer than
    that, or something in the last three seconds and one frame is not quiet.
   */
  lemma {:induction false} ThreeSecondsIff(frames: seq<Frame>, quiet: Frame -> bool)
    ensures |frames| - |WithoutTail(frames, quiet)| <= 150
            <==> |frames| <= 150 || exists i | |frames| - 150 - 1 <= i < |frames| :: !quiet(frames[i])
  {
    TrimmedExactly(frames, quiet);
  }

  /** Such a message: all of it is quiet, and all of it is removed, however long. */
  lemma {:induction false} NoThreeSecondCap(frames: seq<Frame>, quiet: Frame -> bool)
    requires forall i | 0 <= i < |frames| :: quiet(frames[i])
    ensures WithoutTail(frames, quiet) == []
  {
    TrimmedExactly(frames, quiet);
  }
}
