/**
  The conference mixer of services/conference.go: every receiver hears the others, mixed
  with saturation at the 16-bit range, one participant after another.
 */
module Conference {
  import opened Options

  type Sample = int

  const MAX_SAMPLE := 32767
  const MIN_SAMPLE := -32768

  predicate InRange(s: Sample) {
    MIN_SAMPLE <= s <= MAX_SAMPLE
  }

  function Clamp(s: int): (r: Sample)
    ensures InRange(r)
  {
    if s > MAX_SAMPLE then MAX_SAMPLE else if s < MIN_SAMPLE then MIN_SAMPLE else s
  }

  // ---- One sample position ----

  /** What receiver i hears of the sources xs, mixed in order: each source is added, then clamped. */
  function Mix(xs: seq<Sample>, i: int, acc: Sample): Sample
    decreases |xs|
  {
    if xs == [] then acc else Mix(xs[1..], i - 1, if i == 0 then acc else Clamp(acc + xs[0]))
  }

  function Sum(xs: seq<Sample>): int {
    if xs == [] then 0 else xs[0] + Sum(xs[1..])
  }

  /** The sources other than i. */
  function Others(xs: seq<Sample>, i: int): seq<Sample> {
    if xs == [] then [] else (if i == 0 then [] else [xs[0]]) + Others(xs[1..], i - 1)
  }

  /** No partial sum of the other sources leaves the range. */
  predicate NeverSaturates(xs: seq<Sample>, i: int, acc: int)
    decreases |xs|
  {
    xs == [] || (if i == 0 then NeverSaturates(xs[1..], i - 1, acc)
      else InRange(acc + xs[0]) && NeverSaturates(xs[1..], i - 1, acc + xs[0]))
  }

  lemma {:induction false} MixInRange(xs: seq<Sample>, i: int, acc: Sample)
    requires InRange(acc)
    ensures -32768 <= Mix(xs, i, acc) <= 32767
    decreases |xs|
  {
    if xs != [] {
      MixInRange(xs[1..], i - 1, if i == 0 then acc else Clamp(acc + xs[0]));
    }
  }

  /** Nobody hears themselves: the receiver's own sample makes no difference. */
  lemma {:induction false} NotOneself(xs: seq<Sample>, i: nat, own: Sample, acc: Sample)
    requires i < |xs|
    ensures Mix(xs[i := own], i, acc) == Mix(xs, i, acc)
    decreases |xs|
  {
    var ys := xs[i := own];
    if i == 0 {
      assert ys[1..] == xs[1..];
    } else {
      assert ys[1..] == xs[1..][i - 1 := own] && ys[0] == xs[0];
      NotOneself(xs[1..], i - 1, own, Clamp(acc + xs[0]));
    }
  }

  lemma {:induction false} OthersCons(xs: seq<Sample>, i: int)
    requires xs != []
    ensures if i == 0 then Others(xs, i) == Others(xs[1..], i - 1)
            else Others(xs, i) != [] && Others(xs, i)[0] == xs[0] && Others(xs, i)[1..] == Others(xs[1..], i - 1)
  {
    assert [] + Others(xs[1..], i - 1) == Others(xs[1..], i - 1);
  }

  lemma {:induction false} SumOthers(xs: seq<Sample>, i: int)
    ensures Sum(Others(xs, i)) == Sum(xs) - if 0 <= i < |xs| then xs[i] else 0
    decreases |xs|
  {
    if xs != [] {
      SumOthers(xs[1..], i - 1);
      OthersCons(xs, i);
    }
  }

  lemma {:induction false} MixExact(xs: seq<Sample>, i: int, acc: Sample)
    requires NeverSaturates(xs, i, acc)
    ensures Mix(xs, i, acc) == acc + Sum(Others(xs, i))
    decreases |xs|
  {
    if xs != [] {
      OthersCons(xs, i);
      MixExact(xs[1..], i - 1, if i == 0 then acc else acc + xs[0]);
    }
  }

  /** While nothing saturates, a receiver hears the total less their own sample, whatever the order. */
  lemma {:induction false} MixMinus(xs: seq<Sample>, i: nat)
    requires i < |xs| && NeverSaturates(xs, i, 0)
    ensures Mix(xs, i, 0) == Sum(xs) - xs[i]
  {
    MixExact(xs, i, 0);
    SumOthers(xs, i);
  }

  // ---- Does the order matter? ----

  /** What is heard of the voices os, mixed in this order on top of acc. */
  function Blend(os: seq<Sample>, acc: Sample): Sample
    decreases |os|
  {
    if os == [] then acc else Blend(os[1..], Clamp(acc + os[0]))
  }

  lemma {:induction false} MixIsBlend(xs: seq<Sample>, i: int, acc: Sample)
    ensures Mix(xs, i, acc) == Blend(Others(xs, i), acc)
    decreases |xs|
  {
    if xs != [] {
      OthersCons(xs, i);
      MixIsBlend(xs[1..], i - 1, if i == 0 then acc else Clamp(acc + xs[0]));
    }
  }

  /** How far the voices push up in all, and how far down. */
  function Up(os: seq<Sample>): nat {
    if os == [] then 0 else (if os[0] > 0 then os[0] else 0) + Up(os[1..])
  }

  function Down(os: seq<Sample>): nat {
    if os == [] then 0 else (if os[0] < 0 then -os[0] else 0) + Down(os[1..])
  }

  lemma {:induction false} SumIsUpLessDown(os: seq<Sample>)
    ensures Sum(os) == Up(os) - Down(os)
    decreases |os|
  {
    if os != [] {
      SumIsUpLessDown(os[1..]);
    }
  }

  /** With room for all that pushes up and all that pushes down, nothing saturates in any order. */
  lemma {:induction false} BlendFits(os: seq<Sample>, acc: Sample)
    requires acc + Up(os) <= MAX_SAMPLE && acc - Down(os) >= MIN_SAMPLE
    ensures Blend(os, acc) == acc + Sum(os)
    decreases |os|
  {
    if os != [] {
      BlendFits(os[1..], acc + os[0]);
    }
  }

  /** Adding up in one direction, it is enough to clamp at the end. */
  lemma {:induction false} ClampOnce(acc: Sample, x: int, s: int)
    requires InRange(acc) && ((x >= 0 && s >= 0) || (x <= 0 && s <= 0))
    ensures Clamp(Clamp(acc + x) + s) == Clamp(acc + x + s)
  {}

  lemma {:induction false} BlendOneWay(os: seq<Sample>, acc: Sample)
    requires InRange(acc) && (Up(os) == 0 || Down(os) == 0)
    ensures Blend(os, acc) == Clamp(acc + Sum(os))
    decreases |os|
  {
    if os != [] {
      BlendOneWay(os[1..], Clamp(acc + os[0]));
      SumIsUpLessDown(os[1..]);
      ClampOnce(acc, os[0], Sum(os[1..]));
    }
  }

  /** If all the others push the same way, saturating as one goes is saturating once. */
  lemma {:induction false} SameSignClamps(xs: seq<Sample>, i: nat)
    requires i < |xs| && (Up(Others(xs, i)) == 0 || Down(Others(xs, i)) == 0)
    ensures Mix(xs, i, 0) == Clamp(Sum(xs) - xs[i])
  {
    MixIsBlend(xs, i, 0);
    BlendOneWay(Others(xs, i), 0);
    SumOthers(xs, i);
  }

  lemma {:induction false} BlendAppend(a: seq<Sample>, b: seq<Sample>, acc: Sample)
    requires InRange(acc)
    ensures InRange(Blend(a, acc)) && Blend(a + b, acc) == Blend(b, Blend(a, acc))
    decreases |a|
  {
    if a == [] {
      assert [] + b == b;
    } else {
      assert (a + b)[1..] == a[1..] + b && (a + b)[0] == a[0];
      BlendAppend(a[1..], b, Clamp(acc + a[0]));
    }
  }

  /** The voices that do not push down, and those that do. */
  function Highs(os: seq<Sample>): seq<Sample> {
    if os == [] then [] else (if os[0] >= 0 then [os[0]] else []) + Highs(os[1..])
  }

  function Lows(os: seq<Sample>): seq<Sample> {
    if os == [] then [] else (if os[0] < 0 then [os[0]] else []) + Lows(os[1..])
  }

  lemma {:induction false} SplitVoices(os: seq<Sample>)
    ensures Up(Highs(os)) == Up(os) && Down(Highs(os)) == 0 && Up(Lows(os)) == 0 && Down(Lows(os)) == Down(os)
    decreases |os|
  {
    if os != [] {
      SplitVoices(os[1..]);
      SplitFirst(os);
    }
  }

  lemma {:induction false} SplitFirst(os: seq<Sample>)
    requires os != []
    ensures Highs(os) == (if os[0] >= 0 then [os[0]] + Highs(os[1..]) else Highs(os[1..]))
    ensures Lows(os) == (if os[0] < 0 then [os[0]] + Lows(os[1..]) else Lows(os[1..]))
  {
    assert [] + Highs(os[1..]) == Highs(os[1..]) && [] + Lows(os[1..]) == Lows(os[1..]);
  }

  lemma {:induction false} VoicesKept(os: seq<Sample>)
    ensures multiset(Highs(os)) + multiset(Lows(os)) == multiset(os)
    decreases |os|
  {
    if os != [] {
      VoicesKept(os[1..]);
      SplitFirst(os);
      KeptOneMore(os, Highs(os), Lows(os), Highs(os[1..]), Lows(os[1..]));
      hide *;
    }
  }

  lemma {:induction false} KeptOneMore(os: seq<Sample>, hs: seq<Sample>, ls: seq<Sample>, hs': seq<Sample>,
                                       ls': seq<Sample>)
    requires os != [] && multiset(hs') + multiset(ls') == multiset(os[1..])
    requires (hs == [os[0]] + hs' && ls == ls') || (hs == hs' && ls == [os[0]] + ls')
    ensures multiset(hs) + multiset(ls) == multiset(os)
  {
    assert os == [os[0]] + os[1..];
    OneVoice(os[0], os[1..]);
    OneVoice(os[0], hs');
    OneVoice(os[0], ls');
    OneInBag(os[0], multiset(hs'), multiset(ls'));
  }

  lemma {:induction false} OneInBag(x: Sample, a: multiset<Sample>, b: multiset<Sample>)
    ensures (multiset{x} + a) + b == multiset{x} + (a + b) == a + (multiset{x} + b)
  {}

  lemma {:induction false} OneVoice(x: Sample, os: seq<Sample>)
    ensures multiset([x] + os) == multiset{x} + multiset(os)
  {}

  /** Every order of these voices gives the same: all push one way, or both ways fit into the range. */
  predicate Orderless(os: seq<Sample>) {
    Up(os) == 0 || Down(os) == 0 || Fits(os)
  }

  predicate Fits(os: seq<Sample>) {
    Up(os) <= MAX_SAMPLE && Down(os) <= -MIN_SAMPLE
  }

  /** Otherwise those that push up first, or those that push down first, makes a difference. */
  lemma {:induction false} TwoOrders(os: seq<Sample>)
    requires !Orderless(os)
    ensures var h, l := Highs(os), Lows(os); Blend(h + l, 0) != Blend(l + h, 0)
  {
    var h, l := Highs(os), Lows(os);
    SplitVoices(os);
    SumIsUpLessDown(h);
    SumIsUpLessDown(l);
    hide Up, Down, Sum, Highs, Lows, Blend;
    BlendAppend(h, l, 0);
    BlendAppend(l, h, 0);
    BlendOneWay(h, 0);
    BlendOneWay(l, Blend(h, 0));
    BlendOneWay(l, 0);
    BlendOneWay(h, Blend(l, 0));
  }

  lemma {:induction false} DropOne(xs: seq<Sample>, k: nat)
    requires k < |xs|
    ensures multiset(xs[..k] + xs[k + 1..]) == multiset(xs) - multiset{xs[k]}
  {
    assert xs == xs[..k] + ([xs[k]] + xs[k + 1..]);
  }

  /** How far they push, either way, does not depend on the order. */
  lemma {:induction false} PushAnyOrder(xs: seq<Sample>, ys: seq<Sample>)
    requires multiset(xs) == multiset(ys)
    ensures Up(xs) == Up(ys) && Down(xs) == Down(ys)
    decreases |xs|
  {
    hide Up, Down;
    assert |xs| == |multiset(ys)| == |ys|;
    if xs == [] {
      assert ys == xs;
    } else {
      var k := IndexIn(ys, xs[0]);
      DropOne(xs, 0);
      DropOne(ys, k);
      PushAnyOrder(xs[..0] + xs[1..], ys[..k] + ys[k + 1..]);
      PushWithout(xs, 0);
      PushWithout(ys, k);
    }
  }

  lemma {:induction false} IndexIn(xs: seq<Sample>, x: Sample) returns (k: nat)
    requires x in multiset(xs)
    ensures k < |xs| && xs[k] == x
  {
    assert x in xs;
    k :| k < |xs| && xs[k] == x;
  }

  lemma {:induction false} PushWithout(xs: seq<Sample>, k: nat)
    requires k < |xs|
    ensures Up(xs) == (if xs[k] > 0 then xs[k] else 0) + Up(xs[..k] + xs[k + 1..])
    ensures Down(xs) == (if xs[k] < 0 then -xs[k] else 0) + Down(xs[..k] + xs[k + 1..])
    decreases |xs|
  {
    if k == 0 {
      assert xs[..0] + xs[1..] == xs[1..];
    } else {
      PushWithout(xs[1..], k - 1);
      var rest := xs[..k] + xs[k + 1..];
      assert rest[1..] == xs[1..][..k - 1] + xs[1..][k..] && rest[0] == xs[0];
    }
  }

  lemma {:induction false} OrderlessBlend(os: seq<Sample>, ps: seq<Sample>)
    requires multiset(os) == multiset(ps) && Orderless(os)
    ensures Blend(os, 0) == Blend(ps, 0) == Clamp(Sum(os))
    ensures Fits(os) ==> Clamp(Sum(os)) == Sum(os)
  {
    PushAnyOrder(os, ps);
    SumIsUpLessDown(os);
    SumIsUpLessDown(ps);
    hide Up, Down, Sum, Blend;
    if Fits(os) {
      BlendFits(os, 0);
      BlendFits(ps, 0);
    } else {
      BlendOneWay(os, 0);
      BlendOneWay(ps, 0);
    }
  }

  lemma {:induction false} OthersAt(xs: seq<Sample>, i: int)
    requires i < |xs|
    ensures Others(xs, i) == if i < 0 then xs else xs[..i] + xs[i + 1..]
    decreases |xs|
  {
    if xs != [] {
      OthersAt(xs[1..], i - 1);
      OthersCons(xs, i);
      if i == 0 {
        assert xs[..0] + xs[1..] == xs[1..];
      } else if i > 0 {
        assert xs[..i] + xs[i + 1..] == [xs[0]] + (xs[1..][..i - 1] + xs[1..][i..]);
      }
    }
  }

  /** ys is an order of the same participants in which receiver i of xs is in place j. */
  predicate Reordered(xs: seq<Sample>, i: int, ys: seq<Sample>, j: int) {
    0 <= i < |xs| && 0 <= j < |ys| && multiset(ys) == multiset(xs) && ys[j] == xs[i]
  }

  lemma {:induction false} ReorderedOthers(xs: seq<Sample>, i: int, ys: seq<Sample>, j: int)
    requires Reordered(xs, i, ys, j)
    ensures multiset(Others(xs, i)) == multiset(Others(ys, j))
  {
    OthersAt(xs, i);
    OthersAt(ys, j);
    DropOne(xs, i);
    DropOne(ys, j);
  }

  /** The receiver first, then the others in the order os. */
  lemma {:induction false} OthersInOrder(xs: seq<Sample>, i: nat, os: seq<Sample>)
    requires i < |xs| && multiset(os) == multiset(Others(xs, i))
    ensures Reordered(xs, i, [xs[i]] + os, 0) && Mix([xs[i]] + os, 0, 0) == Blend(os, 0)
  {
    hide Mix, Blend;
    OthersAt(xs, i);
    DropOne(xs, i);
    OneVoice(xs[i], os);
    var ys := [xs[i]] + os;
    OthersAt(ys, 0);
    hide Others;
    assert xs[i] in multiset(xs) && multiset(ys) == multiset(xs);
    assert ys[..0] + ys[1..] == os;
    MixIsBlend(ys, 0, 0);
  }

  lemma {:induction false} SameMix(xs: seq<Sample>, i: nat, ys: seq<Sample>, j: int)
    requires Reordered(xs, i, ys, j) && Orderless(Others(xs, i))
    ensures Mix(ys, j, 0) == Mix(xs, i, 0)
  {
    ReorderedOthers(xs, i, ys, j);
    hide Mix, Blend, Orderless, Others, Reordered;
    MixIsBlend(xs, i, 0);
    MixIsBlend(ys, j, 0);
    OrderlessBlend(Others(xs, i), Others(ys, j));
  }

  /** What receiver i hears is the same in every order of the participants. */
  ghost predicate OrderFree(xs: seq<Sample>, i: int) {
    forall ys, j | Reordered(xs, i, ys, j) :: Mix(ys, j, 0) == Mix(xs, i, 0)
  }

  /**
    The order of the participants makes no difference to a receiver exactly when the others all push one way, or
    when what pushes up and what pushes down would each fit into 16 bits alone.
   */
  lemma {:induction false} OrderFreeIff(xs: seq<Sample>, i: nat)
    requires i < |xs|
    ensures OrderFree(xs, i) <==> Orderless(Others(xs, i))
  {
    hide Mix, Blend, Orderless, Others, Reordered;
    var os := Others(xs, i);
    if Orderless(os) {
      forall ys, j | Reordered(xs, i, ys, j) ensures Mix(ys, j, 0) == Mix(xs, i, 0) { SameMix(xs, i, ys, j); }
    } else {
      VoicesKept(os);
      TwoOrders(os);
      DifferentMixes(xs, i, Highs(os) + Lows(os), Lows(os) + Highs(os));
    }
  }

  lemma {:induction false} DifferentMixes(xs: seq<Sample>, i: nat, os: seq<Sample>, ps: seq<Sample>)
    requires i < |xs| && multiset(os) == multiset(Others(xs, i)) == multiset(ps) && Blend(os, 0) != Blend(ps, 0)
    ensures !OrderFree(xs, i)
  {
    hide Mix, Blend, Others, Reordered;
    OthersInOrder(xs, i, os);
    OthersInOrder(xs, i, ps);
  }

  /** In every order the receiver hears the total less its own sample. */
  ghost predicate AlwaysExact(xs: seq<Sample>, i: int) {
    forall ys, j | Reordered(xs, i, ys, j) :: Mix(ys, j, 0) == Sum(ys) - ys[j]
  }

  /** That is so exactly when what pushes up and what pushes down would each fit into 16 bits alone. */
  lemma {:induction false} AlwaysExactIff(xs: seq<Sample>, i: nat)
    requires i < |xs|
    ensures AlwaysExact(xs, i) <==> Fits(Others(xs, i))
  {
    hide Mix, Blend, Others, Sum, Up, Down;
    var os := Others(xs, i);
    if Fits(os) {
      forall ys, j | Reordered(xs, i, ys, j) ensures Mix(ys, j, 0) == Sum(ys) - ys[j] {
        ReorderedOthers(xs, i, ys, j);
        MixIsBlend(ys, j, 0);
        PushAnyOrder(os, Others(ys, j));
        OrderlessBlend(Others(ys, j), Others(ys, j));
        SumOthers(ys, j);
      }
    } else if Orderless(os) {
      MixIsBlend(xs, i, 0);
      OrderlessBlend(os, os);
      SumOthers(xs, i);
      SumIsUpLessDown(os);
      assert Reordered(xs, i, xs, i);
    } else {
      VoicesKept(os);
      TwoOrders(os);
      DifferentSums(xs, i, Highs(os) + Lows(os), Lows(os) + Highs(os));
    }
  }

  lemma {:induction false} DifferentSums(xs: seq<Sample>, i: nat, os: seq<Sample>, ps: seq<Sample>)
    requires i < |xs| && multiset(os) == multiset(Others(xs, i)) == multiset(ps) && Blend(os, 0) != Blend(ps, 0)
    ensures !AlwaysExact(xs, i)
  {
    hide Mix, Blend, Others, Up, Down;
    OthersInOrder(xs, i, os);
    OthersInOrder(xs, i, ps);
    PushAnyOrder(os, ps);
    SumIsUpLessDown(os);
    SumIsUpLessDown(ps);
    assert Sum([xs[i]] + os) == xs[i] + Sum(([xs[i]] + os)[1..]) && ([xs[i]] + os)[1..] == os;
    assert Sum([xs[i]] + ps) == xs[i] + Sum(([xs[i]] + ps)[1..]) && ([xs[i]] + ps)[1..] == ps;
  }

  /** Two orders of the same three voices for which it makes one. */
  lemma {:induction false} OrderCanMatter()
    ensures Mix([0, 30000, 10000, -20000], 0, 0) == 12767 && Mix([0, -20000, 30000, 10000], 0, 0) == 20000
  {
    assert [0, 30000, 10000, -20000][1..] == [30000, 10000, -20000] && [30000, 10000, -20000][1..] == [10000, -20000];
    assert [0, -20000, 30000, 10000][1..] == [-20000, 30000, 10000] && [-20000, 30000, 10000][1..] == [30000, 10000];
    assert Mix([10000, -20000], -2, 30000) == Mix([-20000], -3, 32767) == 12767;
    assert Mix([30000, 10000], -2, -20000) == Mix([10000], -3, 10000) == 20000;
  }

  // ---- The mixer ----

  const FRAME := 960

  type Frame = seq<Sample>

  ghost predicate IsFrame(f: Frame) {
    |f| == FRAME && forall k | 0 <= k < FRAME :: InRange(f[k])
  }

  ghost predicate Sources(mix: seq<Option<Frame>>) {
    forall j | 0 <= j < |mix| && mix[j].Some? :: IsFrame(mix[j].value)
  }

  /** Position k of every source; a participant who has sent nothing counts as silent. */
  function Column(mix: seq<Option<Frame>>, k: int): (c: seq<Sample>)
    ensures |c| == |mix|
  {
    seq(|mix|, j requires 0 <= j < |mix| =>
      if mix[j].Some? && 0 <= k < |mix[j].value| then mix[j].value[k] else 0)
  }

  lemma {:induction false} MixAppend(xs: seq<Sample>, x: Sample, i: int, acc: Sample)
    ensures Mix(xs + [x], i, acc) == if i == |xs| then Mix(xs, i, acc) else Clamp(Mix(xs, i, acc) + x)
    decreases |xs|
  {
    if xs == [] {
      assert ([] + [x])[1..] == [];
    } else {
      assert (xs + [x])[1..] == xs[1..] + [x];
      MixAppend(xs[1..], x, i - 1, if i == 0 then acc else Clamp(acc + xs[0]));
    }
  }

  /** One more source. */
  lemma {:induction false} ColumnStep(mix: seq<Option<Frame>>, j: nat, i: nat, k: int)
    requires j < |mix| && Sources(mix) && 0 <= k < FRAME
    ensures Mix(Column(mix[..j + 1], k), i, 0)
         == if j == i || mix[j].None? then Mix(Column(mix[..j], k), i, 0)
            else Clamp(Mix(Column(mix[..j], k), i, 0) + mix[j].value[k])
    ensures InRange(Mix(Column(mix[..j], k), i, 0))
  {
    var c := Column(mix[..j], k);
    var x := if mix[j].Some? then mix[j].value[k] else 0;
    assert Column(mix[..j + 1], k) == c + [x];
    MixAppend(c, x, i, 0);
    MixInRange(c, i, 0);
  }

  /** What receiver i is sent: nothing if nobody else has a frame. */
  method MixFor(mix: seq<Option<Frame>>, i: nat) returns (heard: Option<Frame>)
    requires i < |mix| && Sources(mix)
    ensures heard.None? <==> forall j | 0 <= j < |mix| && j != i :: mix[j].None?
    ensures heard.Some? ==>
      |heard.value| == FRAME && forall k | 0 <= k < FRAME :: heard.value[k] == Mix(Column(mix, k), i, 0)
  {
    hide Mix, Column, IsFrame;
    var mixed := new Sample[FRAME](_ => 0);
    var hasOther := false;
    Silence(mix, i);
    var j := 0;
    while j < |mix|
      invariant 0 <= j <= |mix|
      invariant hasOther <==> exists m :: 0 <= m < j && m != i && mix[m].Some?
      invariant forall k | 0 <= k < FRAME :: mixed[k] == Mix(Column(mix[..j], k), i, 0)
    {
      forall k | 0 <= k < FRAME
        ensures Mix(Column(mix[..j + 1], k), i, 0)
             == if j == i || mix[j].None? then Mix(Column(mix[..j], k), i, 0)
               else Clamp(mixed[k] + SampleAt(mix[j].value, k))
      {
        ColumnStep(mix, j, i, k);
        FrameSample(mix, j, k);
      }
      if j != i && mix[j].Some? {
        hasOther := true;
        ghost var before := mixed[..];
        assert forall k | 0 <= k < FRAME :: mixed[k] == before[k];
        var k := 0;
        while k < FRAME
          invariant 0 <= k <= FRAME
          invariant forall m | 0 <= m < k :: mixed[m] == Clamp(before[m] + SampleAt(mix[j].value, m))
          invariant forall m | k <= m < FRAME :: mixed[m] == before[m]
        {
          FrameLength(mix, j);
          var s := mixed[k] + mix[j].value[k];
          if s > 32767 {
            s := 32767;
          } else if s < -32768 {
            s := -32768;
          }
          mixed[k] := s;
          k := k + 1;
        }
      }
      j := j + 1;
    }
    assert mix[..j] == mix;
    heard := if hasOther then Some(mixed[..]) else None;
  }

  function SampleAt(f: Frame, k: int): Sample {
    if 0 <= k < |f| then f[k] else 0
  }

  lemma {:induction false} FrameSample(mix: seq<Option<Frame>>, j: nat, k: int)
    requires j < |mix| && Sources(mix) && 0 <= k < FRAME
    ensures mix[j].Some? ==> |mix[j].value| == FRAME && SampleAt(mix[j].value, k) == mix[j].value[k]
  {}

  lemma {:induction false} FrameLength(mix: seq<Option<Frame>>, j: nat)
    requires j < |mix| && Sources(mix)
    ensures mix[j].Some? ==> |mix[j].value| == FRAME
  {}

  lemma {:induction false} Silence(mix: seq<Option<Frame>>, i: int)
    ensures forall k :: Mix(Column(mix[..0], k), i, 0) == 0
  {
    forall k ensures Mix(Column(mix[..0], k), i, 0) == 0 {
      assert Column(mix[..0], k) == [];
    }
  }

  // ---- The mixer's clock ----

  const SEQ_SPAN := 0x1_0000         // RTP sequence numbers have 16 bits
  const TS_SPAN := 0x1_0000_0000     // and timestamps 32

  function SeqAt(tick: int): int {
    tick % SEQ_SPAN
  }

  function TsAt(tick: int): int {
    FRAME * tick % TS_SPAN
  }

  datatype Packet = Packet(seqNo: int, ts: int, samples: Frame)

  class Mixer {
    var seqNo: int
    var ts: int
    ghost var tick: nat  // ticks with somebody in the conference

    ghost predicate Valid()
      reads this
    {
      seqNo == SeqAt(tick) && ts == TsAt(tick)
    }

    constructor ()
      ensures Valid() && tick == 0
    {
      seqNo, ts, tick := 0, 0, 0;
    }

    /** One tick; without anybody in the conference it does nothing. */
    method Tick(mix: seq<Option<Frame>>) returns (packets: seq<Option<Packet>>)
      requires Valid() && Sources(mix)
      modifies this
      ensures Valid() && tick == old(tick) + if mix == [] then 0 else 1
      ensures Sent(packets, mix, SeqAt(old(tick)), TsAt(old(tick)))
    {
      hide Sources, Sent, SeqAt, TsAt;
      packets := Packets(mix, seqNo, ts);
      if mix == [] {
        return;
      }
      NextStamps(tick);
      seqNo := (seqNo + 1) % SEQ_SPAN;
      ts := (ts + FRAME) % TS_SPAN;
      tick := tick + 1;
    }
  }

  /** A packet for each participant with somebody else to hear, all stamped alike. */
  ghost predicate Sent(packets: seq<Option<Packet>>, mix: seq<Option<Frame>>, seqNo: int, ts: int) {
    && |packets| == |mix|
    && forall i | 0 <= i < |mix| ::
         && (packets[i].None? <==> Alone(mix, i))
         && (packets[i].Some? ==> var p := packets[i].value; p.seqNo == seqNo && p.ts == ts && Heard(p.samples, mix, i))
  }

  method Packets(mix: seq<Option<Frame>>, seqNo: int, ts: int) returns (packets: seq<Option<Packet>>)
    requires Sources(mix)
    ensures Sent(packets, mix, seqNo, ts)
  {
    hide Heard, Sources, Alone;
    packets := [];
    var i := 0;
    while i < |mix|
      invariant 0 <= i == |packets| <= |mix|
      invariant forall k | 0 <= k < i :: packets[k].None? <==> Alone(mix, k)
      invariant forall k | 0 <= k < i && packets[k].Some? ::
                  var p := packets[k].value; p.seqNo == seqNo && p.ts == ts && Heard(p.samples, mix, k)
    {
      var heard := PacketFor(mix, i);
      packets := packets + [if heard.Some? then Some(Packet(seqNo, ts, heard.value)) else None];
      i := i + 1;
    }
  }

  method PacketFor(mix: seq<Option<Frame>>, i: nat) returns (heard: Option<Frame>)
    requires i < |mix| && Sources(mix)
    ensures heard.None? <==> Alone(mix, i)
    ensures heard.Some? ==> Heard(heard.value, mix, i)
  {
    heard := MixFor(mix, i);
  }

  /** Nobody but i has a frame. */
  predicate Alone(mix: seq<Option<Frame>>, i: int) {
    forall j | 0 <= j < |mix| && j != i :: mix[j].None?
  }

  /** f is the mix of what the others say, at every position. */
  ghost predicate Heard(f: Frame, mix: seq<Option<Frame>>, i: int) {
    |f| == FRAME && forall k | 0 <= k < FRAME :: f[k] == Mix(Column(mix, k), i, 0)
  }

  lemma {:induction false} NextMod(x: int, c: int, m: int)
    requires m > 0
    ensures (x % m + c) % m == (x + c) % m
  {
    var a, b := x % m + c, x + c;
    assert b - a == m * (x / m);
    assert m * (b / m) + b % m - m * (a / m) - a % m == m * (x / m);
    assert b % m - a % m == m * (x / m - b / m + a / m);
    Multiple(m, x / m - b / m + a / m, b % m - a % m);
  }

  lemma {:induction false} Multiple(m: int, k: int, d: int)
    requires m > 0 && d == m * k && -m < d < m
    ensures d == 0
  {
    Least(m, k);
    Least(m, -k);
  }

  lemma {:induction false} Least(m: int, k: int)
    requires m > 0
    ensures k >= 1 ==> m * k >= m
  {}

  lemma {:induction false} NextStamps(tick: nat)
    ensures (SeqAt(tick) + 1) % SEQ_SPAN == SeqAt(tick + 1)
    ensures (TsAt(tick) + FRAME) % TS_SPAN == TsAt(tick + 1)
  {
    NextMod(tick, 1, SEQ_SPAN);
    NextMod(FRAME * tick, FRAME, TS_SPAN);
  }

  lemma {:induction false} SameRemainder(a: int, b: int, m: int) returns (q: int)
    requires m > 0 && a % m == b % m
    ensures b - a == m * q
  {
    q := b / m - a / m;
  }

  /** Both start from zero; from tick to tick the one grows by 1, in 16 bits, and the other by 960, in 32. */
  lemma {:induction false} StampsFollow(t: nat)
    ensures SeqAt(0) == 0 && SeqAt(t + 1) == (SeqAt(t) + 1) % 0x1_0000
    ensures TsAt(0) == 0 && TsAt(t + 1) == (TsAt(t) + 960) % 0x1_0000_0000
  {
    assert FRAME * (t + 1) == FRAME * t + 960;
  }

  /** Stamps come round only after 2^16 ticks for the sequence number and 2^26 ticks for the timestamp. */
  lemma {:induction false} StampsDiffer(t: nat, u: nat)
    requires t < u
    ensures u - t < 0x1_0000 ==> SeqAt(t) != SeqAt(u)
    ensures u - t < 0x400_0000 ==> TsAt(t) != TsAt(u)
  {
    if u - t < SEQ_SPAN && SeqAt(t) == SeqAt(u) {
      var q := SameRemainder(t, u, SEQ_SPAN);
      assert false;
    }
    if u - t < 0x400_0000 && TsAt(t) == TsAt(u) {
      var q := SameRemainder(FRAME * t, FRAME * u, TS_SPAN);
      assert false;
    }
  }
}
