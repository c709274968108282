/** A faster form of the edge count, which does not distinguish unused and pooled identifiers, and its published value. */
module PublishedEdges {
  import opened EdgeCensus
  import opened Transitions

  /** A number that depends linearly on how many identifiers are unused and how many pooled. */
  datatype Linear = Linear(base: nat, unused: nat, pooled: nat)

  function Value(f: Linear, unused: nat, pooled: nat): nat {
    f.base + f.unused * unused + f.pooled * pooled
  }

  function Add(f: Linear, g: Linear): Linear {
    Linear(f.base + g.base, f.unused + g.unused, f.pooled + g.pooled)
  }

  function Scale(k: nat, f: Linear): Linear {
    Linear(k * f.base, k * f.unused, k * f.pooled)
  }

  /** One more identifier is unused or pooled. */
  function Unbound(f: Linear): Linear {
    Linear(2 * f.base + f.unused + f.pooled, 2 * f.unused, 2 * f.pooled)
  }

  /** What else the edge count depends on. */
  datatype Shape = Shape(versions: nat, ekm: nat, free: nat, top: nat, second: nat)

  type Level = Shape -> Linear

  function OnVersion(x: Shape): Shape {
    x.(versions := Minus(x.versions, 1), ekm := x.ekm + 1)
  }

  function OnEpoch(x: Shape, e: nat): Shape {
    x.(free := Minus(x.free, 1), top := Higher(x.top, e), second := NextSecond(x.top, x.second, e))
  }

  function OnLowEpoch(x: Shape): Shape {
    x.(free := Minus(x.free, 1))
  }

  function LowEpochs(last: nat, x: Shape): nat {
    Minus(Minus(x.free, Minus(last, x.top)), Minus(Minus(x.top, 1), x.second))
  }

  function Leaves(last: nat): Level {
    (x: Shape) => Scale(if x.ekm > 0 then x.ekm else 1, OneLeaf(last, x))
  }

  function OneLeaf(last: nat, x: Shape): Linear {
    if x.top > 0 then Linear(116 + 16 * x.top + 16 * x.second, 16, 32 + 16 * x.versions + 8 * Minus(last, x.top))
    else Linear(50, 8, 16 + 8 * x.versions + 8 * last)
  }

  /** One more identifier to place, in front of a level. */
  function Up(last: nat, f: Level): Level {
    (x: Shape) =>
      Add(Unbound(f(x)),
          Add(Scale(x.versions, f(OnVersion(x))),
              Add(Epochs(f, x, x.top, last),
                  Add(Epochs(f, x, x.second, Minus(x.top, 1)),
                      Scale(LowEpochs(last, x), f(OnLowEpoch(x)))))))
  }

  function Epochs(f: Level, x: Shape, low: nat, high: nat): Linear {
    if high <= low then Linear(0, 0, 0) else Add(Epochs(f, x, low, high - 1), f(OnEpoch(x, high)))
  }

  /** `Edges` with all weights, as a linear form in the unused and the pooled identifiers. */
  function Fast(last: nat, n: nat): Level {
    if n == 0 then Leaves(last) else Up(last, Fast(last, n - 1))
  }

  function At(x: Shape, unused: nat, pooled: nat): Numbers {
    Numbers(unused, pooled, x.versions, x.ekm, x.free, x.top, x.second)
  }

  lemma ValueAdd(f: Linear, g: Linear, unused: nat, pooled: nat)
    ensures Value(Add(f, g), unused, pooled) == Value(f, unused, pooled) + Value(g, unused, pooled)
  {
    TimesPlus(f.unused, g.unused, unused);
    TimesPlus(f.pooled, g.pooled, pooled);
  }

  lemma ValueScale(k: nat, f: Linear, unused: nat, pooled: nat)
    ensures Value(Scale(k, f), unused, pooled) == Times(k, Value(f, unused, pooled))
  {
    assert k * f.unused * unused == k * (f.unused * unused);
    assert k * f.pooled * pooled == k * (f.pooled * pooled);
  }

  lemma ValueUnbound(f: Linear, unused: nat, pooled: nat)
    ensures Value(Unbound(f), unused, pooled) == Value(f, unused + 1, pooled) + Value(f, unused, pooled + 1)
  {
    TimesPlus(unused, 1, f.unused);
    TimesPlus(pooled, 1, f.pooled);
    TimesPlus(f.unused, f.unused, unused);
    TimesPlus(f.pooled, f.pooled, pooled);
  }

  lemma LeavesExactly(last: nat, x: Shape, u: nat, p: nat)
    ensures Leaf(AllWeights(), last, u, p, x.versions, x.ekm, x.top, x.second) == Value(Leaves(last)(x), u, p)
  {
    OneLeafExactly(last, x, u, p);
    ValueScale(if x.ekm > 0 then x.ekm else 1, OneLeaf(last, x), u, p);
    hide Degree, OneLeaf, Value, AllWeights, Scale;
  }

  lemma OneLeafExactly(last: nat, x: Shape, u: nat, p: nat)
    ensures Degree(AllWeights(), last, u, p, x.versions, x.top, false, x.top)
            + (if x.top > 0 then Degree(AllWeights(), last, u, p, x.versions, x.top, true, x.second) else 0)
         == Value(OneLeaf(last, x), u, p)
  {
    var v, a := x.versions, Minus(last, x.top);
    assert (32 + 16 * v + 8 * a) * p == 32 * p + 16 * (p * v) + 8 * (p * a);
    assert (16 + 8 * v + 8 * a) * p == 16 * p + 8 * (p * v) + 8 * (p * a);
  }

  /** The value of one more level is read off part by part. */
  lemma UpParts(last: nat, f: Level, x: Shape, u: nat, p: nat)
    ensures Value(Up(last, f)(x), u, p)
         == Value(f(x), u + 1, p) + Value(f(x), u, p + 1) + Times(x.versions, Value(f(OnVersion(x)), u, p))
            + Value(Epochs(f, x, x.top, last), u, p) + Value(Epochs(f, x, x.second, Minus(x.top, 1)), u, p)
            + Times(LowEpochs(last, x), Value(f(OnLowEpoch(x)), u, p))
  {
    hide Value, Add, Scale, Unbound, Times, Minus, Epochs, OnVersion, OnLowEpoch, LowEpochs;
    var bound, low := Scale(x.versions, f(OnVersion(x))), Scale(LowEpochs(last, x), f(OnLowEpoch(x)));
    var above, mid := Epochs(f, x, x.top, last), Epochs(f, x, x.second, Minus(x.top, 1));
    ValueUnbound(f(x), u, p);
    ValueScale(x.versions, f(OnVersion(x)), u, p);
    ValueScale(LowEpochs(last, x), f(OnLowEpoch(x)), u, p);
    ValueAdd(mid, low, u, p);
    ValueAdd(above, Add(mid, low), u, p);
    ValueAdd(bound, Add(above, Add(mid, low)), u, p);
    ValueAdd(Unbound(f(x)), Add(bound, Add(above, Add(mid, low))), u, p);
  }

  /** One more identifier to place, in terms of shapes. */
  lemma EdgesUp(last: nat, n: nat, x: Shape, u: nat, p: nat)
    ensures var w := AllWeights();
      EdgesAt(w, last, n + 1, At(x, u, p))
      == EdgesAt(w, last, n, At(x, u + 1, p)) + EdgesAt(w, last, n, At(x, u, p + 1))
         + Times(x.versions, EdgesAt(w, last, n, At(OnVersion(x), u, p)))
         + Between(w, last, n, u, p, x.versions, x.ekm, x.free, x.top, x.second, x.top, last)
         + Between(w, last, n, u, p, x.versions, x.ekm, x.free, x.top, x.second, x.second, Minus(x.top, 1))
         + Times(LowEpochs(last, x), EdgesAt(w, last, n, At(OnLowEpoch(x), u, p)))
  {
    hide EdgesAt, Times, Minus, Between, AllWeights;
    EdgesStep(AllWeights(), last, n, At(x, u, p));
  }

  lemma {:induction false} FastExactly(last: nat, n: nat, x: Shape, u: nat, p: nat)
    ensures EdgesAt(AllWeights(), last, n, At(x, u, p)) == Value(Fast(last, n)(x), u, p)
    decreases n, 0, 0
  {
    if n == 0 {
      hide Leaf, Leaves, Value, AllWeights;
      LeavesExactly(last, x, u, p);
    } else {
      hide Value, Times, Minus, Between, Epochs, EdgesAt, AllWeights, Up, At, OnVersion, OnLowEpoch, LowEpochs;
      var m := n - 1;
      EdgesUp(last, m, x, u, p);
      UpParts(last, Fast(last, m), x, u, p);
      FastExactly(last, m, x, u + 1, p);
      FastExactly(last, m, x, u, p + 1);
      FastExactly(last, m, OnVersion(x), u, p);
      FastExactly(last, m, OnLowEpoch(x), u, p);
      EpochsExactly(last, m, x, u, p, x.top, last);
      EpochsExactly(last, m, x, u, p, x.second, Minus(x.top, 1));
    }
  }

  lemma {:induction false} EpochsExactly(last: nat, n: nat, x: Shape, u: nat, p: nat, low: nat, high: nat)
    ensures Between(AllWeights(), last, n, u, p, x.versions, x.ekm, x.free, x.top, x.second, low, high)
         == Value(Epochs(Fast(last, n), x, low, high), u, p)
    decreases n, 1, high
  {
    hide Edges, Fast, Minus, Higher, NextSecond, AllWeights;
    if low < high {
      EpochsExactly(last, n, x, u, p, low, high - 1);
      FastExactly(last, n, OnEpoch(x, high), u, p);
      ValueAdd(Epochs(Fast(last, n), x, low, high - 1), Fast(last, n)(OnEpoch(x, high)), u, p);
    }
  }

  // --- the published value ----------------------------------------------------------------

  function Pick(b: bool, f: Linear): Linear {
    if b then f else Linear(0, 0, 0)
  }

  lemma MoreEpochs(f: Level, x: Shape, low: nat, high: nat)
    ensures Epochs(f, x, low, high + 1) == Add(Epochs(f, x, low, high), Pick(low <= high, f(OnEpoch(x, high + 1))))
  {
    hide OnEpoch;
  }

  lemma NoEpochs(f: Level, x: Shape, low: nat)
    ensures Epochs(f, x, low, 0) == Linear(0, 0, 0)
  {
  }

  lemma PickNone(b: bool, f: Linear)
    requires !b
    ensures Pick(b, f) == Linear(0, 0, 0)
  {
  }

  lemma AddNothing(f: Linear)
    ensures Add(f, Linear(0, 0, 0)) == f && Add(Linear(0, 0, 0), f) == f
  {
  }

  lemma AddAssociates(f: Linear, g: Linear, h: Linear)
    ensures Add(Add(f, g), h) == Add(f, Add(g, h))
  {
  }

  /** Of three epochs, those above `low` and up to `high`. */
  lemma ThreeEpochs(f: Level, x: Shape, low: nat, high: nat)
    requires high <= 3
    ensures Epochs(f, x, low, high)
         == Add(Pick(low < 1 <= high, f(OnEpoch(x, 1))),
                Add(Pick(low < 2 <= high, f(OnEpoch(x, 2))), Pick(low < 3 <= high, f(OnEpoch(x, 3)))))
  {
    hide OnEpoch, Epochs, Pick, Add;
    var a, b, c := f(OnEpoch(x, 1)), f(OnEpoch(x, 2)), f(OnEpoch(x, 3));
    NothingAdded();
    NoEpochs(f, x, low);
    MoreEpochs(f, x, low, 0);
    MoreEpochs(f, x, low, 1);
    MoreEpochs(f, x, low, 2);
    if high < 1 { PickNone(low < 1 <= high, a); }
    if high < 2 { PickNone(low < 2 <= high, b); }
    if high < 3 { PickNone(low < 3 <= high, c); }
    AddAssociates(Pick(low < 1, a), Pick(low < 2, b), Pick(low < 3, c));
  }

  lemma Regroup(u: Linear, v: Linear, a1: Linear, a2: Linear, a3: Linear, m1: Linear, m2: Linear, m3: Linear, low: Linear)
    ensures Add(u, Add(v, Add(Add(a1, Add(a2, a3)), Add(Add(m1, Add(m2, m3)), low))))
         == Add(u, Add(v, Add(Add(a1, m1), Add(Add(a2, m2), Add(Add(a3, m3), low)))))
  {
  }

  lemma PickOnce(x: bool, y: bool, f: Linear)
    requires !(x && y)
    ensures Add(Pick(x, f), Pick(y, f)) == Pick(x || y, f)
  {
  }

  /** With three epochs: one more identifier is absent or pooled, on a version, or on one of the epochs. */
  lemma UpThree(f: Level, x: Shape)
    requires x.top <= 3
    ensures Up(3, f)(x)
         == Add(Unbound(f(x)),
                Add(Scale(x.versions, f(OnVersion(x))),
                    Add(Pick(x.top < 1 || x.second < 1 <= Minus(x.top, 1), f(OnEpoch(x, 1))),
                        Add(Pick(x.top < 2 || x.second < 2 <= Minus(x.top, 1), f(OnEpoch(x, 2))),
                            Add(Pick(x.top < 3 || x.second < 3 <= Minus(x.top, 1), f(OnEpoch(x, 3))),
                                Scale(LowEpochs(3, x), f(OnLowEpoch(x))))))))
  {
    hide OnVersion, OnEpoch, OnLowEpoch, LowEpochs, Unbound, Scale, Epochs, Pick, Minus, Add;
    var m := Minus(x.top, 1);
    assert m <= 3 by { MinusAtMost(x.top, 1); }
    var a, b, c := f(OnEpoch(x, 1)), f(OnEpoch(x, 2)), f(OnEpoch(x, 3));
    ThreeEpochs(f, x, x.top, 3);
    ThreeEpochs(f, x, x.second, m);
    PickOnce(x.top < 1 <= 3, x.second < 1 <= m, a) by { BelowTop(x.top, 1); }
    PickOnce(x.top < 2 <= 3, x.second < 2 <= m, b) by { BelowTop(x.top, 2); }
    PickOnce(x.top < 3 <= 3, x.second < 3 <= m, c) by { BelowTop(x.top, 3); }
    Regroup(Unbound(f(x)), Scale(x.versions, f(OnVersion(x))),
            Pick(x.top < 1 <= 3, a), Pick(x.top < 2 <= 3, b), Pick(x.top < 3 <= 3, c),
            Pick(x.second < 1 <= m, a), Pick(x.second < 2 <= m, b), Pick(x.second < 3 <= m, c),
            Scale(LowEpochs(3, x), f(OnLowEpoch(x))));
  }

  lemma MinusAtMost(a: nat, b: nat)
    ensures Minus(a, b) <= a
  {
  }

  lemma BelowTop(top: nat, e: nat)
    ensures !(top < e && e <= Minus(top, 1))
  {
  }

  lemma ScaleOne(f: Linear)
    ensures Scale(0, f) == Linear(0, 0, 0) && Scale(1, f) == f && Scale(2, f) == Add(f, f)
  {
  }

  lemma ScaleSmall()
    ensures forall f: Linear :: Scale(0, f) == Linear(0, 0, 0) && Scale(1, f) == f && Scale(2, f) == Add(f, f)
  {
    forall f: Linear ensures Scale(0, f) == Linear(0, 0, 0) && Scale(1, f) == f && Scale(2, f) == Add(f, f) {
      ScaleOne(f);
    }
  }

  lemma NothingAdded()
    ensures forall f: Linear :: Add(f, Linear(0, 0, 0)) == f && Add(Linear(0, 0, 0), f) == f
  {
    forall f: Linear ensures Add(f, Linear(0, 0, 0)) == f && Add(Linear(0, 0, 0), f) == f {
      AddNothing(f);
    }
  }

  /** What one more identifier bound to an epoch adds, for the eight choices of bound epochs among three. */
  function EpochParts(f: Level, v: nat, m: nat, free: nat, top: nat, second: nat): Linear {
    if top == 0 then Add(f(Shape(v, m, 2, 1, 0)), Add(f(Shape(v, m, 2, 2, 0)), f(Shape(v, m, 2, 3, 0))))
    else if free == 2 && top == 1 then Add(f(Shape(v, m, 1, 2, 1)), f(Shape(v, m, 1, 3, 1)))
    else if free == 2 && top == 2 then Add(f(Shape(v, m, 1, 2, 1)), f(Shape(v, m, 1, 3, 2)))
    else if free == 2 then Add(f(Shape(v, m, 1, 3, 1)), f(Shape(v, m, 1, 3, 2)))
    else if free == 1 then f(Shape(v, m, 0, 3, 2))
    else Linear(0, 0, 0)
  }

  /** The number of free epochs and the two highest bound ones, when some of three epochs are bound. */
  predicate Chosen(free: nat, top: nat, second: nat) {
    || (free == 3 && top == 0 && second == 0)
    || (free == 2 && 1 <= top <= 3 && second == 0)
    || (free == 1 && top == 2 && second == 1)
    || (free == 1 && top == 3 && 1 <= second <= 2)
    || (free == 0 && top == 3 && second == 2)
  }

  lemma UpAt(f: Level, v: nat, m: nat, free: nat, top: nat, second: nat)
    requires Chosen(free, top, second)
    ensures var x := Shape(v, m, free, top, second);
      Up(3, f)(x)
      == Add(Unbound(f(x)),
             Add(Scale(v, f(Shape(Minus(v, 1), m + 1, free, top, second))), EpochParts(f, v, m, free, top, second)))
  {
    hide Up, Unbound, Scale, Add;
    var x := Shape(v, m, free, top, second);
    UpThree(f, x);
    ScaleSmall();
    NothingAdded();
  }

  /** The same when no version is free. */
  lemma UpWithoutVersions(f: Level, m: nat, free: nat, top: nat, second: nat)
    requires Chosen(free, top, second)
    ensures var x := Shape(0, m, free, top, second);
      Up(3, f)(x) == Add(Unbound(f(x)), EpochParts(f, 0, m, free, top, second))
  {
    hide Up, Unbound, Scale, Add;
    UpAt(f, 0, m, free, top, second);
    ScaleSmall();
    NothingAdded();
  }

  /** No identifier to place and no version bound: the values for every choice of bound epochs. */
  ghost predicate NoneOpen0(f: Level) {
    && f(Shape(2, 0, 3, 0, 0)) == Linear(50, 8, 56)
    && f(Shape(2, 0, 2, 1, 0)) == Linear(132, 16, 80)
    && f(Shape(2, 0, 2, 2, 0)) == Linear(148, 16, 72)
    && f(Shape(2, 0, 2, 3, 0)) == Linear(164, 16, 64)
    && f(Shape(2, 0, 1, 2, 1)) == Linear(164, 16, 72)
    && f(Shape(2, 0, 1, 3, 1)) == Linear(180, 16, 64)
    && f(Shape(2, 0, 1, 3, 2)) == Linear(196, 16, 64)
    && f(Shape(2, 0, 0, 3, 2)) == Linear(196, 16, 64)
  }

  /** No identifier to place and one version bound: the values for every choice of bound epochs. */
  ghost predicate NoneOpen1(f: Level) {
    && f(Shape(1, 1, 3, 0, 0)) == Linear(50, 8, 48)
    && f(Shape(1, 1, 2, 1, 0)) == Linear(132, 16, 64)
    && f(Shape(1, 1, 2, 2, 0)) == Linear(148, 16, 56)
    && f(Shape(1, 1, 2, 3, 0)) == Linear(164, 16, 48)
    && f(Shape(1, 1, 1, 2, 1)) == Linear(164, 16, 56)
    && f(Shape(1, 1, 1, 3, 1)) == Linear(180, 16, 48)
    && f(Shape(1, 1, 1, 3, 2)) == Linear(196, 16, 48)
    && f(Shape(1, 1, 0, 3, 2)) == Linear(196, 16, 48)
  }

  /** No identifier to place and two versions bound: the values for every choice of bound epochs. */
  ghost predicate NoneOpen2(f: Level) {
    && f(Shape(0, 2, 3, 0, 0)) == Linear(100, 16, 80)
    && f(Shape(0, 2, 2, 1, 0)) == Linear(264, 32, 96)
    && f(Shape(0, 2, 2, 2, 0)) == Linear(296, 32, 80)
    && f(Shape(0, 2, 2, 3, 0)) == Linear(328, 32, 64)
    && f(Shape(0, 2, 1, 2, 1)) == Linear(328, 32, 80)
    && f(Shape(0, 2, 1, 3, 1)) == Linear(360, 32, 64)
    && f(Shape(0, 2, 1, 3, 2)) == Linear(392, 32, 64)
  }

  /** One identifier to place and no version bound: the values for every choice of bound epochs. */
  ghost predicate OneOpen0(f: Level) {
    && f(Shape(2, 0, 3, 0, 0)) == Linear(708, 80, 424)
    && f(Shape(2, 0, 2, 1, 0)) == Linear(968, 96, 424)
    && f(Shape(2, 0, 2, 2, 0)) == Linear(1040, 96, 392)
    && f(Shape(2, 0, 2, 3, 0)) == Linear(1112, 96, 352)
    && f(Shape(2, 0, 1, 2, 1)) == Linear(940, 80, 320)
    && f(Shape(2, 0, 1, 3, 1)) == Linear(996, 80, 288)
    && f(Shape(2, 0, 1, 3, 2)) == Linear(1060, 80, 288)
    && f(Shape(2, 0, 0, 3, 2)) == Linear(864, 64, 224)
  }

  /** One identifier to place and one version bound: the values for every choice of bound epochs. */
  ghost predicate OneOpen1(f: Level) {
    && f(Shape(1, 1, 3, 0, 0)) == Linear(700, 80, 344)
    && f(Shape(1, 1, 2, 1, 0)) == Linear(952, 96, 328)
    && f(Shape(1, 1, 2, 2, 0)) == Linear(1024, 96, 296)
    && f(Shape(1, 1, 2, 3, 0)) == Linear(1096, 96, 256)
    && f(Shape(1, 1, 1, 2, 1)) == Linear(924, 80, 240)
    && f(Shape(1, 1, 1, 3, 1)) == Linear(980, 80, 208)
    && f(Shape(1, 1, 1, 3, 2)) == Linear(1044, 80, 208)
  }

  /** One identifier to place and two versions bound: the values for every choice of bound epochs. */
  ghost predicate OneOpen2(f: Level) {
    && f(Shape(0, 2, 3, 0, 0)) == Linear(1184, 128, 400)
    && f(Shape(0, 2, 2, 1, 0)) == Linear(1344, 128, 336)
    && f(Shape(0, 2, 2, 2, 0)) == Linear(1424, 128, 304)
    && f(Shape(0, 2, 2, 3, 0)) == Linear(1504, 128, 256)
  }

  /** Two identifiers to place and no version bound: the values for every choice of bound epochs. */
  ghost predicate TwoOpen0(f: Level) {
    && f(Shape(2, 0, 3, 0, 0)) == Linear(6440, 608, 2704)
    && f(Shape(2, 0, 2, 1, 0)) == Linear(6296, 544, 2112)
    && f(Shape(2, 0, 2, 2, 0)) == Linear(6616, 544, 1984)
    && f(Shape(2, 0, 2, 3, 0)) == Linear(6920, 544, 1792)
    && f(Shape(2, 0, 1, 2, 1)) == Linear(4992, 384, 1344)
    && f(Shape(2, 0, 1, 3, 1)) == Linear(5184, 384, 1216)
    && f(Shape(2, 0, 1, 3, 2)) == Linear(5440, 384, 1216)
  }

  /** Two identifiers to place and one version bound: the values for every choice of bound epochs. */
  ghost predicate TwoOpen1(f: Level) {
    && f(Shape(1, 1, 3, 0, 0)) == Linear(6080, 576, 1968)
    && f(Shape(1, 1, 2, 1, 0)) == Linear(5576, 480, 1440)
    && f(Shape(1, 1, 2, 2, 0)) == Linear(5832, 480, 1344)
    && f(Shape(1, 1, 2, 3, 0)) == Linear(6072, 480, 1184)
  }

  /** Two identifiers to place and two versions bound: the values for every choice of bound epochs. */
  ghost predicate TwoOpen2(f: Level) {
    && f(Shape(0, 2, 3, 0, 0)) == Linear(7168, 640, 1696)
  }

  /** Three identifiers to place and no version bound: the values for every choice of bound epochs. */
  ghost predicate ThreeOpen0(f: Level) {
    && f(Shape(2, 0, 3, 0, 0)) == Linear(48184, 4000, 15232)
    && f(Shape(2, 0, 2, 1, 0)) == Linear(36576, 2816, 9664)
    && f(Shape(2, 0, 2, 2, 0)) == Linear(37856, 2816, 9216)
    && f(Shape(2, 0, 2, 3, 0)) == Linear(38944, 2816, 8384)
  }

  /** Three identifiers to place and one version bound: the values for every choice of bound epochs. */
  ghost predicate ThreeOpen1(f: Level) {
    && f(Shape(1, 1, 3, 0, 0)) == Linear(39352, 3232, 9600)
  }

  lemma NoneOpenHolds()
    ensures NoneOpen0(Leaves(3)) && NoneOpen1(Leaves(3)) && NoneOpen2(Leaves(3))
  {
  }

  lemma OneOpen0Holds(f: Level)
    requires NoneOpen0(f) && NoneOpen1(f)
    ensures OneOpen0(Up(3, f))
  {
    hide Up;
    UpAt(f, 2, 0, 3, 0, 0);
    UpAt(f, 2, 0, 2, 1, 0);
    UpAt(f, 2, 0, 2, 2, 0);
    UpAt(f, 2, 0, 2, 3, 0);
    UpAt(f, 2, 0, 1, 2, 1);
    UpAt(f, 2, 0, 1, 3, 1);
    UpAt(f, 2, 0, 1, 3, 2);
    UpAt(f, 2, 0, 0, 3, 2);
  }

  lemma OneOpen1Holds(f: Level)
    requires NoneOpen1(f) && NoneOpen2(f)
    ensures OneOpen1(Up(3, f))
  {
    hide Up;
    UpAt(f, 1, 1, 3, 0, 0);
    UpAt(f, 1, 1, 2, 1, 0);
    UpAt(f, 1, 1, 2, 2, 0);
    UpAt(f, 1, 1, 2, 3, 0);
    UpAt(f, 1, 1, 1, 2, 1);
    UpAt(f, 1, 1, 1, 3, 1);
    UpAt(f, 1, 1, 1, 3, 2);
  }

  lemma OneOpen2Holds(f: Level)
    requires NoneOpen2(f)
    ensures OneOpen2(Up(3, f))
  {
    hide Up, Scale;
    UpWithoutVersions(f, 2, 3, 0, 0);
    UpWithoutVersions(f, 2, 2, 1, 0);
    UpWithoutVersions(f, 2, 2, 2, 0);
    UpWithoutVersions(f, 2, 2, 3, 0);
  }

  lemma TwoOpen0Holds(f: Level)
    requires OneOpen0(f) && OneOpen1(f)
    ensures TwoOpen0(Up(3, f))
  {
    hide Up;
    UpAt(f, 2, 0, 3, 0, 0);
    UpAt(f, 2, 0, 2, 1, 0);
    UpAt(f, 2, 0, 2, 2, 0);
    UpAt(f, 2, 0, 2, 3, 0);
    UpAt(f, 2, 0, 1, 2, 1);
    UpAt(f, 2, 0, 1, 3, 1);
    UpAt(f, 2, 0, 1, 3, 2);
  }

  lemma TwoOpen1Holds(f: Level)
    requires OneOpen1(f) && OneOpen2(f)
    ensures TwoOpen1(Up(3, f))
  {
    hide Up;
    UpAt(f, 1, 1, 3, 0, 0);
    UpAt(f, 1, 1, 2, 1, 0);
    UpAt(f, 1, 1, 2, 2, 0);
    UpAt(f, 1, 1, 2, 3, 0);
  }

  lemma TwoOpen2Holds(f: Level)
    requires OneOpen2(f)
    ensures TwoOpen2(Up(3, f))
  {
    hide Up, Scale;
    UpWithoutVersions(f, 2, 3, 0, 0);
  }

  lemma ThreeOpen0Holds(f: Level)
    requires TwoOpen0(f) && TwoOpen1(f)
    ensures ThreeOpen0(Up(3, f))
  {
    hide Up;
    UpAt(f, 2, 0, 3, 0, 0);
    UpAt(f, 2, 0, 2, 1, 0);
    UpAt(f, 2, 0, 2, 2, 0);
    UpAt(f, 2, 0, 2, 3, 0);
  }

  lemma ThreeOpen1Holds(f: Level)
    requires TwoOpen1(f) && TwoOpen2(f)
    ensures ThreeOpen1(Up(3, f))
  {
    hide Up;
    UpAt(f, 1, 1, 3, 0, 0);
  }

  lemma FourOpenHolds(f: Level)
    requires ThreeOpen0(f) && ThreeOpen1(f)
    ensures Up(3, f)(Shape(2, 0, 3, 0, 0)).base == 307680
  {
    hide Up;
    UpAt(f, 2, 0, 3, 0, 0);
  }

  lemma FourLevels(last: nat)
    ensures Fast(last, 4) == Up(last, Up(last, Up(last, Up(last, Leaves(last)))))
  {
    hide Up, Leaves;
    assert Fast(last, 0) == Leaves(last);
    assert Fast(last, 1) == Up(last, Fast(last, 0));
    assert Fast(last, 2) == Up(last, Fast(last, 1));
    assert Fast(last, 3) == Up(last, Fast(last, 2));
  }

  /** The edge count at four identifiers, two versions and three epochs. */
  lemma PublishedEdgeCount()
    ensures EdgesAt(AllWeights(), 3, 4, Numbers(0, 0, 2, 0, 3, 0, 0)) == 307680
  {
    hide EdgesAt, Up, Leaves, AllWeights, NoneOpen0, NoneOpen1, NoneOpen2, OneOpen0, OneOpen1, OneOpen2,
      TwoOpen0, TwoOpen1, TwoOpen2, ThreeOpen0, ThreeOpen1;
    var one := Up(3, Leaves(3));
    var two := Up(3, one);
    NoneOpenHolds();
    OneOpen0Holds(Leaves(3));
    OneOpen1Holds(Leaves(3));
    OneOpen2Holds(Leaves(3));
    TwoOpen0Holds(one);
    TwoOpen1Holds(one);
    TwoOpen2Holds(one);
    ThreeOpen0Holds(two);
    ThreeOpen1Holds(two);
    FourOpenHolds(Up(3, two));
    FourLevels(3);
    FastExactly(3, 4, Shape(2, 0, 3, 0, 0), 0, 0);
  }
}
