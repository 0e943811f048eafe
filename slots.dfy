/**
 * Slot selection of the draggable link tab: the weights built from the
 * sibling tabs' left offsets, and the slot whose weight lies nearest to the
 * dragged tab's centre, clamped to at least 1.
 *
 * The directive works on JavaScript numbers. The values that occur here are
 * integer pixel offsets, `NaN` (an `undefined` entry used in `+`) and
 * `+Infinity` (what `Math.min` returns for no arguments), so they are modelled
 * by `Number`. The centre `offsetLeft + clientWidth / 2` may be a half
 * integer; it is passed DOUBLED (`centre2 = 2 * offsetLeft + clientWidth`) and
 * every distance is doubled with it, which keeps the order and the equalities
 * among the distances and hence the index that `indexOf` finds.
 */
module Slots {

  /** A JavaScript number as it arises in slot selection. */
  datatype Number = Finite(value: int) | NaN | Infinity

  function Abs(x: int): nat {
    if x < 0 then -x else x
  }

  /** JavaScript `===`: NaN equals nothing, not even itself. */
  predicate StrictEquals(a: Number, b: Number) {
    match (a, b)
    case (Finite(x), Finite(y)) => x == y
    case (Infinity, Infinity) => true
    case _ => false
  }

  /** `a <= b` on numbers other than NaN; +Infinity is the greatest. */
  predicate AtMost(a: Number, b: Number)
    requires a != NaN && b != NaN
  {
    b == Infinity || (a.Finite? && b.Finite? && a.value <= b.value)
  }

  /** Two-argument `Math.min`. */
  function Min2(a: Number, b: Number): Number {
    if a == NaN || b == NaN then NaN
    else if AtMost(a, b) then a
    else b
  }

  /**
   * `Math.min.apply(Math, xs)`: +Infinity for no arguments, NaN as soon as an
   * argument is NaN, and otherwise the least argument.
   */
  function MathMin(xs: seq<Number>): (r: Number)
    ensures NaN in xs ==> r == NaN
    ensures |xs| == 0 ==> r == Infinity
    ensures NaN !in xs && |xs| > 0 ==> r in xs
    ensures NaN !in xs ==> r != NaN && forall i :: 0 <= i < |xs| ==> AtMost(r, xs[i])
  {
    if |xs| == 0 then Infinity
    else
      var rest := MathMin(xs[1..]);
      assert xs == [xs[0]] + xs[1..];
      Min2(xs[0], rest)
  }

  /** `xs.indexOf(x)`: the first position holding a value `===` to `x`, or -1. */
  function IndexOf(xs: seq<Number>, x: Number): (r: int)
    ensures -1 <= r < |xs|
    ensures r >= 0 ==> StrictEquals(xs[r], x) && forall j :: 0 <= j < r ==> !StrictEquals(xs[j], x)
    ensures r == -1 <==> forall j :: 0 <= j < |xs| ==> !StrictEquals(xs[j], x)
  {
    if |xs| == 0 then -1
    else if StrictEquals(xs[0], x) then 0
    else
      var k := IndexOf(xs[1..], x);
      if k == -1 then -1 else k + 1
  }

  /** `xs[i]` on a JavaScript array, used as an operand of `+`: `undefined` (outside the array) becomes NaN. */
  function ReadAsNumber(xs: seq<Number>, i: int): Number {
    if 0 <= i < |xs| then xs[i] else NaN
  }

  /** JavaScript `a + b` for an integer `b`. */
  function Plus(a: Number, b: int): Number {
    match a
    case Finite(x) => Finite(x + b)
    case NaN => NaN
    case Infinity => Infinity
  }

  /**
   * `generateWeights`: the siblings' left offsets in order, then one trailing
   * weight, the last sibling's offset plus the host's width. With no sibling
   * the trailing weight is `undefined + width`, that is NaN.
   */
  function GenerateWeights(siblingOffsets: seq<int>, hostWidth: int): (w: seq<Number>)
    ensures |w| == |siblingOffsets| + 1
    ensures forall i :: 0 <= i < |siblingOffsets| ==> w[i] == Finite(siblingOffsets[i])
    ensures |siblingOffsets| == 0 ==> w[0] == NaN
    ensures |siblingOffsets| > 0 ==> w[|siblingOffsets|] == Finite(siblingOffsets[|siblingOffsets| - 1] + hostWidth)
  {
    var positions := seq(|siblingOffsets|, i requires 0 <= i < |siblingOffsets| => Finite(siblingOffsets[i]));
    positions + [Plus(ReadAsNumber(positions, |positions| - 1), hostWidth)]
  }

  /** `Math.abs(weight - centre)`, doubled. */
  function Distance(weight: Number, centre2: int): Number {
    match weight
    case Finite(v) => Finite(Abs(2 * v - centre2))
    case NaN => NaN
    case Infinity => Infinity
  }

  /** The candidates of `getCurrentIndex`: each weight's distance from the centre. */
  function Candidates(weights: seq<Number>, centre2: int): (c: seq<Number>)
    ensures |c| == |weights|
  {
    seq(|weights|, i requires 0 <= i < |weights| => Distance(weights[i], centre2))
  }

  /**
   * A candidate is NaN exactly where its weight is NaN, and finite exactly
   * where its weight is; a finite candidate is never negative and is 0
   * exactly when the weight sits on the centre.
   */
  lemma CandidatesFollowWeights(weights: seq<Number>, centre2: int)
    ensures var c := Candidates(weights, centre2);
      && (forall i :: 0 <= i < |weights| ==> (c[i] == NaN <==> weights[i] == NaN))
      && (forall i :: 0 <= i < |weights| ==> (c[i].Finite? <==> weights[i].Finite?))
      && (forall i :: 0 <= i < |weights| && weights[i].Finite? ==>
            0 <= c[i].value && (c[i].value == 0 <==> 2 * weights[i].value == centre2))
  {
  }

  /**
   * The index of the least candidate before clamping:
   * `candidates.indexOf(Math.min.apply(Math, candidates))`. It is -1 exactly
   * when there is no weight or some weight is NaN; otherwise it is a weight's
   * index.
   */
  function RawIndex(weights: seq<Number>, centre2: int): (r: int)
    ensures -1 <= r < |weights|
    ensures r == -1 <==> |weights| == 0 || exists i :: 0 <= i < |weights| && weights[i] == NaN
  {
    var candidates := Candidates(weights, centre2);
    CandidatesFollowWeights(weights, centre2);
    IndexOf(candidates, MathMin(candidates))
  }

  /**
   * `getCurrentIndex`: the first index of the least distance, raised to 1 when
   * it is smaller; never below 1 and never past the last weight (unless there
   * is at most one weight).
   */
  function GetCurrentIndex(weights: seq<Number>, centre2: int): (r: int)
    ensures 1 <= r
    ensures |weights| > 1 ==> r <= |weights| - 1
  {
    var candidateIndex := RawIndex(weights, centre2);
    if candidateIndex > 1 then candidateIndex else 1
  }

  /** The weights all as `Finite` numbers. */
  function Finites(ws: seq<int>): seq<Number> {
    seq(|ws|, i requires 0 <= i < |ws| => Finite(ws[i]))
  }

  /**
   * Reference definition of the selection, on integer weights: `raw` is the
   * first index of a weight nearest to the (doubled) centre.
   */
  predicate IsFirstNearest(ws: seq<int>, centre2: int, raw: int) {
    && 0 <= raw < |ws|
    && (forall j :: 0 <= j < |ws| ==> Abs(2 * ws[raw] - centre2) <= Abs(2 * ws[j] - centre2))
    && (forall j :: 0 <= j < raw ==> Abs(2 * ws[j] - centre2) > Abs(2 * ws[raw] - centre2))
  }

  /** On finite weights, `indexOf` of `Math.min` finds the first nearest weight. */
  lemma RawIndexIsFirstNearest(ws: seq<int>, centre2: int)
    requires |ws| > 0
    ensures IsFirstNearest(ws, centre2, RawIndex(Finites(ws), centre2))
  {
    var candidates := Candidates(Finites(ws), centre2);
    var least := MathMin(candidates);
    assert forall i :: 0 <= i < |candidates| ==> candidates[i] == Finite(Abs(2 * ws[i] - centre2));
    assert NaN !in candidates;
    assert least in candidates;
    var k :| 0 <= k < |candidates| && candidates[k] == least;
    assert StrictEquals(candidates[k], least);
    var raw := IndexOf(candidates, least);
    assert raw >= 0;
  }

  /** There is at most one first nearest weight. */
  lemma FirstNearestUnique(ws: seq<int>, centre2: int, a: int, b: int)
    requires IsFirstNearest(ws, centre2, a) && IsFirstNearest(ws, centre2, b)
    ensures a == b
  {
    var da, db := Abs(2 * ws[a] - centre2), Abs(2 * ws[b] - centre2);
    assert da == db;
  }

  /**
   * The argmin property: on finite weights `getCurrentIndex` is the first
   * nearest index when that exceeds 1, and 1 otherwise.
   */
  lemma GetCurrentIndexIsClampedNearest(ws: seq<int>, centre2: int, raw: int)
    requires IsFirstNearest(ws, centre2, raw)
    ensures GetCurrentIndex(Finites(ws), centre2) == if raw > 1 then raw else 1
  {
    RawIndexIsFirstNearest(ws, centre2);
    FirstNearestUnique(ws, centre2, raw, RawIndex(Finites(ws), centre2));
  }

  /** With at least one sibling, every weight is a finite number. */
  lemma WeightsAreFinite(siblingOffsets: seq<int>, hostWidth: int)
    requires |siblingOffsets| > 0
    ensures GenerateWeights(siblingOffsets, hostWidth)
         == Finites(siblingOffsets + [siblingOffsets[|siblingOffsets| - 1] + hostWidth])
  {
  }

  /** With at least one sibling, the selected slot lies in `[1, |siblings|]`. */
  lemma SlotWithinSiblings(siblingOffsets: seq<int>, hostWidth: int, centre2: int)
    requires |siblingOffsets| > 0
    ensures 1 <= GetCurrentIndex(GenerateWeights(siblingOffsets, hostWidth), centre2) <= |siblingOffsets|
  {
  }

  /**
   * A NaN weight makes `Math.min` NaN, which `indexOf` never finds, so the
   * clamp yields 1.
   */
  lemma NaNWeightSelectsSlotOne(weights: seq<Number>, centre2: int)
    requires NaN in weights
    ensures GetCurrentIndex(weights, centre2) == 1
  {
    var candidates := Candidates(weights, centre2);
    var k :| 0 <= k < |weights| && weights[k] == NaN;
    assert candidates[k] == NaN;
    assert MathMin(candidates) == NaN;
  }

  /** With no sibling the slot is 1. */
  lemma NoSiblingSelectsSlotOne(hostWidth: int, centre2: int)
    ensures GetCurrentIndex(GenerateWeights([], hostWidth), centre2) == 1
  {
    assert GenerateWeights([], hostWidth)[0] == NaN;
    NaNWeightSelectsSlotOne(GenerateWeights([], hostWidth), centre2);
  }

  /**
   * Four siblings at 0, 80, 160 and 240 and a host 80 wide: a centre at 200
   * is 40 from both 160 and 240, and `indexOf` takes the first, slot 2.
   */
  lemma TieGoesToFirstSlot()
    ensures GetCurrentIndex(GenerateWeights([0, 80, 160, 240], 80), 400) == 2
  {
    WeightsAreFinite([0, 80, 160, 240], 80);
    var ws := [0, 80, 160, 240] + [240 + 80];
    assert IsFirstNearest(ws, 400, 2);
    GetCurrentIndexIsClampedNearest(ws, 400, 2);
  }

  /** The same siblings with the centre at 120: 40 from both 80 and 160, slot 1. */
  lemma CentreAt120SelectsSlotOne()
    ensures GetCurrentIndex(GenerateWeights([0, 80, 160, 240], 80), 240) == 1
  {
    WeightsAreFinite([0, 80, 160, 240], 80);
    var ws := [0, 80, 160, 240] + [240 + 80];
    assert IsFirstNearest(ws, 240, 1);
    GetCurrentIndexIsClampedNearest(ws, 240, 1);
  }

  /** Three siblings at 0, 80 and 160 and a host 80 wide centred at 240: the trailing weight, slot 3. */
  lemma CentreOnTrailingWeight()
    ensures GetCurrentIndex(GenerateWeights([0, 80, 160], 80), 480) == 3
  {
    WeightsAreFinite([0, 80, 160], 80);
    var ws := [0, 80, 160] + [160 + 80];
    assert IsFirstNearest(ws, 480, 3);
    GetCurrentIndexIsClampedNearest(ws, 480, 3);
  }
}
