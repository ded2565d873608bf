/** `AnimatableVector`, a vector of doubles SwiftUI can interpolate, and the tuples that
    animate three or four such values together. Addition and subtraction work on the common
    prefix of the two operands only: the left operand keeps its length, and its entries past
    the right operand's end are left as they were. */
module AnimatableVectors {

  /** `AnimatableVector.zero`: a single zero, not an empty vector. */
  const Zero: seq<real> := [0.0]

  /** `+`: the left operand with the right one added entry by entry on their common prefix. */
  function Plus(a: seq<real>, b: seq<real>): (r: seq<real>)
    ensures |r| == |a|
    ensures forall i :: 0 <= i < |a| && i < |b| ==> r[i] == a[i] + b[i]
    ensures forall i :: |b| <= i < |a| ==> r[i] == a[i]
  {
    seq(|a|, i requires 0 <= i < |a| => if i < |b| then a[i] + b[i] else a[i])
  }

  /** `-`: the left operand with the right one subtracted on their common prefix. */
  function Minus(a: seq<real>, b: seq<real>): (r: seq<real>)
    ensures |r| == |a|
    ensures forall i :: 0 <= i < |a| && i < |b| ==> r[i] == a[i] - b[i]
    ensures forall i :: |b| <= i < |a| ==> r[i] == a[i]
  {
    seq(|a|, i requires 0 <= i < |a| => if i < |b| then a[i] - b[i] else a[i])
  }

  /** `scale(by:)`: every entry multiplied by `k`. */
  function Scaled(a: seq<real>, k: real): (r: seq<real>)
    ensures |r| == |a|
    ensures forall i :: 0 <= i < |a| ==> r[i] == k * a[i]
  {
    seq(|a|, i requires 0 <= i < |a| => k * a[i])
  }

  /** `magnitudeSquared`: the sum of the squares of the entries, never negative. */
  function MagnitudeSquared(a: seq<real>): (m: real)
    ensures m >= 0.0
  {
    if |a| == 0 then 0.0
    else
      var last := a[|a| - 1];
      SquareNonNegative(last);
      MagnitudeSquared(a[..|a| - 1]) + last * last
  }

  lemma SquareNonNegative(x: real)
    ensures x * x >= 0.0
  {
    if x < 0.0 {
      assert x * x == (-x) * (-x);
    }
  }

  /** Subtracting what was added gives the left operand back, whatever the two lengths. */
  lemma MinusUndoesPlus(a: seq<real>, b: seq<real>)
    ensures Minus(Plus(a, b), b) == a
  {
    var r := Minus(Plus(a, b), b);
    assert forall i :: 0 <= i < |a| ==> r[i] == a[i];
  }

  /** Adding `zero` changes nothing, but `zero + v` keeps only `zero`'s single entry, so
      `zero` is no left identity for longer vectors. */
  lemma ZeroSums(v: seq<real>)
    ensures Plus(v, Zero) == v
    ensures Plus(Zero, v) == [if |v| > 0 then v[0] else 0.0]
    ensures |Plus(Zero, v)| == 1
  {
    assert forall i :: 0 <= i < |v| ==> Plus(v, Zero)[i] == v[i];
  }

  /** The squared magnitude of a concatenation is the sum of the parts' magnitudes. */
  lemma {:induction false} MagnitudeConcat(a: seq<real>, b: seq<real>)
    ensures MagnitudeSquared(a + b) == MagnitudeSquared(a) + MagnitudeSquared(b)
    decreases |b|
  {
    if |b| == 0 {
      assert a + b == a;
    } else {
      var init := b[..|b| - 1];
      MagnitudeConcat(a, init);
      assert (a + b)[..|a + b| - 1] == a + init;
    }
  }

  lemma MulAssoc(k: real, j: real, x: real)
    ensures k * (j * x) == (k * j) * x
  {
  }

  lemma MulDistrib(k: real, x: real, y: real)
    ensures k * (x + y) == k * x + k * y
  {
  }

  /** Scaling by one changes nothing, scaling twice is scaling by the product, and scaling
      distributes over `+`. */
  lemma ScaleLaws(a: seq<real>, b: seq<real>, j: real, k: real)
    ensures Scaled(a, 1.0) == a
    ensures Scaled(Scaled(a, j), k) == Scaled(a, k * j)
    ensures Scaled(Plus(a, b), k) == Plus(Scaled(a, k), Scaled(b, k))
  {
    assert forall i :: 0 <= i < |a| ==> Scaled(a, 1.0)[i] == a[i];
    forall i | 0 <= i < |a|
      ensures Scaled(Scaled(a, j), k)[i] == Scaled(a, k * j)[i]
    {
      MulAssoc(k, j, a[i]);
    }
    forall i | 0 <= i < |a|
      ensures Scaled(Plus(a, b), k)[i] == Plus(Scaled(a, k), Scaled(b, k))[i]
    {
      if i < |b| {
        MulDistrib(k, a[i], b[i]);
      }
    }
  }

  /** `AnimatableVector`, whose `values` the compound assignments update in place. */
  class AnimatableVector {
    var values: array<real>

    /** `init(values:)`. */
    constructor(values: seq<real>)
      ensures this.values[..] == values && fresh(this.values)
    {
      this.values := new real[|values|](i requires 0 <= i < |values| => values[i]);
    }

    /** `+=`: adds `rhs` entry by entry over the common prefix, in place. */
    method AddAssign(rhs: seq<real>)
      modifies values
      ensures values[..] == Plus(old(values[..]), rhs)
    {
      var count := if values.Length < |rhs| then values.Length else |rhs|;
      for i := 0 to count
        invariant forall j :: 0 <= j < i ==> values[j] == old(values[j]) + rhs[j]
        invariant forall j :: i <= j < values.Length ==> values[j] == old(values[j])
      {
        values[i] := values[i] + rhs[i];
      }
      assert forall j :: 0 <= j < values.Length ==> values[..][j] == Plus(old(values[..]), rhs)[j];
    }

    /** `-=`: subtracts `rhs` entry by entry over the common prefix, in place. */
    method SubAssign(rhs: seq<real>)
      modifies values
      ensures values[..] == Minus(old(values[..]), rhs)
    {
      var count := if values.Length < |rhs| then values.Length else |rhs|;
      for i := 0 to count
        invariant forall j :: 0 <= j < i ==> values[j] == old(values[j]) - rhs[j]
        invariant forall j :: i <= j < values.Length ==> values[j] == old(values[j])
      {
        values[i] := values[i] - rhs[i];
      }
      assert forall j :: 0 <= j < values.Length ==> values[..][j] == Minus(old(values[..]), rhs)[j];
    }

    /** `scale(by:)`: multiplies every entry by `k`. */
    method Scale(k: real)
      modifies values
      ensures values[..] == Scaled(old(values[..]), k)
    {
      for i := 0 to values.Length
        invariant forall j :: 0 <= j < i ==> values[j] == k * old(values[j])
        invariant forall j :: i <= j < values.Length ==> values[j] == old(values[j])
      {
        values[i] := k * values[i];
      }
      assert forall j :: 0 <= j < values.Length ==> values[..][j] == Scaled(old(values[..]), k)[j];
    }
  }

  // ----- AnimatableTuple3 and AnimatableTuple4, over vector components -----

  datatype Tuple3 = Tuple3(first: seq<real>, second: seq<real>, third: seq<real>)

  datatype Tuple4 = Tuple4(first: seq<real>, second: seq<real>, third: seq<real>, fourth: seq<real>)

  /** `AnimatableTuple3.zero`: every component is its type's zero. */
  const Zero3: Tuple3 := Tuple3(Zero, Zero, Zero)

  const Zero4: Tuple4 := Tuple4(Zero, Zero, Zero, Zero)

  function Plus3(a: Tuple3, b: Tuple3): (r: Tuple3)
  {
    Tuple3(Plus(a.first, b.first), Plus(a.second, b.second), Plus(a.third, b.third))
  }

  function Minus3(a: Tuple3, b: Tuple3): (r: Tuple3)
  {
    Tuple3(Minus(a.first, b.first), Minus(a.second, b.second), Minus(a.third, b.third))
  }

  function Scaled3(a: Tuple3, k: real): (r: Tuple3)
  {
    Tuple3(Scaled(a.first, k), Scaled(a.second, k), Scaled(a.third, k))
  }

  /** `AnimatableTuple3.magnitudeSquared`: the components' magnitudes added up. */
  function MagnitudeSquared3(a: Tuple3): (m: real)
    ensures m >= 0.0
  {
    MagnitudeSquared(a.first) + MagnitudeSquared(a.second) + MagnitudeSquared(a.third)
  }

  function Plus4(a: Tuple4, b: Tuple4): (r: Tuple4)
  {
    Tuple4(Plus(a.first, b.first), Plus(a.second, b.second), Plus(a.third, b.third), Plus(a.fourth, b.fourth))
  }

  function Minus4(a: Tuple4, b: Tuple4): (r: Tuple4)
  {
    Tuple4(Minus(a.first, b.first), Minus(a.second, b.second), Minus(a.third, b.third), Minus(a.fourth, b.fourth))
  }

  function Scaled4(a: Tuple4, k: real): (r: Tuple4)
  {
    Tuple4(Scaled(a.first, k), Scaled(a.second, k), Scaled(a.third, k), Scaled(a.fourth, k))
  }

  /** `AnimatableTuple4.magnitudeSquared`. */
  function MagnitudeSquared4(a: Tuple4): (m: real)
    ensures m >= 0.0
  {
    MagnitudeSquared(a.first) + MagnitudeSquared(a.second) + MagnitudeSquared(a.third)
    + MagnitudeSquared(a.fourth)
  }

  /** The tuple operations inherit the vector laws component by component: subtraction
      undoes addition and adding `zero` changes nothing. */
  lemma Tuple3Inverse(a: Tuple3, b: Tuple3)
    ensures Minus3(Plus3(a, b), b) == a
    ensures Plus3(a, Zero3) == a
  {
    MinusUndoesPlus(a.first, b.first);
    MinusUndoesPlus(a.second, b.second);
    MinusUndoesPlus(a.third, b.third);
    ZeroSums(a.first);
    ZeroSums(a.second);
    ZeroSums(a.third);
  }

  /** Scaling a tuple by one changes nothing and scaling distributes over `+`. */
  lemma Tuple3Scale(a: Tuple3, b: Tuple3, k: real)
    ensures Scaled3(a, 1.0) == a
    ensures Scaled3(Plus3(a, b), k) == Plus3(Scaled3(a, k), Scaled3(b, k))
    ensures MagnitudeSquared3(Zero3) == 0.0
  {
    ScaleLaws(a.first, b.first, 1.0, k);
    ScaleLaws(a.second, b.second, 1.0, k);
    ScaleLaws(a.third, b.third, 1.0, k);
  }

  lemma Tuple4Inverse(a: Tuple4, b: Tuple4)
    ensures Minus4(Plus4(a, b), b) == a
    ensures Plus4(a, Zero4) == a
  {
    MinusUndoesPlus(a.first, b.first);
    MinusUndoesPlus(a.second, b.second);
    MinusUndoesPlus(a.third, b.third);
    MinusUndoesPlus(a.fourth, b.fourth);
    ZeroSums(a.first);
    ZeroSums(a.second);
    ZeroSums(a.third);
    ZeroSums(a.fourth);
  }

  lemma Tuple4Scale(a: Tuple4, b: Tuple4, k: real)
    ensures Scaled4(a, 1.0) == a
    ensures Scaled4(Plus4(a, b), k) == Plus4(Scaled4(a, k), Scaled4(b, k))
    ensures MagnitudeSquared4(Zero4) == 0.0
  {
    ScaleLaws(a.first, b.first, 1.0, k);
    ScaleLaws(a.second, b.second, 1.0, k);
    ScaleLaws(a.third, b.third, 1.0, k);
    ScaleLaws(a.fourth, b.fourth, 1.0, k);
  }
}
