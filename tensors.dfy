/**
 * The numeric domain of the black-box tutorial: an MNIST image, and the
 * gradient of one substitute output with respect to it, is a fixed-shape
 * tensor of 28 x 28 x 1 values. Values are integers here, so that the
 * algebra of the augmentation step can be verified exactly.
 */
module Tensors {

  /** Number of values in one 28 x 28 x 1 input. */
  const Pixels: nat := 28 * 28 * 1

  /** One input image, or one gradient shaped like an input. */
  type Tensor = s: seq<int> | |s| == Pixels witness seq(Pixels, _ => 0)

  /** An index into the label space: a class number. */
  type Label = nat

  /** Element-wise `tf.sign`: -1, 0 or +1, with the sign of `v`. */
  function Signum(v: int): (s: int)
    ensures -1 <= s <= 1
    ensures s > 0 <==> v > 0
    ensures s < 0 <==> v < 0
  {
    if v > 0 then 1 else if v < 0 then -1 else 0
  }

  /**
   * `row + lam * sign(grad)`: one synthetic point, `row` moved by the step
   * `lam` in the direction of the gradient in every value, and left alone
   * where the gradient is zero.
   */
  function Step(row: Tensor, lam: int, grad: Tensor): (r: Tensor)
    ensures forall j {:trigger r[j]} :: 0 <= j < Pixels ==>
              r[j] == row[j] - lam || r[j] == row[j] || r[j] == row[j] + lam
    ensures forall j {:trigger r[j]} :: 0 <= j < Pixels && grad[j] > 0 ==> r[j] == row[j] + lam
    ensures forall j {:trigger r[j]} :: 0 <= j < Pixels && grad[j] < 0 ==> r[j] == row[j] - lam
    ensures forall j {:trigger r[j]} :: 0 <= j < Pixels && grad[j] == 0 ==> r[j] == row[j]
  {
    seq(Pixels, j requires 0 <= j < Pixels => row[j] + Scale(lam, Signum(grad[j])))
  }

  /** `lam * s` for a sign `s`, written without a product. */
  function Scale(lam: int, s: int): int
  {
    if s == 1 then lam else if s == -1 then -lam else 0
  }

  /** `k` is the first index of the largest score: what `np.argmax` returns. */
  predicate FirstMax(scores: seq<int>, k: nat)
  {
    k < |scores|
    && (forall j :: 0 <= j < |scores| ==> scores[j] <= scores[k])
    && (forall j :: 0 <= j < k ==> scores[j] < scores[k])
  }

  /**
   * `np.argmax` over one row of scores: the index of the largest score, the
   * first one when several are equal.
   */
  function Argmax(scores: seq<int>): (k: Label)
    requires |scores| > 0
    ensures FirstMax(scores, k)
    decreases |scores|
  {
    if |scores| == 1 then 0
    else
      var k := Argmax(scores[..|scores| - 1]);
      if scores[|scores| - 1] > scores[k] then |scores| - 1 else k
  }

  /** At most one index is the first maximum, so `Argmax` is the only label a row can have. */
  lemma FirstMaxUnique(scores: seq<int>, a: nat, b: nat)
    requires FirstMax(scores, a) && FirstMax(scores, b)
    ensures a == b
  {
    assert scores[a] == scores[b];
  }
}
