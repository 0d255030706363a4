/**
 * Jacobian-based dataset augmentation (`jacobian_augmentation`): the set of
 * n inputs is stacked on itself, and for every original index i row 2*i is
 * overwritten with row i of the array being built, moved by the step size
 * along the sign of the substitute's gradient for the label of input i.
 *
 * Because the base value is read from the array being written, the layout
 * is not "originals, then one perturbed copy of each": row 0 is read and
 * written in the same step, row 2*i (i >= 1) builds on the final value of
 * row i, perturbations accumulate along chains i, 2i, 4i, ..., and odd
 * rows keep the stacked copy `prev[k mod n]`.
 */
module Augmentation {
  import opened Tensors

  /** Vertical stacking of the set on itself: the rows of `s`, then the rows of `s` again. */
  function Stack(s: seq<Tensor>): (r: seq<Tensor>)
    ensures |r| == 2 * |s|
    ensures forall k :: 0 <= k < |r| ==> r[k] == if k < |s| then s[k] else s[k - |s|]
  {
    s + s
  }

  /**
   * The value row `k` of the stacked array holds once the loop has finished.
   * The sign of row i's step is the gradient of class `labels[i]` of the
   * substitute with parameters `theta`, evaluated at the ORIGINAL input
   * `prev[i]`.
   */
  function AugmentedRow<S>(prev: seq<Tensor>, labels: seq<Label>,
                           grad: (S, Tensor, Label) -> Tensor, theta: S,
                           lam: int, k: nat): Tensor
    requires |labels| == |prev| && k < 2 * |prev|
    decreases k
  {
    if k % 2 == 1 then Stack(prev)[k]
    else
      var i := k / 2;
      var base := if i == 0 then prev[0] else AugmentedRow(prev, labels, grad, theta, lam, i);
      Step(base, lam, grad(theta, prev[i], labels[i]))
  }

  /**
   * The whole result of the augmentation. Its contract characterises it
   * (see AugmentedUnique): twice as many rows, odd rows are stacked copies,
   * row 0 is one step from `prev[0]`, and row 2*i is one step from the final
   * row i.
   */
  function Augmented<S>(prev: seq<Tensor>, labels: seq<Label>,
                        grad: (S, Tensor, Label) -> Tensor, theta: S,
                        lam: int): (r: seq<Tensor>)
    requires |labels| == |prev|
    ensures |r| == 2 * |prev|
    ensures forall k :: 0 <= k < |r| && k % 2 == 1 ==> r[k] == Stack(prev)[k]
    ensures |prev| > 0 ==> r[0] == Step(prev[0], lam, grad(theta, prev[0], labels[0]))
    ensures forall i {:trigger prev[i], labels[i]} :: 1 <= i < |prev| ==>
              r[2 * i] == Step(r[i], lam, grad(theta, prev[i], labels[i]))
  {
    RowChains(prev, labels, grad, theta, lam);
    seq(2 * |prev|, k requires 0 <= k < 2 * |prev| =>
          AugmentedRow(prev, labels, grad, theta, lam, k))
  }

  lemma RowChains<S>(prev: seq<Tensor>, labels: seq<Label>,
                     grad: (S, Tensor, Label) -> Tensor, theta: S, lam: int)
    requires |labels| == |prev|
    ensures forall i {:trigger prev[i], labels[i]} :: 1 <= i < |prev| ==>
              AugmentedRow(prev, labels, grad, theta, lam, 2 * i)
              == Step(AugmentedRow(prev, labels, grad, theta, lam, i), lam, grad(theta, prev[i], labels[i]))
  {
    forall i | 1 <= i < |prev|
      ensures AugmentedRow(prev, labels, grad, theta, lam, 2 * i)
              == Step(AugmentedRow(prev, labels, grad, theta, lam, i), lam, grad(theta, prev[i], labels[i]))
    {
      assert (2 * i) / 2 == i && (2 * i) % 2 == 0;
    }
  }

  /** Any sequence with the three properties of Augmented's contract is it. */
  lemma {:induction false} AugmentedUnique<S>(prev: seq<Tensor>, labels: seq<Label>,
                                              grad: (S, Tensor, Label) -> Tensor, theta: S,
                                              lam: int, r: seq<Tensor>)
    requires |labels| == |prev| && |r| == 2 * |prev|
    requires forall k :: 0 <= k < |r| && k % 2 == 1 ==> r[k] == Stack(prev)[k]
    requires |prev| > 0 ==> r[0] == Step(prev[0], lam, grad(theta, prev[0], labels[0]))
    requires forall i {:trigger prev[i], labels[i]} :: 1 <= i < |prev| ==>
               r[2 * i] == Step(r[i], lam, grad(theta, prev[i], labels[i]))
    ensures r == Augmented(prev, labels, grad, theta, lam)
  {
    forall k | 0 <= k < |r|
      ensures r[k] == AugmentedRow(prev, labels, grad, theta, lam, k)
    {
      RowDetermined(prev, labels, grad, theta, lam, r, k);
    }
  }

  lemma {:induction false} RowDetermined<S>(prev: seq<Tensor>, labels: seq<Label>,
                                            grad: (S, Tensor, Label) -> Tensor, theta: S,
                                            lam: int, r: seq<Tensor>, k: nat)
    requires |labels| == |prev| && |r| == 2 * |prev| && k < |r|
    requires forall k :: 0 <= k < |r| && k % 2 == 1 ==> r[k] == Stack(prev)[k]
    requires |prev| > 0 ==> r[0] == Step(prev[0], lam, grad(theta, prev[0], labels[0]))
    requires forall i {:trigger prev[i], labels[i]} :: 1 <= i < |prev| ==>
               r[2 * i] == Step(r[i], lam, grad(theta, prev[i], labels[i]))
    ensures r[k] == AugmentedRow(prev, labels, grad, theta, lam, k)
    decreases k
  {
    if k % 2 == 0 && k > 0 {
      var i := k / 2;
      assert 1 <= i < |prev| && k == 2 * i;
      RowDetermined(prev, labels, grad, theta, lam, r, i);
    }
  }

  /**
   * `jacobian_augmentation`: allocate the stacked copy and overwrite rows
   * `2*ind` in place, in index order. The method has no `modifies` clause,
   * so `prev` and `labels` are left as they were. Label `labels[ind]`
   * selects one of the `classes` per-class gradients, so it must be a class.
   */
  method JacobianAugmentation<S>(prev: array<Tensor>, labels: array<Label>,
                                 grad: (S, Tensor, Label) -> Tensor, theta: S,
                                 lam: int, classes: nat)
    returns (x: array<Tensor>)
    requires labels.Length == prev.Length
    requires forall i :: 0 <= i < labels.Length ==> labels[i] < classes
    ensures x[..] == Augmented(prev[..], labels[..], grad, theta, lam)
  {
    var n := prev.Length;
    ghost var orig, labs := prev[..], labels[..];
    // the set stacked on itself
    var stacked := Stack(prev[..]);
    x := new Tensor[2 * n](k requires 0 <= k < 2 * n => stacked[k]);
    PartialStart(orig, labs, grad, theta, lam);
    var ind := 0;
    while ind < n
      invariant 0 <= ind <= n && x.Length == 2 * n
      invariant x[..] == Partial(orig, labs, grad, theta, lam, ind)
    {
      // the sign is taken at the original input, the base is read from x
      var g := grad(theta, prev[ind], labels[ind]);
      PartialStep(orig, labs, grad, theta, lam, ind);
      x[2 * ind] := Step(x[ind], lam, g);
      ind := ind + 1;
    }
    PartialEnd(orig, labs, grad, theta, lam);
  }

  /** The stacked array after the first `t` passes of the loop. */
  ghost function Partial<S>(prev: seq<Tensor>, labels: seq<Label>,
                            grad: (S, Tensor, Label) -> Tensor, theta: S,
                            lam: int, t: nat): (r: seq<Tensor>)
    requires |labels| == |prev| && t <= |prev|
    ensures |r| == 2 * |prev|
  {
    seq(2 * |prev|, k requires 0 <= k < 2 * |prev| =>
          if k % 2 == 0 && k / 2 < t then AugmentedRow(prev, labels, grad, theta, lam, k)
          else Stack(prev)[k])
  }

  lemma PartialStart<S>(prev: seq<Tensor>, labels: seq<Label>,
                        grad: (S, Tensor, Label) -> Tensor, theta: S, lam: int)
    requires |labels| == |prev|
    ensures Partial(prev, labels, grad, theta, lam, 0) == Stack(prev)
  {
  }

  lemma PartialEnd<S>(prev: seq<Tensor>, labels: seq<Label>,
                      grad: (S, Tensor, Label) -> Tensor, theta: S, lam: int)
    requires |labels| == |prev|
    ensures Partial(prev, labels, grad, theta, lam, |prev|) == Augmented(prev, labels, grad, theta, lam)
  {
    var p, r := Partial(prev, labels, grad, theta, lam, |prev|), Augmented(prev, labels, grad, theta, lam);
    forall k | 0 <= k < 2 * |prev|
      ensures p[k] == r[k]
    {
      if k % 2 == 0 {
        assert k / 2 < |prev|;
      }
    }
  }

  lemma PartialStep<S>(prev: seq<Tensor>, labels: seq<Label>,
                       grad: (S, Tensor, Label) -> Tensor, theta: S, lam: int, t: nat)
    requires |labels| == |prev| && t < |prev|
    ensures var p := Partial(prev, labels, grad, theta, lam, t);
            Partial(prev, labels, grad, theta, lam, t + 1)
            == p[2 * t := Step(p[t], lam, grad(theta, prev[t], labels[t]))]
  {
    var p := Partial(prev, labels, grad, theta, lam, t);
    var q := Partial(prev, labels, grad, theta, lam, t + 1);
    assert (2 * t) / 2 == t && (2 * t) % 2 == 0;
    assert p[t] == if t == 0 then prev[0] else AugmentedRow(prev, labels, grad, theta, lam, t);
    forall k | 0 <= k < 2 * |prev| && k != 2 * t
      ensures q[k] == p[k]
    {
      if k % 2 == 0 {
        assert k / 2 != t;
      }
    }
  }

  /**
   * The most the steps written into row k can move one value, when each
   * step moves it by at most `a`: odd rows are never written, row 0 is
   * written once, and row 2i is written once on top of row i.
   */
  function Budget(k: nat, a: nat): nat
    decreases k
  {
    if k % 2 == 1 then 0 else if k == 0 then a else a + Budget(k / 2, a)
  }

  /** The stacked row that row k grew from: follow k, k/2, k/4, ... to an odd row or 0. */
  function Root(k: nat): nat
    decreases k
  {
    if k % 2 == 1 then k else if k == 0 then 0 else Root(k / 2)
  }

  function Abs(v: int): nat { if v < 0 then -v else v }

  /**
   * Perturbations accumulate along the chain k, k/2, k/4, ...: every value
   * of row k is within `Budget(k, |lam|)` of the same value of the stacked
   * row it started from, `Stack(prev)[Root(k)]`.
   */
  lemma Drift<S>(prev: seq<Tensor>, labels: seq<Label>,
                  grad: (S, Tensor, Label) -> Tensor, theta: S,
                  lam: int, k: nat, p: nat)
    requires |labels| == |prev| && k < 2 * |prev| && p < Pixels
    ensures Root(k) < 2 * |prev|
    ensures Abs(Augmented(prev, labels, grad, theta, lam)[k][p] - Stack(prev)[Root(k)][p])
            <= Budget(k, Abs(lam))
  {
    RowDrift(prev, labels, grad, theta, lam, k, p);
  }

  /** Drift, stated on the rows one at a time and proved along the chain. */
  lemma {:induction false} RowDrift<S>(prev: seq<Tensor>, labels: seq<Label>,
                                       grad: (S, Tensor, Label) -> Tensor, theta: S,
                                       lam: int, k: nat, p: nat)
    requires |labels| == |prev| && k < 2 * |prev| && p < Pixels
    ensures Root(k) < 2 * |prev|
    ensures Abs(AugmentedRow(prev, labels, grad, theta, lam, k)[p] - Stack(prev)[Root(k)][p])
            <= Budget(k, Abs(lam))
    decreases k
  {
    if k % 2 == 0 {
      var i := k / 2;
      var g := grad(theta, prev[i], labels[i]);
      if k == 0 {
        OneMoreStep(prev[0][p], prev[0][p], Step(prev[0], lam, g)[p], lam, 0);
      } else {
        RowDrift(prev, labels, grad, theta, lam, i, p);
        EvenLinks(k, Abs(lam));
        var base := AugmentedRow(prev, labels, grad, theta, lam, i);
        OneMoreStep(Stack(prev)[Root(i)][p], base[p], Step(base, lam, g)[p], lam, Budget(i, Abs(lam)));
      }
    }
  }

  /** Row `k = 2i` is written from row `i`, and shares its root. */
  lemma EvenLinks(k: nat, a: nat)
    requires k % 2 == 0 && k > 0
    ensures 1 <= k / 2 < k && k == 2 * (k / 2)
    ensures Root(k) == Root(k / 2) && Budget(k, a) == a + Budget(k / 2, a)
  {
  }

  /** A value within `bound` of `origin`, moved by at most `|lam|`, is within `|lam| + bound`. */
  lemma OneMoreStep(origin: int, before: int, after: int, lam: int, bound: nat)
    requires Abs(before - origin) <= bound
    requires after == before - lam || after == before || after == before + lam
    ensures Abs(after - origin) <= Abs(lam) + bound
  {
  }

  /** Row 4 is two steps from the original row 1: it reaches row 1 through row 2. */
  lemma RowFourIsTwoSteps<S>(prev: seq<Tensor>, labels: seq<Label>,
                             grad: (S, Tensor, Label) -> Tensor, theta: S, lam: int)
    requires |labels| == |prev| && |prev| >= 3
    ensures Augmented(prev, labels, grad, theta, lam)[4]
            == Step(Step(prev[1], lam, grad(theta, prev[1], labels[1])),
                    lam, grad(theta, prev[2], labels[2]))
  {
    var r := Augmented(prev, labels, grad, theta, lam);
    assert r[1] == prev[1];
    assert r[2] == Step(r[1], lam, grad(theta, prev[1], labels[1]));
  }

  /**
   * Row 4 need not be one step from any original: with all-zero originals,
   * a gradient positive everywhere and step 1, its first value is 2, so it
   * is two steps away from every original row.
   */
  lemma RowFourNotOneStep(prev: seq<Tensor>, labels: seq<Label>,
                          grad: (int, Tensor, Label) -> Tensor, theta: int)
    requires |labels| == |prev| == 3
    requires forall i, p :: 0 <= i < 3 && 0 <= p < Pixels ==> prev[i][p] == 0
    requires forall t, x, c, p :: 0 <= p < Pixels ==> grad(t, x, c)[p] > 0
    ensures forall i :: 0 <= i < 3 ==> Augmented(prev, labels, grad, theta, 1)[4][0] - prev[i][0] == 2
  {
    RowFourIsTwoSteps(prev, labels, grad, theta, 1);
    var g1, g2 := grad(theta, prev[1], labels[1]), grad(theta, prev[2], labels[2]);
    assert g1[0] > 0 && g2[0] > 0;
    assert Step(prev[1], 1, g1)[0] == 1;
  }
}
