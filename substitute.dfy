/**
 * The substitute-training loop (`train_substitute`): for each of the
 * configured rounds the substitute is trained on the adversary's set
 * (X_sub, Y_sub); on every round but the last the set is augmented, the
 * labels are doubled, and the second half is relabelled with the oracle's
 * labels for the second half of the augmented inputs.
 *
 * The substitute's parameters are an opaque value of type S: training maps
 * parameters and a labelled set to new parameters, and the gradient used by
 * the augmentation may depend on them. The oracle maps an input to one
 * score per class, and its label is the argmax of those scores.
 */
module SubstituteTraining {
  import opened Tensors
  import opened Augmentation

  /** The hyperparameters the loop reads: rounds (`nb_epochs_s`), step (`lmbda`), classes. */
  datatype Config = Config(holdout: int, substituteEpochs: int, stepSize: int, classes: nat)

  /** The collaborators the loop calls but whose internals are not modelled. */
  datatype Collaborators<!S> = Collaborators(
    train: (S, seq<Tensor>, seq<Label>) -> S,
    grad: (S, Tensor, Label) -> Tensor,
    oracle: Tensor -> seq<int>)

  /** The adversary's round state: inputs, labels and the substitute's parameters. */
  datatype Adversary<S> = Adversary(x: seq<Tensor>, y: seq<Label>, theta: S)

  /** The oracle gives one score per class for every input. */
  ghost predicate ScoresShaped(oracle: Tensor -> seq<int>, classes: nat)
  {
    classes > 0 && forall p: Tensor :: |oracle(p)| == classes
  }

  predicate LabelsBelow(y: seq<Label>, classes: nat)
  {
    forall i :: 0 <= i < |y| ==> y[i] < classes
  }

  /**
   * The oracle's label for every input of a batch: the first index of the
   * largest of its scores.
   */
  function OracleLabels(oracle: Tensor -> seq<int>, xs: seq<Tensor>): (r: seq<Label>)
    requires forall k :: 0 <= k < |xs| ==> |oracle(xs[k])| > 0
    ensures |r| == |xs|
    ensures forall k :: 0 <= k < |xs| ==> FirstMax(oracle(xs[k]), r[k])
    ensures forall k :: 0 <= k < |xs| ==> r[k] == Argmax(oracle(xs[k]))
  {
    seq(|xs|, k requires 0 <= k < |xs| => Argmax(oracle(xs[k])))
  }

  /**
   * The labels after an augmenting round: the n previous labels are laid
   * end to end with themselves, and then the second half is overwritten with
   * the oracle's labels for the second half of `x`, the augmented set of 2n
   * inputs. The first half keeps the previous labels and nothing of the
   * duplicated second half survives.
   */
  function Relabeled(y: seq<Label>, x: seq<Tensor>, oracle: Tensor -> seq<int>): (r: seq<Label>)
    requires |x| == 2 * |y|
    requires forall k :: |y| <= k < |x| ==> |oracle(x[k])| > 0
    ensures |r| == |x|
    ensures r[..|y|] == y
    ensures forall k :: |y| <= k < |x| ==> r[k] == Argmax(oracle(x[k]))
  {
    var n := |y|;
    var doubled := y + y;
    var queried := OracleLabels(oracle, x[n..]);
    doubled[..n] + queried + doubled[n + |queried|..]
  }

  /** Relabelling keeps every label a class. */
  lemma RelabeledInRange(y: seq<Label>, x: seq<Tensor>, oracle: Tensor -> seq<int>, classes: nat)
    requires |x| == 2 * |y| && ScoresShaped(oracle, classes)
    ensures LabelsBelow(y, classes) ==> LabelsBelow(Relabeled(y, x, oracle), classes)
  {
    if LabelsBelow(y, classes) {
      var r := Relabeled(y, x, oracle);
      forall i | 0 <= i < |r|
        ensures r[i] < classes
      {
        if i < |y| {
          assert r[i] == r[..|y|][i];
        } else {
          assert |oracle(x[i])| == classes;
        }
      }
    }
  }

  /**
   * The labelling step of one round, in place on the doubled array: the
   * method allocates the doubled labels and overwrites positions n..2n-1.
   */
  method DoubleAndRelabel(y: array<Label>, x: array<Tensor>, oracle: Tensor -> seq<int>)
    returns (y2: array<Label>)
    requires x.Length == 2 * y.Length
    requires forall k :: y.Length <= k < x.Length ==> |oracle(x[k])| > 0
    ensures y2[..] == Relabeled(y[..], x[..], oracle)
  {
    var n := y.Length;
    ghost var ys, xs := y[..], x[..];
    // the labels laid end to end with themselves
    var doubled := y[..] + y[..];
    y2 := new Label[2 * n](k requires 0 <= k < 2 * n => doubled[k]);
    assert y2[..] == RelabeledUpTo(ys, xs, oracle, n);
    var k := n;
    while k < 2 * n
      invariant n <= k <= 2 * n && y2.Length == 2 * n
      invariant y2[..] == RelabeledUpTo(ys, xs, oracle, k)
    {
      RelabeledUpToStep(ys, xs, oracle, k);
      y2[k] := Argmax(oracle(x[k]));
      k := k + 1;
    }
    RelabeledUpToEnd(ys, xs, oracle);
  }

  /** The doubled labels once positions `|y|..k-1` have been relabelled. */
  ghost function RelabeledUpTo(y: seq<Label>, x: seq<Tensor>, oracle: Tensor -> seq<int>, k: int): (r: seq<Label>)
    requires |x| == 2 * |y| && |y| <= k <= |x|
    requires forall j :: |y| <= j < |x| ==> |oracle(x[j])| > 0
    ensures |r| == |x|
  {
    seq(|x|, j requires 0 <= j < |x| =>
          if |y| <= j < k then Argmax(oracle(x[j])) else (y + y)[j])
  }

  lemma RelabeledUpToStep(y: seq<Label>, x: seq<Tensor>, oracle: Tensor -> seq<int>, k: int)
    requires |x| == 2 * |y| && |y| <= k < |x|
    requires forall j :: |y| <= j < |x| ==> |oracle(x[j])| > 0
    ensures RelabeledUpTo(y, x, oracle, k + 1)
            == RelabeledUpTo(y, x, oracle, k)[k := Argmax(oracle(x[k]))]
  {
  }

  lemma RelabeledUpToEnd(y: seq<Label>, x: seq<Tensor>, oracle: Tensor -> seq<int>)
    requires |x| == 2 * |y|
    requires forall j :: |y| <= j < |x| ==> |oracle(x[j])| > 0
    ensures RelabeledUpTo(y, x, oracle, |x|) == Relabeled(y, x, oracle)
  {
    var p, r := RelabeledUpTo(y, x, oracle, |x|), Relabeled(y, x, oracle);
    forall j | 0 <= j < |x|
      ensures p[j] == r[j]
    {
      if j < |y| {
        assert r[j] == r[..|y|][j];
      }
    }
  }

  /**
   * One pass of the loop body, round `rho`: train on the current set; unless
   * this is the last of `substituteEpochs` rounds, augment with the
   * parameters just trained and relabel the new half. The pass keeps inputs
   * and labels aligned, doubles them on augmenting rounds only, never touches
   * the labels already held, and keeps every label a class.
   */
  function Round<S>(cfg: Config, env: Collaborators<S>, st: Adversary<S>, rho: int): (r: Adversary<S>)
    requires |st.x| == |st.y| && ScoresShaped(env.oracle, cfg.classes)
    ensures r.theta == env.train(st.theta, st.x, st.y)
    ensures |r.x| == |r.y|
    ensures |r.x| == if rho < cfg.substituteEpochs - 1 then 2 * |st.x| else |st.x|
    ensures |st.y| <= |r.y| && r.y[..|st.y|] == st.y
    ensures LabelsBelow(st.y, cfg.classes) ==> LabelsBelow(r.y, cfg.classes)
  {
    var theta := env.train(st.theta, st.x, st.y);
    if rho < cfg.substituteEpochs - 1 then
      var x := Augmented(st.x, st.y, env.grad, theta, cfg.stepSize);
      RelabeledInRange(st.y, x, env.oracle, cfg.classes);
      Adversary(x, Relabeled(st.y, x, env.oracle), theta)
    else
      Adversary(st.x, st.y, theta)
  }

  /**
   * An augmenting round leaves labels and inputs out of step in the first
   * half: row 0, and every even row `2i` below n, now holds a perturbed
   * input (row 0 from the original row 0, row `2i` from row i), but it keeps
   * the label of the original row at that position.
   */
  lemma PerturbedRowsKeepOldLabels<S>(cfg: Config, env: Collaborators<S>, st: Adversary<S>, rho: int)
    requires |st.x| == |st.y| && ScoresShaped(env.oracle, cfg.classes)
    requires rho < cfg.substituteEpochs - 1 && |st.x| > 0
    ensures var theta := env.train(st.theta, st.x, st.y);
            var r := Round(cfg, env, st, rho);
            r.x[0] == Step(st.x[0], cfg.stepSize, env.grad(theta, st.x[0], st.y[0]))
            && r.y[0] == st.y[0]
    ensures var theta := env.train(st.theta, st.x, st.y);
            var r := Round(cfg, env, st, rho);
            forall i {:trigger st.x[i], st.y[i]} :: 1 <= i && 2 * i < |st.x| ==>
              r.x[2 * i] == Step(r.x[i], cfg.stepSize, env.grad(theta, st.x[i], st.y[i]))
              && r.y[2 * i] == st.y[2 * i]
  {
    var r := Round(cfg, env, st, rho);
    assert r.y[0] == r.y[..|st.y|][0];
    forall i {:trigger st.x[i], st.y[i]} | 1 <= i && 2 * i < |st.x|
      ensures r.y[2 * i] == st.y[2 * i]
    {
      assert r.y[2 * i] == r.y[..|st.y|][2 * i];
    }
  }

  /** The loop from round `rho` on, as a function: one `Round` per round until none is left. */
  ghost function Rounds<S>(cfg: Config, env: Collaborators<S>, st: Adversary<S>, rho: int): Adversary<S>
    requires |st.x| == |st.y| && ScoresShaped(env.oracle, cfg.classes)
    decreases cfg.substituteEpochs - rho
  {
    if rho >= cfg.substituteEpochs then st
    else Rounds(cfg, env, Round(cfg, env, st, rho), rho + 1)
  }

  /** How many of the rounds from `rho` on augment the set. */
  function Augmentations(rounds: int, rho: int): nat
  {
    if rho < rounds then rounds - 1 - rho else 0
  }

  function Pow2(e: nat): (r: nat)
    ensures r >= 1
  {
    if e == 0 then 1 else 2 * Pow2(e - 1)
  }

  lemma DoubleTimesPow2(m: nat, e: nat)
    ensures (2 * m) * Pow2(e) == m * Pow2(e + 1)
  {
    assert Pow2(e + 1) == 2 * Pow2(e);
  }

  /** Inputs and labels stay aligned, and the set doubles once per augmenting round. */
  lemma {:induction false} RoundsSize<S>(cfg: Config, env: Collaborators<S>, st: Adversary<S>, rho: int)
    requires |st.x| == |st.y| && ScoresShaped(env.oracle, cfg.classes)
    ensures var fin := Rounds(cfg, env, st, rho);
            |fin.x| == |fin.y| == |st.x| * Pow2(Augmentations(cfg.substituteEpochs, rho))
    decreases cfg.substituteEpochs - rho
  {
    if rho < cfg.substituteEpochs {
      var next := Round(cfg, env, st, rho);
      RoundsSize(cfg, env, next, rho + 1);
      if rho < cfg.substituteEpochs - 1 {
        var e := Augmentations(cfg.substituteEpochs, rho + 1);
        assert Augmentations(cfg.substituteEpochs, rho) == e + 1;
        DoubleTimesPow2(|st.x|, e);
      }
    }
  }

  /**
   * Every label the loop ever holds is a class: seed labels by assumption,
   * oracle labels because they are argmax indices over `classes` scores. So
   * the per-class gradient `grads[Y_sub[ind]]` always exists.
   */
  lemma {:induction false} RoundsLabelsInRange<S>(cfg: Config, env: Collaborators<S>, st: Adversary<S>, rho: int)
    requires |st.x| == |st.y| && ScoresShaped(env.oracle, cfg.classes)
    requires LabelsBelow(st.y, cfg.classes)
    ensures LabelsBelow(Rounds(cfg, env, st, rho).y, cfg.classes)
    decreases cfg.substituteEpochs - rho
  {
    if rho < cfg.substituteEpochs {
      RoundsLabelsInRange(cfg, env, Round(cfg, env, st, rho), rho + 1);
    }
  }

  /** Labels once assigned are never overwritten: the seed labels stay a prefix. */
  lemma {:induction false} RoundsKeepLabels<S>(cfg: Config, env: Collaborators<S>, st: Adversary<S>, rho: int)
    requires |st.x| == |st.y| && ScoresShaped(env.oracle, cfg.classes)
    ensures var fin := Rounds(cfg, env, st, rho);
            |st.y| <= |fin.y| && fin.y[..|st.y|] == st.y
    decreases cfg.substituteEpochs - rho
  {
    if rho < cfg.substituteEpochs {
      var next := Round(cfg, env, st, rho);
      RoundsKeepLabels(cfg, env, next, rho + 1);
      var fin := Rounds(cfg, env, next, rho + 1);
      assert fin.y[..|st.y|] == fin.y[..|next.y|][..|st.y|];
    }
  }

  /**
   * Training happens on every round, augmenting rounds included: with a
   * training step that only counts its calls, the count after the loop is
   * the number of rounds.
   */
  lemma {:induction false} RoundsTrainEveryRound(cfg: Config, env: Collaborators<int>, st: Adversary<int>, rho: int)
    requires |st.x| == |st.y| && ScoresShaped(env.oracle, cfg.classes)
    requires forall t, xs, ys :: env.train(t, xs, ys) == t + 1
    ensures Rounds(cfg, env, st, rho).theta
            == st.theta + (if rho < cfg.substituteEpochs then cfg.substituteEpochs - rho else 0)
    decreases cfg.substituteEpochs - rho
  {
    if rho < cfg.substituteEpochs {
      RoundsTrainEveryRound(cfg, env, Round(cfg, env, st, rho), rho + 1);
    }
  }

  /**
   * The body of `train_substitute`'s loop, round `rho`, over arrays. The
   * arrays passed in are not modified: an augmenting round allocates new
   * ones, which the caller rebinds `X_sub` and `Y_sub` to.
   */
  method TrainingRound<S>(cfg: Config, env: Collaborators<S>, rho: int,
                          theta: S, x: array<Tensor>, y: array<Label>)
    returns (theta2: S, x2: array<Tensor>, y2: array<Label>)
    requires x.Length == y.Length
    requires LabelsBelow(y[..], cfg.classes)
    requires ScoresShaped(env.oracle, cfg.classes)
    ensures Adversary(x2[..], y2[..], theta2) == Round(cfg, env, Adversary(x[..], y[..], theta), rho)
    ensures x2.Length == y2.Length && LabelsBelow(y2[..], cfg.classes)
  {
    theta2, x2, y2 := env.train(theta, x[..], y[..]), x, y;
    if rho < cfg.substituteEpochs - 1 {
      x2 := JacobianAugmentation(x, y, env.grad, theta2, cfg.stepSize, cfg.classes);
      y2 := DoubleAndRelabel(y, x2, env.oracle);
    }
  }

  /**
   * `train_substitute`: `X_sub` and `Y_sub` are rebound to new arrays every
   * augmenting round; nothing the caller passed in is modified.
   */
  method TrainSubstitute<S>(cfg: Config, env: Collaborators<S>, theta0: S,
                            x0: array<Tensor>, y0: array<Label>)
    returns (theta: S, x: array<Tensor>, y: array<Label>)
    requires x0.Length == y0.Length
    requires LabelsBelow(y0[..], cfg.classes)
    requires ScoresShaped(env.oracle, cfg.classes)
    ensures Adversary(x[..], y[..], theta) == Rounds(cfg, env, Adversary(x0[..], y0[..], theta0), 0)
    ensures x.Length == y.Length == x0.Length * Pow2(Augmentations(cfg.substituteEpochs, 0))
    ensures LabelsBelow(y[..], cfg.classes)
  {
    ghost var start := Adversary(x0[..], y0[..], theta0);
    x, y, theta := x0, y0, theta0;
    var rho := 0;
    while rho < cfg.substituteEpochs
      invariant 0 <= rho && (rho == 0 || rho <= cfg.substituteEpochs)
      invariant x.Length == y.Length
      invariant LabelsBelow(y[..], cfg.classes)
      invariant Rounds(cfg, env, Adversary(x[..], y[..], theta), rho) == Rounds(cfg, env, start, 0)
      decreases cfg.substituteEpochs - rho
    {
      theta, x, y := TrainingRound(cfg, env, rho, theta, x, y);
      rho := rho + 1;
    }
    RoundsSize(cfg, env, start, 0);
  }
}
