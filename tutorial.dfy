/**
 * The tutorial's driver (`main`) as far as the adversary's data goes: the
 * first `holdout` test points become the seed of the substitute's set, with
 * their argmax labels, the rest stay as the test set, and the substitute is
 * trained from the seed. Loading the data, training the oracle and crafting
 * adversarial examples are collaborators outside this model.
 */
module Tutorial {
  import opened Tensors
  import opened Augmentation
  import opened SubstituteTraining

  /**
   * Where `X[:h]` ends and `X[h:]` starts for a sequence of length `len`,
   * with Python's slice rules: a negative bound counts from the end, and a
   * bound past either end is clamped.
   */
  function Cut(len: nat, h: int): (c: nat)
    ensures c <= len
    ensures 0 <= h <= len ==> c == h
    ensures h > len ==> c == len
    ensures h < 0 && 0 <= len + h ==> c == len + h
    ensures len + h < 0 ==> c == 0
  {
    if h < 0 then (if len + h < 0 then 0 else len + h)
    else if h > len then len
    else h
  }

  /** The seed of the adversary's set and what remains of the test set. */
  datatype Split = Split(xSub: seq<Tensor>, ySub: seq<Label>,
                         xRest: seq<Tensor>, yRest: seq<seq<int>>)

  /**
   * The first `holdout` test points, with the argmax of their one-hot label
   * rows as class labels, become the seed of the adversary's set; the rest
   * stay as the test set. The bound follows Python's slice rules (`Cut`).
   */
  function Holdout(xTest: seq<Tensor>, yTest: seq<seq<int>>, holdout: int): (s: Split)
    requires |xTest| == |yTest|
    requires forall i :: 0 <= i < |yTest| ==> |yTest[i]| > 0
    ensures s.xSub + s.xRest == xTest
    ensures |s.ySub| == |s.xSub| && |s.yRest| == |s.xRest|
    ensures yTest[..|s.xSub|] + s.yRest == yTest
    ensures forall i :: 0 <= i < |s.ySub| ==> s.ySub[i] == Argmax(yTest[i])
    ensures 0 <= holdout <= |xTest| ==> |s.xSub| == holdout
    ensures holdout > |xTest| ==> s.xSub == xTest && s.xRest == []
    ensures holdout < 0 && -holdout <= |xTest| ==> |s.xRest| == -holdout
    ensures holdout < -|xTest| ==> s.xSub == [] && s.xRest == xTest
  {
    var c := Cut(|xTest|, holdout);
    Split(xTest[..c], OneHotLabels(yTest[..c]), xTest[c..], yTest[c..])
  }

  function OneHotLabels(rows: seq<seq<int>>): (r: seq<Label>)
    requires forall i :: 0 <= i < |rows| ==> |rows[i]| > 0
    ensures |r| == |rows|
    ensures forall i :: 0 <= i < |rows| ==> FirstMax(rows[i], r[i])
    ensures forall i :: 0 <= i < |rows| ==> r[i] == Argmax(rows[i])
  {
    seq(|rows|, i requires 0 <= i < |rows| => Argmax(rows[i]))
  }

  /** Rows of `classes` scores (one-hot labels included) give seed labels that are classes. */
  lemma SeedLabelsAreClasses(xTest: seq<Tensor>, yTest: seq<seq<int>>, holdout: int, classes: nat)
    requires |xTest| == |yTest|
    requires classes > 0 && forall i :: 0 <= i < |yTest| ==> |yTest[i]| == classes
    ensures LabelsBelow(Holdout(xTest, yTest, holdout).ySub, classes)
  {
    var s := Holdout(xTest, yTest, holdout);
    forall i | 0 <= i < |s.ySub|
      ensures s.ySub[i] < classes
    {
      assert |yTest[i]| == classes;
    }
  }

  /**
   * After the loop the substitute's set has `holdout * 2^(R-1)` points for
   * R >= 1 rounds, and the seed itself when no round runs.
   */
  lemma FinalSetSize<S>(cfg: Config, env: Collaborators<S>, theta0: S,
                        xTest: seq<Tensor>, yTest: seq<seq<int>>)
    requires |xTest| == |yTest| && 0 <= cfg.holdout <= |xTest|
    requires forall i :: 0 <= i < |yTest| ==> |yTest[i]| > 0
    requires ScoresShaped(env.oracle, cfg.classes)
    ensures var s := Holdout(xTest, yTest, cfg.holdout);
            var fin := Rounds(cfg, env, Adversary(s.xSub, s.ySub, theta0), 0);
            |fin.x| == |fin.y|
            && |fin.x| == if cfg.substituteEpochs >= 1
                          then cfg.holdout * Pow2(cfg.substituteEpochs - 1)
                          else cfg.holdout
  {
    var s := Holdout(xTest, yTest, cfg.holdout);
    var fin := Rounds(cfg, env, Adversary(s.xSub, s.ySub, theta0), 0);
    RoundsSize(cfg, env, Adversary(s.xSub, s.ySub, theta0), 0);
    var e := Augmentations(cfg.substituteEpochs, 0);
    assert |fin.x| == cfg.holdout * Pow2(e);
    if cfg.substituteEpochs < 1 {
      assert e == 0 && Pow2(e) == 1;
    }
  }

  /**
   * The tutorial's defaults on MNIST's 10000 test points: a seed of 100,
   * six rounds, so 3200 points at the end, and 9900 test points left.
   */
  lemma DefaultRun<S>(env: Collaborators<S>, theta0: S, stepSize: int,
                      xTest: seq<Tensor>, yTest: seq<seq<int>>)
    requires |xTest| == |yTest| == 10000
    requires forall i :: 0 <= i < |yTest| ==> |yTest[i]| == 10
    requires ScoresShaped(env.oracle, 10)
    ensures var cfg := Config(100, 6, stepSize, 10);
            var s := Holdout(xTest, yTest, cfg.holdout);
            |s.xRest| == 9900
            && |Rounds(cfg, env, Adversary(s.xSub, s.ySub, theta0), 0).x| == 3200
  {
    var cfg := Config(100, 6, stepSize, 10);
    FinalSetSize(cfg, env, theta0, xTest, yTest);
    assert Pow2(5) == 32;
  }

  /**
   * `main` up to the attack: split the test set, then train the substitute
   * from the seed. The test points left over are returned for the attack.
   */
  method PrepareAdversary<S>(cfg: Config, env: Collaborators<S>, theta0: S,
                             xTest: seq<Tensor>, yTest: seq<seq<int>>)
    returns (theta: S, xSub: array<Tensor>, ySub: array<Label>, xRest: seq<Tensor>)
    requires |xTest| == |yTest|
    requires forall i :: 0 <= i < |yTest| ==> |yTest[i]| == cfg.classes
    requires ScoresShaped(env.oracle, cfg.classes)
    ensures var s := Holdout(xTest, yTest, cfg.holdout);
            xRest == s.xRest
            && Adversary(xSub[..], ySub[..], theta) == Rounds(cfg, env, Adversary(s.xSub, s.ySub, theta0), 0)
    ensures LabelsBelow(ySub[..], cfg.classes)
  {
    var s := Holdout(xTest, yTest, cfg.holdout);
    SeedLabelsAreClasses(xTest, yTest, cfg.holdout, cfg.classes);
    var x0 := new Tensor[|s.xSub|](i requires 0 <= i < |s.xSub| => s.xSub[i]);
    var y0 := new Label[|s.ySub|](i requires 0 <= i < |s.ySub| => s.ySub[i]);
    assert x0[..] == s.xSub && y0[..] == s.ySub;
    theta, xSub, ySub := TrainSubstitute(cfg, env, theta0, x0, y0);
    xRest := s.xRest;
  }
}
