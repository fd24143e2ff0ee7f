/** The linear perceptron of Perceptron.java: one weight vector, trained by
    the mistake-driven rule, epoch after epoch, until an epoch makes no
    update or the epoch budget runs out. */
module Perceptrons {
  import opened Outcomes
  import opened Vectors
  import opened DataSets

  /** The learning rate, epoch budget and decision threshold the class fixes. */
  const Eta: real := 0.9
  const MaxEpochs: nat := 50000
  const Threshold: real := 0.0

  // ---------------------------------------------------------------------
  // Specification: one example, one epoch, a whole training run
  // ---------------------------------------------------------------------

  /** The dot product of an example with the weights, over the example's length. */
  function Score(w: Vec, x: Vec): (r: real)
    requires |x| <= |w|
    ensures r == Dot(x, w[..|x|], |x|)
    ensures (forall j :: 0 <= j < |x| ==> w[j] == 0.0) ==> r == 0.0
  {
    DotPrefix(x, w, w[..|x|], |x|);
    DotZeroRight(x, w, |x|);
    Dot(x, w, |x|)
  }

  /** `dotProduct * label <= 0`: the example is on the wrong side of the
      boundary, or on it, and triggers an update. */
  predicate Mistake(w: Vec, x: Vec, y: real): (b: bool)
    requires |x| <= |w|
    ensures (y == 1.0 || y == -1.0) ==> (b <==> Predict(w, x) != y || Score(w, x) == 0.0)
  {
    var s := Score(w, x);
    assert y == -1.0 ==> s * y == -s;
    s * y <= 0.0
  }

  /** The update for a mistake: weight j < |x| moves by eta * x[j] * y; the
      weights past the example's length stay as they are. */
  function Update(w: Vec, x: Vec, y: real, eta: real): (r: Vec)
    requires |x| <= |w|
    ensures |r| == |w|
    ensures forall j :: |x| <= j < |w| ==> r[j] == w[j]
  {
    seq(|w|, j requires 0 <= j < |w| => if j < |x| then Adjust(w[j], eta, x[j], y) else w[j])
  }

  /** The label `classify` gives: +1 when the score is above the threshold, -1 otherwise. */
  function Predict(w: Vec, x: Vec): (r: real)
    requires |x| <= |w|
    ensures r == 1.0 || r == -1.0
    ensures r == 1.0 <==> Score(w, x) > 0.0
  {
    if Score(w, x) > Threshold then 1.0 else -1.0
  }

  /** Every example from index i on fits the weights, has a label, and is
      strictly on the side of its label. */
  ghost predicate Separates(w: Vec, xs: seq<Vec>, ys: seq<real>, i: nat) {
    forall k :: i <= k < |xs| ==> k < |ys| && |xs[k]| <= |w| && Score(w, xs[k]) * ys[k] > 0.0
  }

  /** The state the epoch loop leaves: the weights and whether any example
      caused an update, or the weights at the point an index ran past the end
      of the weights or of the labels. */
  datatype EpochRun = Completed(w: Vec, changed: bool) | EpochCrashed(w: Vec)

  /** The inner loop of `train` from example i on, with `changed` meaning
      "not converged so far". */
  function EpochFrom(eta: real, w: Vec, xs: seq<Vec>, ys: seq<real>, i: nat, changed: bool): (r: EpochRun)
    ensures |r.w| == |w|
    ensures changed && r.Completed? ==> r.changed
    decreases |xs| - i
  {
    if i >= |xs| then Completed(w, changed)
    else if |xs[i]| > |w| || i >= |ys| then EpochCrashed(w)
    else if Mistake(w, xs[i], ys[i]) then EpochFrom(eta, Update(w, xs[i], ys[i], eta), xs, ys, i + 1, true)
    else EpochFrom(eta, w, xs, ys, i + 1, changed)
  }

  /** How `train` ends: normally after a clean epoch, with
      FailedToConvergeException once `epoch == maxEpochs`, or with an
      IndexOutOfBoundsException part-way through an epoch. */
  datatype Run = Converged(w: Vec, epochs: nat) | NotConverged(w: Vec, epochs: nat) | Crashed(w: Vec)

  /** The outer loop of `train` from the given epoch counter and flag on. */
  function TrainFrom(eta: real, maxEpochs: nat, w: Vec, xs: seq<Vec>, ys: seq<real>, epoch: nat, converged: bool): (r: Run)
    requires epoch <= maxEpochs
    ensures |r.w| == |w|
    decreases maxEpochs - epoch
  {
    if !converged && epoch < maxEpochs then
      match EpochFrom(eta, w, xs, ys, 0, false)
      case EpochCrashed(w') => Crashed(w')
      case Completed(w', changed) => TrainFrom(eta, maxEpochs, w', xs, ys, epoch + 1, !changed)
    else if epoch == maxEpochs then NotConverged(w, epoch)
    else Converged(w, epoch)
  }

  /** `train` on a non-empty data set: zero weights, one per feature of the first example. */
  function Training(eta: real, maxEpochs: nat, xs: seq<Vec>, ys: seq<real>): (r: Run)
    requires |xs| > 0
    ensures |r.w| == |xs[0]|
  {
    TrainFrom(eta, maxEpochs, Zeros(|xs[0]|), xs, ys, 0, false)
  }

  /** What the caller of `train` sees. */
  function RunOutcome(run: Run): (r: Outcome)
    ensures r == Pass <==> run.Converged?
    ensures r == Fail(FailedToConverge) <==> run.NotConverged?
    ensures r == Fail(IndexOutOfBounds) <==> run.Crashed?
  {
    match run
    case Converged(_, _) => Pass
    case NotConverged(_, _) => Fail(FailedToConverge)
    case Crashed(_) => Fail(IndexOutOfBounds)
  }

  // ---------------------------------------------------------------------
  // Properties of the specification
  // ---------------------------------------------------------------------

  /** An update moves the score of the example that caused it by
      eta * y * |x|^2. */
  lemma {:induction false} UpdateMovesScore(w: Vec, x: Vec, y: real, eta: real, n: nat)
    requires |x| <= |w| && n <= |x|
    ensures Dot(x, Update(w, x, y, eta), n) == Dot(x, w, n) + eta * y * SqNorm(x, n)
  {
    var u := Update(w, x, y, eta);
    forall j | 0 <= j < n
      ensures u[j] == w[j] + eta * y * x[j]
    {
      assert u[j] == w[j] + eta * x[j] * y;
      Commute(eta, x[j], y);
    }
    DotShift(x, w, u, eta * y, n);
  }

  lemma {:induction false} Commute(a: real, b: real, c: real)
    ensures a * b * c == a * c * b
  {
  }

  /** For a label of +1 or -1 an update raises the example's margin
      `label * score` by eta * |x|^2, never lowering it when eta >= 0. */
  lemma {:induction false} UpdateRaisesMargin(w: Vec, x: Vec, y: real, eta: real)
    requires |x| <= |w| && (y == 1.0 || y == -1.0)
    ensures Score(Update(w, x, y, eta), x) * y == Score(w, x) * y + eta * SqNorm(x, |x|)
    ensures eta >= 0.0 ==> Score(Update(w, x, y, eta), x) * y >= Score(w, x) * y
  {
    UpdateMovesScore(w, x, y, eta, |x|);
    MarginStep(Score(w, x), eta, y, SqNorm(x, |x|));
  }

  /** The arithmetic of UpdateRaisesMargin: y * y == 1 for a label of +1 or -1. */
  lemma {:induction false} MarginStep(d: real, eta: real, y: real, s: real)
    requires y == 1.0 || y == -1.0
    requires s >= 0.0
    ensures (d + eta * y * s) * y == d * y + eta * s
    ensures eta >= 0.0 ==> eta * s >= 0.0
  {
    assert y * y == 1.0;
    assert (d + eta * y * s) * y == d * y + eta * s * (y * y);
  }

  /** An epoch that started "converged" ends without a change exactly when
      every remaining example is strictly on its label's side; it then leaves
      the weights as they were. */
  lemma {:induction false} CleanEpochIffSeparates(eta: real, w: Vec, xs: seq<Vec>, ys: seq<real>, i: nat)
    ensures EpochFrom(eta, w, xs, ys, i, false) == Completed(w, false) <==> Separates(w, xs, ys, i)
    ensures EpochFrom(eta, w, xs, ys, i, false).Completed? && !EpochFrom(eta, w, xs, ys, i, false).changed ==>
      EpochFrom(eta, w, xs, ys, i, false).w == w
    decreases |xs| - i
  {
    if i < |xs| {
      CleanEpochIffSeparates(eta, w, xs, ys, i + 1);
      if |xs[i]| <= |w| && i < |ys| && !Mistake(w, xs[i], ys[i]) {
        assert EpochFrom(eta, w, xs, ys, i, false) == EpochFrom(eta, w, xs, ys, i + 1, false);
        if Separates(w, xs, ys, i + 1) {
          forall k | i <= k < |xs|
            ensures k < |ys| && |xs[k]| <= |w| && Score(w, xs[k]) * ys[k] > 0.0
          {
            if k == i {
              assert !Mistake(w, xs[k], ys[k]);
            } else {
              var x := xs[k];
            }
          }
        }
      } else {
        var x := xs[i];
        assert !Separates(w, xs, ys, i);
      }
    }
  }

  /** If `train` returns normally, every training example is strictly on the
      side of its label under the final weights. */
  lemma {:induction false} ConvergedSeparates(eta: real, maxEpochs: nat, w: Vec, xs: seq<Vec>, ys: seq<real>,
                                             epoch: nat, converged: bool)
    requires epoch <= maxEpochs
    requires converged ==> Separates(w, xs, ys, 0)
    ensures TrainFrom(eta, maxEpochs, w, xs, ys, epoch, converged).Converged? ==>
      Separates(TrainFrom(eta, maxEpochs, w, xs, ys, epoch, converged).w, xs, ys, 0)
    decreases maxEpochs - epoch
  {
    if !converged && epoch < maxEpochs {
      var e := EpochFrom(eta, w, xs, ys, 0, false);
      if e.Completed? {
        CleanEpochIffSeparates(eta, w, xs, ys, 0);
        ConvergedSeparates(eta, maxEpochs, e.w, xs, ys, epoch + 1, !e.changed);
      }
    }
  }

  /** A normal return from `train` on labels of +1 and -1 classifies every
      training example as its own label. */
  lemma {:induction false} ConvergedReproducesLabels(eta: real, maxEpochs: nat, xs: seq<Vec>, ys: seq<real>)
    requires |xs| > 0 && |ys| >= |xs|
    requires forall k :: 0 <= k < |xs| ==> ys[k] == 1.0 || ys[k] == -1.0
    ensures var run := Training(eta, maxEpochs, xs, ys);
      run.Converged? ==> forall k :: 0 <= k < |xs| ==> |xs[k]| <= |run.w| && Predict(run.w, xs[k]) == ys[k]
  {
    ConvergedSeparates(eta, maxEpochs, Zeros(|xs[0]|), xs, ys, 0, false);
  }

  /** At most maxEpochs epochs run: a normal return comes before the counter
      reaches maxEpochs, and FailedToConverge is raised exactly when it does. */
  lemma {:induction false} EpochBudget(eta: real, maxEpochs: nat, w: Vec, xs: seq<Vec>, ys: seq<real>,
                                       epoch: nat, converged: bool)
    requires epoch <= maxEpochs
    ensures var r := TrainFrom(eta, maxEpochs, w, xs, ys, epoch, converged);
      (r.Converged? ==> (if converged then epoch else epoch + 1) <= r.epochs < maxEpochs) && (r.NotConverged? ==> r.epochs == maxEpochs)
    decreases maxEpochs - epoch
  {
    if !converged && epoch < maxEpochs {
      var e := EpochFrom(eta, w, xs, ys, 0, false);
      if e.Completed? {
        EpochBudget(eta, maxEpochs, e.w, xs, ys, epoch + 1, !e.changed);
      }
    }
  }

  /** The check after the loop is `epoch == maxEpochs`, not "not converged":
      an update-free last permitted epoch still ends in FailedToConverge. */
  lemma {:induction false} CleanLastEpochStillFails(eta: real, maxEpochs: nat, w: Vec, xs: seq<Vec>, ys: seq<real>)
    requires maxEpochs >= 1 && Separates(w, xs, ys, 0)
    ensures TrainFrom(eta, maxEpochs, w, xs, ys, maxEpochs - 1, false) == NotConverged(w, maxEpochs)
  {
    CleanEpochIffSeparates(eta, w, xs, ys, 0);
  }

  /** Starting from zero weights the first example is always a mistake, so
      the first epoch always updates and a normal return takes at least two
      epochs. */
  lemma {:induction false} ConvergedNeedsTwoEpochs(eta: real, maxEpochs: nat, xs: seq<Vec>, ys: seq<real>)
    requires |xs| > 0
    ensures Training(eta, maxEpochs, xs, ys).Converged? ==> Training(eta, maxEpochs, xs, ys).epochs >= 2
  {
    var z := Zeros(|xs[0]|);
    if 0 < maxEpochs && |ys| > 0 {
      DotZeros(xs[0], |xs[0]|, |xs[0]|);
      assert Mistake(z, xs[0], ys[0]);
      var e := EpochFrom(eta, z, xs, ys, 0, false);
      if e.Completed? {
        assert e.changed;
        EpochBudget(eta, maxEpochs, e.w, xs, ys, 1, false);
      }
    }
  }

  /** One example [1.0] labelled +1 and a budget of two epochs: the second
      epoch makes no update, yet `train` reports FailedToConverge. */
  lemma {:induction false} TwoEpochBudgetExample()
    ensures Training(0.9, 2, [[1.0]], [1.0]) == NotConverged([0.9], 2)
  {
    var xs, ys := [[1.0]], [1.0];
    var z := Zeros(1);
    assert Score(z, [1.0]) == 0.0;
    var w1 := Update(z, [1.0], 1.0, 0.9);
    assert w1 == [0.9];
    assert EpochFrom(0.9, z, xs, ys, 0, false) == Completed([0.9], true);
    assert Score([0.9], [1.0]) == 0.9;
    assert EpochFrom(0.9, [0.9], xs, ys, 0, false) == Completed([0.9], false);
  }

  // ---------------------------------------------------------------------
  // The classifier object
  // ---------------------------------------------------------------------

  /** Every example fits the weights (is no longer than them). */
  ghost predicate Fits(w: Vec, xs: seq<Vec>) {
    forall k :: 0 <= k < |xs| ==> |xs[k]| <= |w|
  }

  /** The labels `classify` gives a list of examples, in order. */
  function Predictions(w: Vec, xs: seq<Vec>): (r: seq<real>)
    requires Fits(w, xs)
    ensures |r| == |xs|
  {
    seq(|xs|, k requires 0 <= k < |xs| => Predict(w, xs[k]))
  }

  class Perceptron {
    var weights: Vec

    constructor ()
      ensures weights == []
    {
      weights := [];
    }

    /** The dot-product loop of `classify` and `train`: it reads one weight
        per feature, so an example longer than the weights runs out of range. */
    method ScoreOf(x: Vec) returns (r: Result<real>)
      ensures r == if |x| <= |weights| then Success(Score(weights, x)) else Failure(IndexOutOfBounds)
    {
      var dot := 0.0;
      var i := 0;
      while i < |x|
        invariant 0 <= i <= |x| && i <= |weights|
        invariant dot == Dot(x, weights, i)
      {
        if i >= |weights| {
          return Failure(IndexOutOfBounds);
        }
        dot := dot + x[i] * weights[i];
        i := i + 1;
      }
      return Success(dot);
    }

    /** `classify(example)`: +1 when the score is strictly above the
        threshold 0, -1 otherwise (ties go to -1); the weights are only read. */
    method Classify(example: Vec) returns (r: Result<real>)
      ensures r.Success? <==> |example| <= |weights|
      ensures r.Success? ==> (r.value == 1.0 <==> Score(weights, example) > 0.0)
      ensures r.Success? ==> (r.value == -1.0 <==> Score(weights, example) <= 0.0)
      ensures r.Success? ==> r.value == Predict(weights, example)
      ensures r.Failure? ==> r.error == IndexOutOfBounds
    {
      var s := ScoreOf(example);
      if s.Failure? {
        return Failure(s.error);
      }
      if s.value > Threshold {
        r := Success(1.0);
      } else {
        r := Success(-1.0);
      }
    }

    /** `classify(DataSet)`: the predicted label of every example, in order,
        handed with the true labels to the accuracy computation. */
    method ClassifyAll(ds: DataSet, accuracy: (seq<real>, seq<real>) -> real) returns (r: Result<real>)
      ensures r == if Fits(weights, ds.examples)
                   then Success(accuracy(ds.labels, Predictions(weights, ds.examples)))
                   else Failure(IndexOutOfBounds)
    {
      var xs := ds.examples;
      var predicted: seq<real> := [];
      var i := 0;
      while i < |xs|
        invariant 0 <= i <= |xs|
        invariant Fits(weights, xs[..i])
        invariant predicted == Predictions(weights, xs[..i])
      {
        var y := Classify(xs[i]);
        if y.Failure? {
          return Failure(y.error);
        }
        assert xs[..i + 1] == xs[..i] + [xs[i]];
        predicted := predicted + [y.value];
        i := i + 1;
      }
      assert xs[..i] == xs;
      return Success(accuracy(ds.labels, predicted));
    }

    /** The update loop of `train`: `weights.set(j, weights.get(j) + eta * x[j] * y)` for j < |x|. */
    method ApplyUpdate(x: Vec, y: real)
      requires |x| <= |weights|
      modifies this
      ensures weights == Update(old(weights), x, y, Eta)
    {
      ghost var before := weights;
      var j := 0;
      while j < |x|
        invariant 0 <= j <= |x| && |weights| == |before|
        invariant forall k :: 0 <= k < |weights| ==>
          weights[k] == if k < j then Adjust(before[k], Eta, x[k], y) else before[k]
      {
        weights := weights[j := Adjust(weights[j], Eta, x[j], y)];
        j := j + 1;
      }
    }

    /** One pass of `train`'s example loop: an update for every mistake;
        Success(true) when no example caused one. An example longer than the
        weights or without a label throws, leaving the weights as updated so far. */
    method Epoch(xs: seq<Vec>, ys: seq<real>) returns (r: Result<bool>)
      modifies this
      ensures var e := EpochFrom(Eta, old(weights), xs, ys, 0, false);
        weights == e.w && r == if e.EpochCrashed? then Failure(IndexOutOfBounds) else Success(!e.changed)
    {
      ghost var start := weights;
      var converged := true;
      var i := 0;
      while i < |xs|
        invariant 0 <= i <= |xs|
        invariant EpochFrom(Eta, weights, xs, ys, i, !converged) == EpochFrom(Eta, start, xs, ys, 0, false)
      {
        var s := ScoreOf(xs[i]);
        if s.Failure? || i >= |ys| {
          return Failure(IndexOutOfBounds);
        }
        var y := s.value * ys[i];
        if y <= 0.0 {
          ApplyUpdate(xs[i], ys[i]);
          converged := false;
        }
        i := i + 1;
      }
      r := Success(converged);
    }

    /** `train`: fails on an empty data set before touching the weights;
        otherwise the weights and the outcome are those of Training, with the
        class's learning rate and epoch budget. */
    method Train(ds: DataSet) returns (r: Outcome)
      modifies this
      ensures |ds.examples| == 0 ==> r == Fail(IndexOutOfBounds) && weights == old(weights)
      ensures |ds.examples| > 0 ==> var run := Training(Eta, MaxEpochs, ds.examples, ds.labels);
        weights == run.w && r == RunOutcome(run)
    {
      var xs, ys := ds.examples, ds.labels;
      if |xs| == 0 {
        return Fail(IndexOutOfBounds);
      }
      ghost var run := Training(Eta, MaxEpochs, xs, ys);
      var epoch := 0;
      weights := Zeros(|xs[0]|);
      var converged := false;
      while !converged && epoch < MaxEpochs
        invariant 0 <= epoch <= MaxEpochs
        invariant TrainFrom(Eta, MaxEpochs, weights, xs, ys, epoch, converged) == run
        decreases MaxEpochs - epoch
      {
        var clean := Epoch(xs, ys);
        if clean.Failure? {
          return Fail(clean.error);
        }
        converged := clean.value;
        epoch := epoch + 1;
      }
      if epoch == MaxEpochs {
        return Fail(FailedToConverge);
      }
      return Pass;
    }

    /** `holdOut`: split by position, train on the prefix, evaluate on the
        suffix. Each failure of the split, of `train` or of `classify`
        propagates; an empty training prefix fails in `train`. */
    method HoldOut(p: real, ds: DataSet, accuracy: (seq<real>, seq<real>) -> real) returns (r: Result<real>)
      modifies this
      ensures var n := |ds.examples|; var k := SplitPoint(n, p);
        if |ds.labels| < n || k == 0 then
          r == Failure(IndexOutOfBounds) && weights == old(weights)
        else
          var run := Training(Eta, MaxEpochs, ds.examples[..k], ds.labels[..k]);
          weights == run.w &&
          r == if !run.Converged? then Failure(RunOutcome(run).error)
               else if Fits(run.w, ds.examples[k..])
               then Success(accuracy(ds.labels[k..n], Predictions(run.w, ds.examples[k..])))
               else Failure(IndexOutOfBounds)
    {
      var training, testing, split := HoldOutSplit(p, ds);
      if split.Fail? {
        return Failure(split.error);
      }
      var t := Train(training);
      if t.Fail? {
        return Failure(t.error);
      }
      r := ClassifyAll(testing, accuracy);
    }

    /** `setWeights`: a vector of another length is refused with
        IllegalArgumentException; otherwise it becomes the weights. */
    method SetWeights(w: Vec) returns (r: Outcome)
      modifies this
      ensures r == if |w| == |old(weights)| then Pass else Fail(IllegalArgument)
      ensures weights == if r.Pass? then w else old(weights)
    {
      if |w| != |weights| {
        return Fail(IllegalArgument);
      }
      weights := w;
      r := Pass;
    }

    /** `getWeights`: the current weights. */
    method GetWeights() returns (w: Vec)
      ensures w == weights
    {
      w := weights;
    }
  }
}
