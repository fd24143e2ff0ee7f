/** The BP classifier object of BP.java: its settings, layer sizes and the
    two weight matrices as fields, the matrices as 2-D arrays updated in
    place, each method proved against the definitions of BackpropSpec. */
module Backprop {
  import opened Outcomes
  import opened Vectors
  import opened DataSets
  import opened BackpropSpec

  /** The entries of a 2-D array, row by row. */
  ghost function Rows(a: array2<real>): (m: Mat)
    reads a
    ensures IsMat(m, a.Length0, a.Length1)
  {
    seq(a.Length0, j requires 0 <= j < a.Length0 reads a =>
      seq(a.Length1, i requires 0 <= i < a.Length1 reads a => a[j, i]))
  }

  /** A weight matrix field: None while it is still null. */
  ghost function Matrix(a: array2?<real>): Option<Mat>
    reads a
  {
    if a == null then None else Some(Rows(a))
  }

  /** An array holds a matrix when their shapes and entries agree. */
  lemma {:induction false} RowsEqual(a: array2<real>, m: Mat)
    requires IsMat(m, a.Length0, a.Length1)
    requires forall j, i :: 0 <= j < a.Length0 && 0 <= i < a.Length1 ==> a[j, i] == m[j][i]
    ensures Rows(a) == m
  {
    forall j | 0 <= j < a.Length0
      ensures Rows(a)[j] == m[j]
    {
    }
  }

  class BP {
    var Emin: real
    var maxEpochs: real
    var eta: real
    var I: nat
    var J: int
    var K: nat
    var V: array2?<real>
    var W: array2?<real>
    /** `Math.exp`, which the sigmoid calls. */
    const exp: real -> Positive
    /** The generator's values in the order `nextDouble` returns them ... */
    const stream: nat -> Unit
    /** ... and how many of them have been used. */
    var drawn: nat

    /** The two matrices are never the same array. */
    ghost predicate Valid()
      reads this
    {
      V == null || V != W
    }

    /** `new BP()`: E_min 0.1, eta 0.9, 50000 epochs, no layers and no weights yet. */
    constructor (exp: real -> Positive, stream: nat -> Unit)
      ensures Valid()
      ensures Emin == 0.1 && eta == 0.9 && maxEpochs == 50000.0
      ensures I == 0 && J == 0 && K == 0 && V == null && W == null
      ensures this.exp == exp && this.stream == stream && drawn == 0
    {
      Emin := 0.1;
      eta := 0.9;
      maxEpochs := 50000.0;
      I, J, K := 0, 0, 0;
      V, W := null, null;
      this.exp := exp;
      this.stream := stream;
      drawn := 0;
    }

    /** `computeHiddenLayerOutput`: J sums over I inputs, each through the sigmoid. */
    method ComputeHiddenLayerOutput(x: Vec) returns (r: Result<Vec>)
      ensures r == HiddenLayer(exp, Matrix(V), I, J, x)
    {
      var h: Vec := [];
      var j := 0;
      while j < J
        invariant 0 <= j && (J < 0 ==> j == 0) && (J >= 0 ==> j <= J)
        invariant |h| == j
        invariant j > 0 && I > 0 ==> I <= |x| && V != null && j <= V.Length0 && I <= V.Length1
        invariant I == 0 ==> forall k :: 0 <= k < j ==> h[k] == Sigmoid(exp, 0.0)
        invariant j > 0 && I > 0 ==> forall k :: 0 <= k < j ==> h[k] == Sigmoid(exp, Dot(x, Rows(V)[k], I))
      {
        var sum := 0.0;
        var i := 0;
        while i < I
          invariant 0 <= i <= I
          invariant j > 0 && I > 0 ==> I <= |x| && V != null && j <= V.Length0 && I <= V.Length1
          invariant i > 0 ==> i <= |x| && V != null && j < V.Length0 && i <= V.Length1
          invariant i > 0 ==> sum == Dot(x, Rows(V)[j], i)
          invariant i == 0 ==> sum == 0.0
        {
          if i >= |x| {
            return Failure(IndexOutOfBounds);
          }
          if V == null {
            return Failure(NullPointer);
          }
          if j >= V.Length0 || i >= V.Length1 {
            assert !Covers(Rows(V), J, I) by {
              if j < V.Length0 {
                assert |Rows(V)[j]| < I;
              }
            }
            return Failure(IndexOutOfBounds);
          }
          sum := sum + x[i] * V[j, i];
          i := i + 1;
        }
        h := h + [Sigmoid(exp, sum)];
        j := j + 1;
      }
      if J > 0 && I > 0 {
        assert Covers(Rows(V), J, I);
        assert h == Hidden(exp, Rows(V), I, J, x);
      } else if J > 0 {
        assert h == seq(J, _ => Sigmoid(exp, 0.0));
      }
      return Success(h);
    }

    /** `computeOutputLayerOutput`: the sigmoid of sum_{j<J} h[j] * W[0][j]. */
    method ComputeOutputLayerOutput(h: Vec) returns (r: Result<real>)
      ensures r == OutputLayer(exp, Matrix(W), J, h)
    {
      var sum := 0.0;
      var j := 0;
      while j < J
        invariant 0 <= j && (J < 0 ==> j == 0) && (J >= 0 ==> j <= J)
        invariant j > 0 ==> j <= |h| && W != null && 1 <= W.Length0 && j <= W.Length1
        invariant j > 0 ==> sum == Dot(h, Rows(W)[0], j)
        invariant j == 0 ==> sum == 0.0
      {
        if j >= |h| {
          return Failure(IndexOutOfBounds);
        }
        if W == null {
          return Failure(NullPointer);
        }
        if W.Length0 == 0 || j >= W.Length1 {
          return Failure(IndexOutOfBounds);
        }
        sum := sum + h[j] * W[0, j];
        j := j + 1;
      }
      return Success(Sigmoid(exp, sum));
    }

    /** The forward pass and a threshold on the output activation. */
    method Decide(x: Vec, cut: real) returns (r: Result<real>)
      ensures r == Predict(exp, Matrix(V), Matrix(W), I, J, x, cut)
    {
      var h := ComputeHiddenLayerOutput(x);
      if h.Failure? {
        return Failure(h.error);
      }
      var o := ComputeOutputLayerOutput(h.value);
      if o.Failure? {
        return Failure(o.error);
      }
      if o.value > cut {
        r := Success(1.0);
      } else {
        r := Success(-1.0);
      }
    }

    /** `classify` as written: the output activation against 0. Every
        example the forward pass gets through is labelled +1. */
    method ClassifyAsWritten(example: Vec) returns (r: Result<real>)
      ensures r == Predict(exp, Matrix(V), Matrix(W), I, J, example, 0.0)
      ensures r == AlwaysPositive(exp, Matrix(V), Matrix(W), I, J, example)
    {
      r := Decide(example, 0.0);
      ThresholdZeroAlwaysPositive(exp, Matrix(V), Matrix(W), I, J, example);
    }

    /** `classify` with the output activation compared against one half:
        for an exp that behaves like the exponential, the label is the sign
        of the output unit's net input. */
    method Classify(example: Vec) returns (r: Result<real>)
      ensures r == Predict(exp, Matrix(V), Matrix(W), I, J, example, Cut)
      ensures ExpLike(exp) ==> r == SignOfNet(exp, Matrix(V), Matrix(W), I, J, example)
    {
      r := Decide(example, Cut);
      if ExpLike(exp) {
        ThresholdCutFollowsNetInput(exp, Matrix(V), Matrix(W), I, J, example);
      }
    }

    /** `updateWeights`: W[0][j] += eta * delta_output * h_j, then
        V[j][i] += eta * delta_hidden[j] * x_i, for j < J and i < I. Both
        arrays keep their shape and no other entry changes. */
    method UpdateWeights(x: Vec, h: Vec, dOut: real, dHid: Vec)
      requires V != null && W != null && V != W && J >= 0
      requires 1 <= W.Length0 && J <= W.Length1 && J <= |h|
      requires J <= V.Length0 && (J > 0 ==> I <= V.Length1 && I <= |x|) && J <= |dHid|
      modifies V, W
      ensures Rows(W) == UpdateW(old(Rows(W)), eta, dOut, h, J)
      ensures Rows(V) == UpdateV(old(Rows(V)), eta, dHid, x, I, J)
    {
      UpdateOutputWeights(h, dOut);
      UpdateHiddenWeights(x, dHid);
    }

    /** Step 5 of `updateWeights`, on W alone. */
    method UpdateOutputWeights(h: Vec, dOut: real)
      requires W != null && J >= 0 && 1 <= W.Length0 && J <= W.Length1 && J <= |h|
      modifies W
      ensures Rows(W) == UpdateW(old(Rows(W)), eta, dOut, h, J)
    {
      ghost var W0 := Rows(W);
      ghost var TW := UpdateW(W0, eta, dOut, h, J);
      var j := 0;
      while j < J
        invariant 0 <= j <= J
        invariant forall k, i :: 0 <= k < W.Length0 && 0 <= i < W.Length1 ==>
          W[k, i] == if k == 0 && i < j then TW[k][i] else W0[k][i]
      {
        W[0, j] := Adjust(W[0, j], eta, dOut, h[j]);
        j := j + 1;
      }
      RowsEqual(W, TW);
    }

    /** Step 6 of `updateWeights`, on V alone. */
    method UpdateHiddenWeights(x: Vec, dHid: Vec)
      requires V != null && J >= 0 && J <= V.Length0 && (J > 0 ==> I <= V.Length1 && I <= |x|) && J <= |dHid|
      modifies V
      ensures Rows(V) == UpdateV(old(Rows(V)), eta, dHid, x, I, J)
    {
      ghost var V0 := Rows(V);
      assert Covers(V0, J, I);
      ghost var TV := UpdateV(V0, eta, dHid, x, I, J);
      var j := 0;
      while j < J
        invariant 0 <= j <= J
        invariant forall k, i :: 0 <= k < V.Length0 && 0 <= i < V.Length1 ==>
          V[k, i] == if k < j && i < I then TV[k][i] else V0[k][i]
      {
        var i := 0;
        while i < I
          invariant 0 <= i <= I
          invariant forall k, i' :: 0 <= k < V.Length0 && 0 <= i' < V.Length1 ==>
            V[k, i'] == if (k < j && i' < I) || (k == j && i' < i) then TV[k][i'] else V0[k][i']
        {
          V[j, i] := Adjust(V[j, i], eta, dHid[j], x[i]);
          i := i + 1;
        }
        j := j + 1;
      }
      RowsEqual(V, TV);
    }

    /** The fill loops of `initializeVW`: `a` row by row, each entry
        `min + (max - min) * nextDouble()`. */
    method Fill(a: array2<real>)
      modifies this, a
      ensures Rows(a) == DrawMat(stream, old(drawn), a.Length0, a.Length1)
      ensures drawn == old(drawn) + RowStart(a.Length0, a.Length1)
      ensures I == old(I) && J == old(J) && K == old(K) && V == old(V) && W == old(W)
      ensures Emin == old(Emin) && eta == old(eta) && maxEpochs == old(maxEpochs)
    {
      var min := -1.0;
      var max := 1.0;
      ghost var target := DrawMat(stream, drawn, a.Length0, a.Length1);
      var j := 0;
      while j < a.Length0
        invariant 0 <= j <= a.Length0
        invariant I == old(I) && J == old(J) && K == old(K) && V == old(V) && W == old(W)
        invariant Emin == old(Emin) && eta == old(eta) && maxEpochs == old(maxEpochs)
        invariant drawn == old(drawn) + RowStart(j, a.Length1)
        invariant forall k, i :: 0 <= k < j && 0 <= i < a.Length1 ==> a[k, i] == target[k][i]
      {
        var i := 0;
        while i < a.Length1
          invariant 0 <= i <= a.Length1
          invariant I == old(I) && J == old(J) && K == old(K) && V == old(V) && W == old(W)
          invariant Emin == old(Emin) && eta == old(eta) && maxEpochs == old(maxEpochs)
          invariant drawn == old(drawn) + RowStart(j, a.Length1) + i
          invariant forall k, i' :: 0 <= k < a.Length0 && 0 <= i' < a.Length1 && (k < j || (k == j && i' < i)) ==>
            a[k, i'] == target[k][i']
        {
          assert target[j][i] == Scale(stream(drawn));
          a[j, i] := min + (max - min) * stream(drawn);
          drawn := drawn + 1;
          i := i + 1;
        }
        assert RowStart(j + 1, a.Length1) == RowStart(j, a.Length1) + a.Length1;
        j := j + 1;
      }
      RowsEqual(a, target);
    }

    /** `initializeVW`: a new J x I array V and a new K x J array W, filled
        in that order from the generator. A negative J makes the first
        allocation throw before either field changes. */
    method InitializeVW() returns (r: Outcome)
      modifies this
      ensures I == old(I) && J == old(J) && K == old(K)
      ensures Emin == old(Emin) && eta == old(eta) && maxEpochs == old(maxEpochs)
      ensures J < 0 ==> r == Fail(NegativeArraySize) && V == old(V) && W == old(W) && drawn == old(drawn)
      ensures J >= 0 ==>
        r == Pass && V != null && W != null && fresh(V) && fresh(W) && V != W &&
        V.Length0 == J && V.Length1 == I && W.Length0 == K && W.Length1 == J &&
        Net(Rows(V), Rows(W)) == InitialNet(stream, old(drawn), I, J, K) &&
        drawn == old(drawn) + RowStart(J, I) + RowStart(K, J)
    {
      if J < 0 {
        return Fail(NegativeArraySize);
      }
      var v := new real[J, I];
      var w := new real[K, J];
      V, W := v, w;
      Fill(v);
      Fill(w);
      r := Pass;
    }

    /** The hidden error signals of `train`'s example loop, from row 0 of W. */
    method HiddenErrors(h: Vec, dOut: real) returns (dHid: Vec)
      requires W != null && 1 <= W.Length0 && 0 <= J <= W.Length1 && J <= |h|
      ensures dHid == HiddenDeltas(h, Rows(W)[0], dOut, J)
    {
      ghost var w0 := Rows(W)[0];
      dHid := [];
      var j := 0;
      while j < J
        invariant 0 <= j <= J
        invariant dHid == HiddenDeltas(h, w0, dOut, j)
      {
        HiddenDeltasNext(h, w0, dOut, j);
        assert W[0, j] == w0[j];
        dHid := dHid + [DeltaHidden(h[j], W[0, j], dOut)];
        j := j + 1;
      }
    }

    /** The second half of one example's step, once the forward pass has
        given h and o: error signals (hidden ones from W before it changes),
        then the weight update; it returns the example's error. */
    method Learn(x: Vec, y: real, h: Vec, o: real) returns (loss: real)
      requires V != null && W != null && V != W && J >= 0
      requires V.Length0 == J && V.Length1 == I && W.Length0 == 1 && W.Length1 == J
      requires J == 0 || I <= |x|
      requires Covers(Rows(V), J, I) && h == Hidden(exp, Rows(V), I, J, x)
      requires o == Output(exp, Rows(W), J, h)
      modifies V, W
      ensures var c := Params(eta, Emin, I, J, exp);
        var net := Net(old(Rows(V)), old(Rows(W)));
        loss == StepLoss(c, net, x, y) && Net(Rows(V), Rows(W)) == Step(c, net, x, y)
    {
      ghost var c := Params(eta, Emin, I, J, exp);
      ghost var net := Net(Rows(V), Rows(W));
      var dOut := DeltaOut(y, o);
      var dHid := HiddenErrors(h, dOut);
      StepUnfolds(c, net, x, y, h, o, dOut, dHid);
      ghost var next := Net(UpdateV(net.V, eta, dHid, x, I, J), UpdateW(net.W, eta, dOut, h, J));
      UpdateWeights(x, h, dOut, dHid);
      assert Rows(V) == next.V && Rows(W) == next.W;
      loss := Loss(y, o);
    }

    /** The body of `train`'s example loop after the label is read: forward
        pass, then Learn. It returns the example's error, or throws on an
        example shorter than I when there are hidden units. */
    method Backpropagate(x: Vec, y: real) returns (r: Result<real>)
      requires V != null && W != null && V != W && J >= 0
      requires V.Length0 == J && V.Length1 == I && W.Length0 == 1 && W.Length1 == J
      modifies V, W
      ensures J > 0 && |x| < I ==>
        r == Failure(IndexOutOfBounds) && Rows(V) == old(Rows(V)) && Rows(W) == old(Rows(W))
      ensures !(J > 0 && |x| < I) ==>
        var c := Params(eta, Emin, I, J, exp);
        var net := Net(old(Rows(V)), old(Rows(W)));
        r == Success(StepLoss(c, net, x, y)) && Net(Rows(V), Rows(W)) == Step(c, net, x, y)
    {
      ghost var net := Net(Rows(V), Rows(W));
      assert Shaped(net, I, J);
      var hr := ComputeHiddenLayerOutput(x);
      if hr.Failure? {
        return Failure(hr.error);
      }
      ForwardOfShaped(exp, net, I, J, x);
      var o := ComputeOutputLayerOutput(hr.value);
      var loss := Learn(x, y, hr.value, o.value);
      r := Success(loss);
    }

    /** One pass of `train`'s example loop: read the label, then learn from
        the example; the epoch's accumulated error, or the exception. */
    method Epoch(xs: seq<Vec>, ys: seq<real>) returns (r: Result<real>)
      requires V != null && W != null && V != W && J >= 0
      requires V.Length0 == J && V.Length1 == I && W.Length0 == 1 && W.Length1 == J
      modifies V, W
      ensures var e := EpochFrom(Params(eta, Emin, I, J, exp), Net(old(Rows(V)), old(Rows(W))), xs, ys, 0, 0.0);
        Net(Rows(V), Rows(W)) == e.net && r == (if e.Crash? then Failure(IndexOutOfBounds) else Success(e.E))
    {
      ghost var c := Params(eta, Emin, I, J, exp);
      ghost var start := Net(Rows(V), Rows(W));
      var E := 0.0;
      var m := 0;
      while m < |xs|
        invariant 0 <= m <= |xs|
        invariant EpochFrom(c, Net(Rows(V), Rows(W)), xs, ys, m, E) == EpochFrom(c, start, xs, ys, 0, 0.0)
      {
        if m >= |ys| {
          return Failure(IndexOutOfBounds);
        }
        var x := xs[m];
        var y := ys[m];
        var loss := Backpropagate(x, y);
        if loss.Failure? {
          return Failure(loss.error);
        }
        E := E + loss.value;
        m := m + 1;
      }
      r := Success(E);
    }

    /** `train`: I from the first example, K = 1, fresh weights, then epochs
        until one has error below E_min or the budget runs out; running out
        is not an error. An empty data set throws before anything changes; a
        missing label or a short example throws mid-epoch, leaving the
        weights as the interrupted epoch left them. */
    method Train(ds: DataSet) returns (r: Outcome)
      requires Valid()
      modifies this
      ensures Valid()
      ensures Emin == old(Emin) && eta == old(eta) && maxEpochs == old(maxEpochs) && J == old(J)
      ensures |ds.examples| == 0 ==>
        r == Fail(IndexOutOfBounds) && I == old(I) && K == old(K) && V == old(V) && W == old(W) && drawn == old(drawn)
      ensures |ds.examples| > 0 ==> I == |ds.examples[0]| && K == 1
      ensures |ds.examples| > 0 && J < 0 ==>
        r == Fail(NegativeArraySize) && V == old(V) && W == old(W) && drawn == old(drawn)
      ensures |ds.examples| > 0 && J >= 0 ==>
        var run := Run(Params(eta, Emin, I, J, exp), stream, old(drawn), ds.examples, ds.labels, Budget(maxEpochs));
        V != null && W != null && fresh(V) && fresh(W) &&
        drawn == old(drawn) + RowStart(J, I) + RowStart(1, J) &&
        Net(Rows(V), Rows(W)) == run.net && r == TrainOutcome(run)
    {
      var xs, ys := ds.examples, ds.labels;
      var M := |xs|;
      if M == 0 {
        return Fail(IndexOutOfBounds);
      }
      I := |xs[0]|;
      K := 1;
      var init := InitializeVW();
      if init.Fail? {
        return init;
      }
      r := Epochs(xs, ys);
    }

    /** The epoch loop of `train` on weights already drawn: epochs until one
        has error below E_min or the budget runs out. */
    method Epochs(xs: seq<Vec>, ys: seq<real>) returns (r: Outcome)
      requires V != null && W != null && V != W && J >= 0
      requires V.Length0 == J && V.Length1 == I && W.Length0 == 1 && W.Length1 == J
      modifies V, W
      ensures var run := EpochsFrom(Params(eta, Emin, I, J, exp), Net(old(Rows(V)), old(Rows(W))), xs, ys, 0, Budget(maxEpochs));
        Net(Rows(V), Rows(W)) == run.net && r == TrainOutcome(run)
    {
      ghost var c := Params(eta, Emin, I, J, exp);
      ghost var budget := Budget(maxEpochs);
      ghost var run := EpochsFrom(c, Net(Rows(V), Rows(W)), xs, ys, 0, budget);
      var q := 0;
      while (q as real) < maxEpochs
        invariant q <= budget
        invariant EpochsFrom(c, Net(Rows(V), Rows(W)), xs, ys, q, budget) == run
        decreases budget - q
      {
        BudgetCounts(maxEpochs, q);
        var E := Epoch(xs, ys);
        if E.Failure? {
          return Fail(E.error);
        }
        if E.value < Emin {
          break;
        }
        q := q + 1;
      }
      BudgetCounts(maxEpochs, q);
      r := Pass;
    }

    /** `classify(DataSet)`: every example through the forward pass and the
        threshold `cut` in order, then the accuracy of the predictions
        against the data set's labels. With `cut` 0.0 this is the code as
        written, and the predictions are all +1; the corrected hold-out
        passes Cut. */
    method ClassifyAll(ds: DataSet, cut: real, accuracy: (seq<real>, seq<real>) -> real) returns (r: Result<real>)
      ensures r == Evaluate(exp, Matrix(V), Matrix(W), I, J, ds.examples, ds.labels, cut, accuracy)
      ensures cut == 0.0 && r.Success? ==> r.value == accuracy(ds.labels, seq(|ds.examples|, _ => 1.0))
    {
      var xs := ds.examples;
      ghost var all := PredictAll(exp, Matrix(V), Matrix(W), I, J, xs, cut);
      var predicted: seq<real> := [];
      var i := 0;
      assert xs[i..] == xs;
      if all.Success? {
        assert predicted + all.value == all.value;
      }
      while i < |xs|
        invariant 0 <= i <= |xs|
        invariant all == Prefixed(predicted, PredictAll(exp, Matrix(V), Matrix(W), I, J, xs[i..], cut))
      {
        PredictAllFrom(exp, Matrix(V), Matrix(W), I, J, xs, i, cut, predicted);
        var y := Decide(xs[i], cut);
        if y.Failure? {
          assert all == Failure(y.error);
          return Failure(y.error);
        }
        predicted := predicted + [y.value];
        i := i + 1;
      }
      assert xs[i..] == [] && predicted + [] == predicted;
      assert all == Success(predicted);
      PredictAllZeroCut(exp, Matrix(V), Matrix(W), I, J, xs);
      return Success(accuracy(ds.labels, predicted));
    }

    /** `holdOut` with the labels carried into both halves: split by
        position, train on the prefix, return the accuracy on the suffix. */
    method HoldOut(p: real, ds: DataSet, accuracy: (seq<real>, seq<real>) -> real) returns (r: Result<real>)
      requires Valid()
      modifies this
      ensures Valid()
      ensures Emin == old(Emin) && eta == old(eta) && maxEpochs == old(maxEpochs) && J == old(J)
      ensures var n := |ds.examples|; var k := SplitPoint(n, p);
        if |ds.labels| < n || k == 0 then
          r == Failure(IndexOutOfBounds) && I == old(I) && K == old(K) && V == old(V) && W == old(W) && drawn == old(drawn)
        else if J < 0 then
          r == Failure(NegativeArraySize) && I == |ds.examples[0]| && K == 1 &&
          V == old(V) && W == old(W) && drawn == old(drawn)
        else
          var run := Run(Params(old(eta), old(Emin), |ds.examples[0]|, J, exp), stream, old(drawn),
                         ds.examples[..k], ds.labels[..k], Budget(old(maxEpochs)));
          I == |ds.examples[0]| && K == 1 && V != null && W != null && fresh(V) && fresh(W) &&
          drawn == old(drawn) + RowStart(J, I) + RowStart(1, J) && Net(Rows(V), Rows(W)) == run.net &&
          r == if run.Crashed? then Failure(IndexOutOfBounds)
               else Evaluate(exp, Some(run.net.V), Some(run.net.W), I, J, ds.examples[k..], ds.labels[k..n], Cut, accuracy)
    {
      var training, testing, split := HoldOutSplit(p, ds);
      if split.Fail? {
        return Failure(split.error);
      }
      var t := Train(training);
      if t.Fail? {
        return Failure(t.error);
      }
      r := ClassifyAll(testing, Cut, accuracy);
    }

    /** `holdOut` as BP.java writes it: the split copies no labels, so
        whenever there is a training prefix and at least one epoch to run,
        `train` throws on the first label, after drawing the initial weights. */
    method HoldOutAsWritten(p: real, ds: DataSet, accuracy: (seq<real>, seq<real>) -> real) returns (r: Result<real>)
      requires Valid()
      modifies this
      ensures Valid()
      ensures Emin == old(Emin) && eta == old(eta) && maxEpochs == old(maxEpochs) && J == old(J)
      ensures var n := |ds.examples|; var k := SplitPoint(n, p);
        if k == 0 then
          r == Failure(IndexOutOfBounds) && I == old(I) && K == old(K) && V == old(V) && W == old(W) && drawn == old(drawn)
        else if J < 0 then
          r == Failure(NegativeArraySize) && I == |ds.examples[0]| && K == 1 &&
          V == old(V) && W == old(W) && drawn == old(drawn)
        else if Budget(maxEpochs) > 0 then
          r == Failure(IndexOutOfBounds) && I == |ds.examples[0]| && K == 1 &&
          V != null && W != null && fresh(V) && fresh(W) && drawn == old(drawn) + RowStart(J, I) + RowStart(1, J) &&
          Net(Rows(V), Rows(W)) == InitialNet(stream, old(drawn), I, J, 1)
        else
          I == |ds.examples[0]| && K == 1 && V != null && W != null && fresh(V) && fresh(W) &&
          drawn == old(drawn) + RowStart(J, I) + RowStart(1, J) &&
          Net(Rows(V), Rows(W)) == InitialNet(stream, old(drawn), I, J, 1) &&
          r == Evaluate(exp, Matrix(V), Matrix(W), I, J, ds.examples[k..], [], Cut, accuracy)
    {
      var training, testing := SplitWithoutLabels(p, ds);
      ghost var d := drawn;
      if |training.examples| > 0 {
        UnlabelledRun(Params(eta, Emin, |training.examples[0]|, if J < 0 then 0 else J, exp), stream, d,
                      training.examples, Budget(maxEpochs));
      }
      var t := Train(training);
      if t.Fail? {
        return Failure(t.error);
      }
      r := ClassifyAll(testing, Cut, accuracy);
    }

    /** `setE_min`. */
    method SetEmin(Emin: real)
      modifies this
      ensures this.Emin == Emin && eta == old(eta) && maxEpochs == old(maxEpochs) && J == old(J)
      ensures I == old(I) && K == old(K) && V == old(V) && W == old(W) && drawn == old(drawn)
    {
      this.Emin := Emin;
    }

    /** `setJ`: any int, a negative one included; it only shows when `train`
        allocates the matrices. */
    method SetJ(J: int)
      modifies this
      ensures this.J == J && Emin == old(Emin) && eta == old(eta) && maxEpochs == old(maxEpochs)
      ensures I == old(I) && K == old(K) && V == old(V) && W == old(W) && drawn == old(drawn)
    {
      this.J := J;
    }

    /** `setMaxEpochs`. */
    method SetMaxEpochs(maxEpochs: real)
      modifies this
      ensures this.maxEpochs == maxEpochs && Emin == old(Emin) && eta == old(eta) && J == old(J)
      ensures I == old(I) && K == old(K) && V == old(V) && W == old(W) && drawn == old(drawn)
    {
      this.maxEpochs := maxEpochs;
    }

    /** `setEta`. */
    method SetEta(eta: real)
      modifies this
      ensures this.eta == eta && Emin == old(Emin) && maxEpochs == old(maxEpochs) && J == old(J)
      ensures I == old(I) && K == old(K) && V == old(V) && W == old(W) && drawn == old(drawn)
    {
      this.eta := eta;
    }
  }

  /** The split loop of BP.java's `holdOut`: the first SplitPoint examples
      go to a new training set and the rest to a new testing set, and no
      label is copied into either. */
  method SplitWithoutLabels(p: real, ds: DataSet) returns (training: DataSet, testing: DataSet)
    ensures fresh(training) && fresh(testing) && training != testing
    ensures var k := SplitPoint(|ds.examples|, p);
      training.examples == ds.examples[..k] && testing.examples == ds.examples[k..]
    ensures training.labels == [] && testing.labels == []
  {
    var xs := ds.examples;
    var n := |xs|;
    var trainSize := TrainSize(n, p);
    ghost var k := SplitPoint(n, p);
    training := new DataSet();
    testing := new DataSet();
    var i := 0;
    while i < n
      invariant 0 <= i <= n
      invariant fresh(training) && fresh(testing) && training != testing
      invariant var c := if i < k then i else k;
        training.examples == xs[..c] && testing.examples == xs[c..i]
      invariant training.labels == [] && testing.labels == []
    {
      if i < trainSize {
        training.Add(xs[i]);
        SliceNext(xs, 0, i);
      } else {
        testing.Add(xs[i]);
        SliceNext(xs, k, i);
      }
      i := i + 1;
    }
  }
}
