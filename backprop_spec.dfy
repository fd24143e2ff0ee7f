/** The back-propagation network of BP.java as values: a forward pass, the
    error signals, one weight update per example, the epoch loop with its
    loss threshold, and the two ways of thresholding the output. The class
    in backprop.dfy is proved against these definitions. */
module BackpropSpec {
  import opened Outcomes
  import opened Vectors

  /** A value `Math.exp` can return. */
  type Positive = r: real | r > 0.0 witness 1.0

  /** A value `Random.nextDouble` can return. */
  type Unit = r: real | 0.0 <= r < 1.0 witness 0.0

  /** The sigmoid steepness the constructor fixes and nothing changes. */
  const Lambda: real := 1.0

  /** The range the initial weights are drawn from. */
  const Min: real := -1.0
  const Max: real := 1.0

  /** The output threshold that separates the two classes once the output is a sigmoid. */
  const Cut: real := 0.5

  // ---------------------------------------------------------------------
  // Activation and initial weights
  // ---------------------------------------------------------------------

  /** `sigmoid(z) = 1 / (1 + exp(-lambda * z))`, with exp supplied by the caller. */
  function Sigmoid(exp: real -> Positive, z: real): (r: real)
    ensures 0.0 < r < 1.0
  {
    var e := exp(-Lambda * z);
    assert 1.0 + e > 1.0;
    1.0 / (1.0 + e)
  }

  /** What the real exponential does around 1: below 1 exactly for negative arguments. */
  ghost predicate ExpLike(exp: real -> Positive) {
    forall z :: exp(z) < 1.0 <==> z < 0.0
  }

  /** For an exp that behaves like the exponential, the sigmoid exceeds one
      half exactly when its argument is positive. */
  lemma {:induction false} SigmoidAboveCut(exp: real -> Positive, z: real)
    requires ExpLike(exp)
    ensures Sigmoid(exp, z) > Cut <==> z > 0.0
  {
    var e := exp(-Lambda * z);
    assert Sigmoid(exp, z) == 1.0 / (1.0 + e);
    assert 1.0 / (1.0 + e) > 0.5 <==> e < 1.0;
  }

  /** `min + (max - min) * r`: a generator value spread over [min, max). */
  function Scale(r: Unit): (w: real)
    ensures Min <= w < Max
  {
    Min + (Max - Min) * r
  }

  /** The two weight matrices. */
  datatype Net = Net(V: Mat, W: Mat)

  /** The shape training keeps: V is J x I and W is 1 x J. */
  ghost predicate Shaped(net: Net, I: nat, J: nat) {
    IsMat(net.V, J, I) && IsMat(net.W, 1, J)
  }

  /** `n` entries drawn one after another from generator value number `base` on. */
  function DrawRow(stream: nat -> Unit, base: nat, n: nat): (r: Vec)
    ensures |r| == n && forall i :: 0 <= i < n ==> r[i] == Scale(stream(base + i))
  {
    seq(n, i requires 0 <= i < n => Scale(stream(base + i)))
  }

  /** `rows` rows of `cols` entries, drawn row by row from value number `base` on. */
  function DrawMat(stream: nat -> Unit, base: nat, rows: nat, cols: nat): (r: Mat)
    ensures IsMat(r, rows, cols)
    ensures forall j, i :: 0 <= j < rows && 0 <= i < cols ==> Min <= r[j][i] < Max
  {
    seq(rows, j requires 0 <= j < rows => DrawRow(stream, base + RowStart(j, cols), cols))
  }

  /** Where row j of a matrix with `cols` columns starts in the draw order. */
  function RowStart(j: nat, cols: nat): nat {
    j * cols
  }

  /** `initializeVW`: V (J x I), then W (K x J), each row by row; entry number
      k of that order takes the generator's value number d + k. */
  function InitialNet(stream: nat -> Unit, d: nat, I: nat, J: nat, K: nat): (r: Net)
    ensures IsMat(r.V, J, I) && IsMat(r.W, K, J)
    ensures forall j, i :: 0 <= j < J && 0 <= i < I ==> Min <= r.V[j][i] < Max
    ensures forall k, j :: 0 <= k < K && 0 <= j < J ==> Min <= r.W[k][j] < Max
  {
    Net(DrawMat(stream, d, J, I), DrawMat(stream, d + RowStart(J, I), K, J))
  }

  // ---------------------------------------------------------------------
  // Forward pass
  // ---------------------------------------------------------------------

  /** The hidden layer of a network whose first J rows of V hold I weights
      each: unit j is the sigmoid of sum_{i<I} x[i] * V[j][i]. */
  function Hidden(exp: real -> Positive, V: Mat, I: nat, J: nat, x: Vec): (h: Vec)
    requires Covers(V, J, I) && (J == 0 || I <= |x|)
    ensures |h| == J
  {
    seq(J, j requires 0 <= j < J => Sigmoid(exp, Dot(x, V[j], I)))
  }

  /** `computeHiddenLayerOutput` on any state: V is None before the first
      training. A non-empty sum reads x[0] before V, so an empty example
      fails on the example and a missing V only after it. */
  ghost function HiddenLayer(exp: real -> Positive, V: Option<Mat>, I: nat, J: int, x: Vec): (r: Result<Vec>)
    ensures r.Success? ==> |r.value| == if J < 0 then 0 else J
    ensures r.Failure? <==> J > 0 && I > 0 && (|x| < I || V.None? || !Covers(V.value, J, I))
  {
    if J <= 0 then Success([])
    else if I == 0 then Success(seq(J, _ => Sigmoid(exp, 0.0)))
    else if |x| == 0 then Failure(IndexOutOfBounds)
    else if V.None? then Failure(NullPointer)
    else if |x| < I || !Covers(V.value, J, I) then Failure(IndexOutOfBounds)
    else Success(Hidden(exp, V.value, I, J, x))
  }

  /** The output unit's net input, sum_{j<J} h[j] * W[0][j]: only row 0 of W is read. */
  function OutputSum(W: Mat, J: nat, h: Vec): (r: real)
    requires 1 <= |W| && J <= |W[0]| && J <= |h|
    ensures r == Dot(h, W[0][..J], J)
    ensures (forall j :: 0 <= j < J ==> W[0][j] == 0.0) ==> r == 0.0
  {
    DotPrefix(h, W[0], W[0][..J], J);
    DotZeroRight(h, W[0], J);
    Dot(h, W[0], J)
  }

  /** The output unit's activation. */
  function Output(exp: real -> Positive, W: Mat, J: nat, h: Vec): (o: real)
    requires 1 <= |W| && J <= |W[0]| && J <= |h|
    ensures 0.0 < o < 1.0
    ensures J == 0 ==> o == Sigmoid(exp, 0.0)
  {
    Sigmoid(exp, OutputSum(W, J, h))
  }

  /** The output unit's net input on any state, or the exception reading it
      raises; with no hidden unit the sum is empty and W is not read. */
  ghost function OutputNet(W: Option<Mat>, J: int, h: Vec): (r: Result<real>)
    ensures r.Failure? <==> J > 0 && (|h| < J || W.None? || |W.value| == 0 || |W.value[0]| < J)
  {
    if J <= 0 then Success(0.0)
    else if |h| == 0 then Failure(IndexOutOfBounds)
    else if W.None? then Failure(NullPointer)
    else if |h| < J || |W.value| == 0 || |W.value[0]| < J then Failure(IndexOutOfBounds)
    else Success(OutputSum(W.value, J, h))
  }

  /** `computeOutputLayerOutput` on any state. */
  ghost function OutputLayer(exp: real -> Positive, W: Option<Mat>, J: int, h: Vec): (r: Result<real>)
    ensures r.Success? ==> 0.0 < r.value < 1.0
  {
    match OutputNet(W, J, h)
    case Failure(e) => Failure(e)
    case Success(z) => Success(Sigmoid(exp, z))
  }

  /** On a network that covers the layer sizes, the forward pass succeeds
      and is the sum formula. */
  lemma {:induction false} ForwardOfShaped(exp: real -> Positive, net: Net, I: nat, J: nat, x: Vec)
    requires Shaped(net, I, J) && (J == 0 || I <= |x|)
    ensures Covers(net.V, J, I)
    ensures HiddenLayer(exp, Some(net.V), I, J, x) == Success(Hidden(exp, net.V, I, J, x))
    ensures OutputNet(Some(net.W), J, Hidden(exp, net.V, I, J, x)) ==
            Success(OutputSum(net.W, J, Hidden(exp, net.V, I, J, x)))
  {
    if J > 0 && I == 0 {
      assert Hidden(exp, net.V, I, J, x) == seq(J, _ => Sigmoid(exp, 0.0));
    }
  }

  // ---------------------------------------------------------------------
  // Classification
  // ---------------------------------------------------------------------

  /** The forward pass followed by a threshold on the output activation:
      +1 above `cut`, -1 otherwise. */
  ghost function Predict(exp: real -> Positive, V: Option<Mat>, W: Option<Mat>, I: nat, J: int, x: Vec, cut: real): (r: Result<real>)
    ensures r.Success? ==> r.value == 1.0 || r.value == -1.0
    ensures r.Success? <==>
      (HiddenLayer(exp, V, I, J, x).Success? && OutputNet(W, J, HiddenLayer(exp, V, I, J, x).value).Success?)
  {
    match HiddenLayer(exp, V, I, J, x)
    case Failure(e) => Failure(e)
    case Success(h) =>
      match OutputLayer(exp, W, J, h)
      case Failure(e) => Failure(e)
      case Success(o) => Success(if o > cut then 1.0 else -1.0)
  }

  /** The hidden layer, then the sign of the output unit's net input. */
  ghost function SignOfNet(exp: real -> Positive, V: Option<Mat>, W: Option<Mat>, I: nat, J: int, x: Vec): Result<real> {
    match HiddenLayer(exp, V, I, J, x)
    case Failure(e) => Failure(e)
    case Success(h) =>
      match OutputNet(W, J, h)
      case Failure(e) => Failure(e)
      case Success(z) => Success(if z > 0.0 then 1.0 else -1.0)
  }

  /** The hidden layer and the output's net input, then +1 whatever they are. */
  ghost function AlwaysPositive(exp: real -> Positive, V: Option<Mat>, W: Option<Mat>, I: nat, J: int, x: Vec): Result<real> {
    match HiddenLayer(exp, V, I, J, x)
    case Failure(e) => Failure(e)
    case Success(h) =>
      match OutputNet(W, J, h)
      case Failure(e) => Failure(e)
      case Success(_) => Success(1.0)
  }

  /** Thresholding a sigmoid at 0, as `classify` does, answers +1 for every
      example the forward pass gets through. */
  lemma {:induction false} ThresholdZeroAlwaysPositive(exp: real -> Positive, V: Option<Mat>, W: Option<Mat>, I: nat, J: int, x: Vec)
    ensures Predict(exp, V, W, I, J, x, 0.0) == AlwaysPositive(exp, V, W, I, J, x)
  {
  }

  /** Thresholding at one half gives the sign of the output's net input. */
  lemma {:induction false} ThresholdCutFollowsNetInput(exp: real -> Positive, V: Option<Mat>, W: Option<Mat>, I: nat, J: int, x: Vec)
    requires ExpLike(exp)
    ensures Predict(exp, V, W, I, J, x, Cut) == SignOfNet(exp, V, W, I, J, x)
  {
    var hl := HiddenLayer(exp, V, I, J, x);
    if hl.Success? {
      var on := OutputNet(W, J, hl.value);
      if on.Success? {
        SigmoidAboveCut(exp, on.value);
      }
    }
  }

  // ---------------------------------------------------------------------
  // One training step
  // ---------------------------------------------------------------------

  /** `delta_output = (y - o) * o * (1 - o)`, the raw label as the target. */
  function DeltaOut(y: real, o: real): (d: real)
    ensures 0.0 < o < 1.0 ==> (d > 0.0 <==> y > o) && (d == 0.0 <==> y == o)
  {
    var g := o * (1.0 - o);
    assert 0.0 < o < 1.0 ==> g > 0.0 by {
      if 0.0 < o < 1.0 {
        var q := 1.0 - o;
        assert q > 0.0;
        assert o * q > 0.0;
      }
    }
    assert (y - o) * o * (1.0 - o) == (y - o) * g;
    (y - o) * o * (1.0 - o)
  }

  /** `delta_hidden[j] = h_j * (1 - h_j) * W[0][j] * delta_output`. */
  function DeltaHidden(h: real, w: real, d: real): (r: real)
    ensures 0.0 < h < 1.0 ==> (r > 0.0 <==> w * d > 0.0) && (r == 0.0 <==> w == 0.0 || d == 0.0)
  {
    var g := h * (1.0 - h);
    assert 0.0 < h < 1.0 ==> g > 0.0;
    assert h * (1.0 - h) * w * d == g * (w * d);
    h * (1.0 - h) * w * d
  }

  /** `0.5 * (y - o)^2`, one example's share of the epoch error. */
  function Loss(y: real, o: real): (r: real)
    ensures r >= 0.0
  {
    0.5 * ((y - o) * (y - o))
  }

  /** The hidden error signals, from the weights `w` of W's row 0. */
  function HiddenDeltas(h: Vec, w: Vec, d: real, J: nat): (r: Vec)
    requires J <= |h| && J <= |w|
    ensures |r| == J
  {
    seq(J, j requires 0 <= j < J => DeltaHidden(h[j], w[j], d))
  }

  /** The hidden error signals grow one unit at a time. */
  lemma {:induction false} HiddenDeltasNext(h: Vec, w: Vec, d: real, j: nat)
    requires j < |h| && j < |w|
    ensures HiddenDeltas(h, w, d, j + 1) == HiddenDeltas(h, w, d, j) + [DeltaHidden(h[j], w[j], d)]
  {
  }

  /** Step 5 of `updateWeights`: W[0][j] += eta * delta_output * h_j for
      j < J; every other entry of W stays. */
  function UpdateW(W: Mat, eta: real, d: real, h: Vec, J: nat): (r: Mat)
    requires 1 <= |W| && J <= |W[0]| && J <= |h|
    ensures |r| == |W| && forall k :: 0 <= k < |W| ==> |r[k]| == |W[k]|
  {
    W[0 := seq(|W[0]|, j requires 0 <= j < |W[0]| => if j < J then Adjust(W[0][j], eta, d, h[j]) else W[0][j])]
  }

  /** Step 6 of `updateWeights`: V[j][i] += eta * delta_hidden[j] * x_i for
      j < J and i < I; every other entry of V stays. */
  function UpdateV(V: Mat, eta: real, dh: Vec, x: Vec, I: nat, J: nat): (r: Mat)
    requires Covers(V, J, I) && J <= |dh| && (J == 0 || I <= |x|)
    ensures |r| == |V| && forall j :: 0 <= j < |V| ==> |r[j]| == |V[j]|
  {
    seq(|V|, j requires 0 <= j < |V| =>
      seq(|V[j]|, i requires 0 <= i < |V[j]| =>
        if j < J && i < I then Adjust(V[j][i], eta, dh[j], x[i]) else V[j][i]))
  }

  /** The training settings: learning rate, error threshold, layer sizes and exp. */
  datatype Params = Params(eta: real, Emin: real, I: nat, J: nat, exp: real -> Positive)

  /** Steps 2 to 6 for one example: forward pass, error signals (the hidden
      ones from W before it changes), then the update of W and of V. */
  function Step(c: Params, net: Net, x: Vec, y: real): (r: Net)
    requires Shaped(net, c.I, c.J) && (c.J == 0 || c.I <= |x|)
    ensures Shaped(r, c.I, c.J)
  {
    assert Covers(net.V, c.J, c.I);
    var h := Hidden(c.exp, net.V, c.I, c.J, x);
    var o := Output(c.exp, net.W, c.J, h);
    var d := DeltaOut(y, o);
    var r := Net(UpdateV(net.V, c.eta, HiddenDeltas(h, net.W[0], d, c.J), x, c.I, c.J),
                 UpdateW(net.W, c.eta, d, h, c.J));
    assert IsMat(r.V, c.J, c.I);
    r
  }

  /** Step and StepLoss in terms of the intermediate values a loop computes. */
  lemma {:induction false} StepUnfolds(c: Params, net: Net, x: Vec, y: real, h: Vec, o: real, d: real, dh: Vec)
    requires Shaped(net, c.I, c.J) && (c.J == 0 || c.I <= |x|)
    requires Covers(net.V, c.J, c.I) && h == Hidden(c.exp, net.V, c.I, c.J, x)
    requires o == Output(c.exp, net.W, c.J, h) && d == DeltaOut(y, o)
    requires dh == HiddenDeltas(h, net.W[0], d, c.J)
    ensures Step(c, net, x, y) == Net(UpdateV(net.V, c.eta, dh, x, c.I, c.J), UpdateW(net.W, c.eta, d, h, c.J))
    ensures StepLoss(c, net, x, y) == Loss(y, o)
  {
  }

  /** Step 3 for one example: its contribution to the epoch error. */
  function StepLoss(c: Params, net: Net, x: Vec, y: real): (e: real)
    requires Shaped(net, c.I, c.J) && (c.J == 0 || c.I <= |x|)
    ensures e >= 0.0
  {
    assert Covers(net.V, c.J, c.I);
    Loss(y, Output(c.exp, net.W, c.J, Hidden(c.exp, net.V, c.I, c.J, x)))
  }

  // ---------------------------------------------------------------------
  // Epochs
  // ---------------------------------------------------------------------

  /** The end of an epoch: the network and the accumulated error, or the
      network as it was when a missing label or a short example threw. */
  datatype Epoch = Done(net: Net, E: real) | Crash(net: Net)

  /** The example loop of `train` from example m on, with E accumulated so far. */
  function EpochFrom(c: Params, net: Net, xs: seq<Vec>, ys: seq<real>, m: nat, E: real): (r: Epoch)
    requires Shaped(net, c.I, c.J)
    ensures Shaped(r.net, c.I, c.J)
    ensures r.Done? ==> r.E >= E
    decreases |xs| - m
  {
    if m >= |xs| then Done(net, E)
    else if m >= |ys| || (c.J > 0 && |xs[m]| < c.I) then Crash(net)
    else EpochFrom(c, Step(c, net, xs[m], ys[m]), xs, ys, m + 1, E + StepLoss(c, net, xs[m], ys[m]))
  }

  /** How `train` ends: with the trained network and the number of epochs
      run, or with the network at the point an epoch threw. */
  datatype Training = Trained(net: Net, epochs: nat) | Crashed(net: Net)

  /** The epoch loop of `train` from epoch counter q on: it stops after an
      epoch whose error is below E_min, and also, silently, when the budget
      of epochs is used up. */
  function EpochsFrom(c: Params, net: Net, xs: seq<Vec>, ys: seq<real>, q: nat, budget: nat): (r: Training)
    requires Shaped(net, c.I, c.J)
    ensures Shaped(r.net, c.I, c.J)
    decreases budget - q
  {
    if q >= budget then Trained(net, q)
    else
      match EpochFrom(c, net, xs, ys, 0, 0.0)
      case Crash(n) => Crashed(n)
      case Done(n, E) => if E < c.Emin then Trained(n, q + 1) else EpochsFrom(c, n, xs, ys, q + 1, budget)
  }

  /** `for (int q = 0; q < maxEpochs; q++)` with a double bound: the number
      of counter values q >= 0 below maxEpochs. */
  function Budget(maxEpochs: real): (n: nat)
    ensures maxEpochs <= n as real
    ensures n == 0 || (n - 1) as real < maxEpochs
  {
    if maxEpochs <= 0.0 then 0
    else if maxEpochs.Floor as real == maxEpochs then maxEpochs.Floor
    else maxEpochs.Floor + 1
  }

  /** The loop test `q < maxEpochs` holds exactly for the first Budget(maxEpochs) counter values. */
  lemma {:induction false} BudgetCounts(maxEpochs: real, q: nat)
    ensures q as real < maxEpochs <==> q < Budget(maxEpochs)
  {
  }

  /** The network after k epochs with the loss test switched off, with the
      error of the k-th epoch (0 before any epoch). */
  function After(c: Params, net: Net, xs: seq<Vec>, ys: seq<real>, k: nat): (r: Epoch)
    requires Shaped(net, c.I, c.J)
    ensures Shaped(r.net, c.I, c.J)
  {
    if k == 0 then Done(net, 0.0)
    else
      match After(c, net, xs, ys, k - 1)
      case Crash(n) => Crash(n)
      case Done(n, _) => EpochFrom(c, n, xs, ys, 0, 0.0)
  }

  /** Epoch k ran to its end with error at least E_min, so training goes on. */
  ghost predicate Continues(c: Params, net: Net, xs: seq<Vec>, ys: seq<real>, k: nat) {
    Shaped(net, c.I, c.J) && After(c, net, xs, ys, k).Done? && After(c, net, xs, ys, k).E >= c.Emin
  }

  lemma {:induction false} StoppingRuleFrom(c: Params, net: Net, xs: seq<Vec>, ys: seq<real>, q: nat, budget: nat)
    requires Shaped(net, c.I, c.J) && q <= budget
    requires After(c, net, xs, ys, q).Done?
    requires forall k :: 1 <= k <= q ==> Continues(c, net, xs, ys, k)
    ensures var r := EpochsFrom(c, After(c, net, xs, ys, q).net, xs, ys, q, budget);
      r.Trained? ==>
        q <= r.epochs <= budget &&
        After(c, net, xs, ys, r.epochs).Done? && After(c, net, xs, ys, r.epochs).net == r.net &&
        (forall k :: 1 <= k < r.epochs ==> Continues(c, net, xs, ys, k)) &&
        (r.epochs < budget ==> 1 <= r.epochs && After(c, net, xs, ys, r.epochs).E < c.Emin)
    decreases budget - q
  {
    var now := After(c, net, xs, ys, q).net;
    if q < budget {
      var e := EpochFrom(c, now, xs, ys, 0, 0.0);
      assert After(c, net, xs, ys, q + 1) == e;
      if e.Done? {
        if e.E >= c.Emin {
          assert EpochsFrom(c, now, xs, ys, q, budget) == EpochsFrom(c, e.net, xs, ys, q + 1, budget);
          StoppingRuleFrom(c, net, xs, ys, q + 1, budget);
        } else {
          assert EpochsFrom(c, now, xs, ys, q, budget) == Trained(e.net, q + 1);
        }
      }
    } else {
      assert EpochsFrom(c, now, xs, ys, q, budget) == Trained(now, q);
    }
  }

  /** The stopping rule: when `train` returns, it has run r.epochs epochs,
      no more than the budget; every epoch before the last had error at
      least E_min; and if it stopped early, the last epoch's error was below
      E_min. */
  lemma {:induction false} StoppingRule(c: Params, net: Net, xs: seq<Vec>, ys: seq<real>, budget: nat)
    requires Shaped(net, c.I, c.J)
    ensures var r := EpochsFrom(c, net, xs, ys, 0, budget);
      r.Trained? ==>
        r.epochs <= budget &&
        After(c, net, xs, ys, r.epochs).Done? && After(c, net, xs, ys, r.epochs).net == r.net &&
        (forall k :: 1 <= k < r.epochs ==> Continues(c, net, xs, ys, k)) &&
        (r.epochs < budget ==> 1 <= r.epochs && After(c, net, xs, ys, r.epochs).E < c.Emin)
  {
    StoppingRuleFrom(c, net, xs, ys, 0, budget);
  }

  lemma {:induction false} ExhaustionFrom(c: Params, net: Net, xs: seq<Vec>, ys: seq<real>, q: nat, budget: nat)
    requires Shaped(net, c.I, c.J) && q <= budget
    requires forall k :: 1 <= k <= budget ==> Continues(c, net, xs, ys, k)
    requires After(c, net, xs, ys, q).Done?
    ensures EpochsFrom(c, After(c, net, xs, ys, q).net, xs, ys, q, budget) == Trained(After(c, net, xs, ys, budget).net, budget)
    decreases budget - q
  {
    var now := After(c, net, xs, ys, q).net;
    if q < budget {
      var e := EpochFrom(c, now, xs, ys, 0, 0.0);
      assert After(c, net, xs, ys, q + 1) == e;
      assert Continues(c, net, xs, ys, q + 1);
      assert EpochsFrom(c, now, xs, ys, q, budget) == EpochsFrom(c, e.net, xs, ys, q + 1, budget);
      ExhaustionFrom(c, net, xs, ys, q + 1, budget);
    }
  }

  /** Running out of epochs is not an error: if no epoch of the budget gets
      below E_min, training still ends normally, after all of them. */
  lemma {:induction false} ExhaustionIsSilent(c: Params, net: Net, xs: seq<Vec>, ys: seq<real>, budget: nat)
    requires Shaped(net, c.I, c.J)
    requires forall k :: 1 <= k <= budget ==> Continues(c, net, xs, ys, k)
    ensures EpochsFrom(c, net, xs, ys, 0, budget) == Trained(After(c, net, xs, ys, budget).net, budget)
  {
    ExhaustionFrom(c, net, xs, ys, 0, budget);
  }

  /** Training examples without labels: the first epoch throws on label 0,
      before any weight changes. */
  lemma {:induction false} UnlabelledTrainingCrashes(c: Params, net: Net, xs: seq<Vec>, budget: nat)
    requires Shaped(net, c.I, c.J) && |xs| > 0 && budget > 0
    ensures EpochsFrom(c, net, xs, [], 0, budget) == Crashed(net)
  {
  }

  /** `train` after the layer sizes are set: initial weights drawn from
      generator value number d on, then the epoch loop. */
  function Run(c: Params, stream: nat -> Unit, d: nat, xs: seq<Vec>, ys: seq<real>, budget: nat): (r: Training)
    ensures Shaped(r.net, c.I, c.J)
  {
    EpochsFrom(c, InitialNet(stream, d, c.I, c.J, 1), xs, ys, 0, budget)
  }

  /** `train` on examples without labels: the initial weights are drawn,
      then the first epoch throws, unless the budget allows no epoch. */
  lemma {:induction false} UnlabelledRun(c: Params, stream: nat -> Unit, d: nat, xs: seq<Vec>, budget: nat)
    requires |xs| > 0
    ensures Run(c, stream, d, xs, [], budget) ==
      if budget > 0 then Crashed(InitialNet(stream, d, c.I, c.J, 1)) else Trained(InitialNet(stream, d, c.I, c.J, 1), 0)
  {
    if budget > 0 {
      UnlabelledTrainingCrashes(c, InitialNet(stream, d, c.I, c.J, 1), xs, budget);
    }
  }

  /** What the caller of `train` sees: only a crash is an exception. */
  function TrainOutcome(t: Training): (r: Outcome)
    ensures r.Pass? <==> t.Trained?
    ensures r.Fail? ==> r.error == IndexOutOfBounds
  {
    if t.Crashed? then Fail(IndexOutOfBounds) else Pass
  }

  /** `classify(DataSet)`'s loop: the predicted labels in order, or the first exception. */
  ghost function PredictAll(exp: real -> Positive, V: Option<Mat>, W: Option<Mat>, I: nat, J: int, xs: seq<Vec>, cut: real): (r: Result<seq<real>>)
    ensures r.Success? <==> forall k :: 0 <= k < |xs| ==> Predict(exp, V, W, I, J, xs[k], cut).Success?
    ensures r.Success? ==> |r.value| == |xs|
    ensures r.Success? ==> forall k :: 0 <= k < |xs| ==> Predict(exp, V, W, I, J, xs[k], cut) == Success(r.value[k])
    decreases |xs|
  {
    if |xs| == 0 then Success([])
    else
      assert forall k :: 1 <= k < |xs| ==> xs[1..][k - 1] == xs[k];
      match Predict(exp, V, W, I, J, xs[0], cut)
      case Failure(e) => Failure(e)
      case Success(y) => Prefixed([y], PredictAll(exp, V, W, I, J, xs[1..], cut))
  }

  /** With the threshold at 0, as `classify` has it, the prediction list is
      +1 for every example whenever no example throws. */
  lemma {:induction false} PredictAllZeroCut(exp: real -> Positive, V: Option<Mat>, W: Option<Mat>, I: nat, J: int, xs: seq<Vec>)
    ensures var r := PredictAll(exp, V, W, I, J, xs, 0.0);
      r.Success? ==> r.value == seq(|xs|, _ => 1.0)
  {
    var r := PredictAll(exp, V, W, I, J, xs, 0.0);
    if r.Success? {
      forall k | 0 <= k < |xs|
        ensures r.value[k] == 1.0
      {
        ThresholdZeroAlwaysPositive(exp, V, W, I, J, xs[k]);
      }
    }
  }

  /** Predictions `p` in front of a later result, if that result is not an exception. */
  function Prefixed(p: seq<real>, r: Result<seq<real>>): Result<seq<real>> {
    match r
    case Failure(e) => Failure(e)
    case Success(ys) => Success(p + ys)
  }

  /** PredictAll on a suffix of xs from i, one prediction at a time: a
      failure ends the list, a prediction is put in front of the rest. */
  lemma {:induction false} PredictAllFrom(exp: real -> Positive, V: Option<Mat>, W: Option<Mat>, I: nat, J: int, xs: seq<Vec>, i: nat, cut: real,
                       done: seq<real>)
    requires i < |xs|
    ensures var rest := PredictAll(exp, V, W, I, J, xs[i + 1..], cut);
      match Predict(exp, V, W, I, J, xs[i], cut)
      case Failure(e) => Prefixed(done, PredictAll(exp, V, W, I, J, xs[i..], cut)) == Failure(e)
      case Success(y) => Prefixed(done, PredictAll(exp, V, W, I, J, xs[i..], cut)) == Prefixed(done + [y], rest)
  {
    assert xs[i..][1..] == xs[i + 1..];
    var rest := PredictAll(exp, V, W, I, J, xs[i + 1..], cut);
    if rest.Success? {
      assert forall y :: done + ([y] + rest.value) == (done + [y]) + rest.value;
    }
  }

  /** `classify(DataSet)`: the accuracy of the predictions against the labels. */
  ghost function Evaluate(exp: real -> Positive, V: Option<Mat>, W: Option<Mat>, I: nat, J: int, xs: seq<Vec>, ys: seq<real>,
                          cut: real, accuracy: (seq<real>, seq<real>) -> real): (r: Result<real>)
    ensures r.Success? <==> forall k :: 0 <= k < |xs| ==> Predict(exp, V, W, I, J, xs[k], cut).Success?
  {
    match PredictAll(exp, V, W, I, J, xs, cut)
    case Failure(e) => Failure(e)
    case Success(ps) => Success(accuracy(ys, ps))
  }
}
