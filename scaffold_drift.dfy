/**
 * What one local run does to the coordinates of a parameter that has a
 * gradient at every step, when the optimizer is plain SGD at a constant
 * learning rate `eta`, and what the end-of-run control-variate update then
 * reports.  Under these conditions the SCAFFOLD paper's Option II update
 * recovers the mean local gradient; the update the callback computes does not.
 */
module ScaffoldDrift {
  import opened Common
  import opened Scaffold

  /** One step on one coordinate: the optimizer's move `y - eta * g`, then the callback's shift. */
  function CorrectedStep(y: real, g: real, eta: real, ci: real, c: real): real
  {
    (y - eta * g) + eta * ci - eta * c
  }

  /** The coordinate after the steps whose gradients are `gs`, starting from `x`. */
  function LocalRun(x: real, gs: seq<real>, eta: real, ci: real, c: real): real
  {
    if gs == [] then x
    else CorrectedStep(LocalRun(x, gs[..|gs| - 1], eta, ci, c), gs[|gs| - 1], eta, ci, c)
  }

  function Sum(gs: seq<real>): real
  {
    if gs == [] then 0.0 else Sum(gs[..|gs| - 1]) + gs[|gs| - 1]
  }

  /** After `K` steps the coordinate has moved by `-eta * (sum of gradients) + K * eta * (c_i - c)`. */
  lemma {:induction false} LocalRunDisplacement(x: real, gs: seq<real>, eta: real, ci: real, c: real)
    ensures LocalRun(x, gs, eta, ci, c) == x - eta * Sum(gs) + (|gs| as real) * eta * (ci - c)
  {
    if gs != [] {
      var n := |gs| - 1;
      LocalRunDisplacement(x, gs[..n], eta, ci, c);
      calc {
        LocalRun(x, gs, eta, ci, c);
        (LocalRun(x, gs[..n], eta, ci, c) - eta * gs[n]) + eta * ci - eta * c;
        (x - eta * Sum(gs[..n]) + (n as real) * eta * (ci - c) - eta * gs[n]) + eta * (ci - c);
        x - eta * (Sum(gs[..n]) + gs[n]) + ((n as real) * eta * (ci - c) + eta * (ci - c));
        { assert (n as real) * eta * (ci - c) + eta * (ci - c) == ((n + 1) as real) * eta * (ci - c); }
        x - eta * Sum(gs) + (|gs| as real) * eta * (ci - c);
      }
    }
  }

  /** Real-number step of `ScaledDisplacement`: dividing out the common factor `eta`. */
  lemma DivideOutRate(x: real, y: real, s: real, dc: real, K: real, eta: real)
    requires K != 0.0 && eta != 0.0
    requires y == x - eta * s + K * eta * dc
    ensures (x - y) / (K * eta) == s / K - dc
  {
    var q := s / K - dc;
    assert (s / K) * K == s;
    assert q * (K * eta) == x - y;
  }

  /** `(x - y) / (K * eta)` after a run of `K` steps is the mean gradient minus `c_i - c`. */
  lemma ScaledDisplacement(x: real, gs: seq<real>, eta: real, ci: real, c: real)
    requires |gs| > 0 && eta != 0.0
    ensures (x - LocalRun(x, gs, eta, ci, c)) / ((|gs| as real) * eta) == Sum(gs) / (|gs| as real) - (ci - c)
  {
    LocalRunDisplacement(x, gs, eta, ci, c);
    DivideOutRate(x, LocalRun(x, gs, eta, ci, c), Sum(gs), ci - c, |gs| as real, eta);
  }

  /** Option II of the SCAFFOLD paper: `c_i - c + (x - y) / d` on each coordinate, `d = K * eta`. */
  function OptionTwoUpdate(ci: seq<real>, c: seq<real>, x: seq<real>, y: seq<real>, d: real): seq<real>
    requires d != 0.0
  {
    var n := Min(|ci|, Min(|c|, Zip3Len(ci, x, y)));
    seq(n, k requires 0 <= k < n => ci[k] - c[k] + (x[k] - y[k]) / d)
  }

  /** The weights after one run in which every coordinate `k` sees the gradients `gs[k]`. */
  function RunAll(x: seq<real>, gs: seq<seq<real>>, eta: real, ci: seq<real>, c: seq<real>): (y: seq<real>)
    requires |gs| == |x| == |ci| == |c|
  {
    seq(|x|, k requires 0 <= k < |x| => LocalRun(x[k], gs[k], eta, ci[k], c[k]))
  }

  /** The mean gradient of every coordinate. */
  function MeanGradients(gs: seq<seq<real>>, K: nat): seq<real>
    requires K > 0
  {
    seq(|gs|, k requires 0 <= k < |gs| => Sum(gs[k]) / (K as real))
  }

  /**
   * Corrected update: after `K` steps the paper's Option II sets each
   * coordinate of `c_i` to that coordinate's mean local gradient, whatever
   * `c_i` and `c` were.
   */
  lemma OptionTwoRecoversMeanGradient(ci: seq<real>, c: seq<real>, x: seq<real>, gs: seq<seq<real>>, eta: real, K: nat)
    requires K > 0 && eta != 0.0
    requires |gs| == |x| == |ci| == |c|
    requires forall k :: 0 <= k < |gs| ==> |gs[k]| == K
    ensures OptionTwoUpdate(ci, c, x, RunAll(x, gs, eta, ci, c), (K as real) * eta) == MeanGradients(gs, K)
  {
    var y := RunAll(x, gs, eta, ci, c);
    var r := OptionTwoUpdate(ci, c, x, y, (K as real) * eta);
    assert |r| == |gs|;
    forall k | 0 <= k < |gs|
      ensures r[k] == MeanGradients(gs, K)[k]
    {
      ScaledDisplacement(x[k], gs[k], eta, ci[k], c[k]);
    }
  }

  /**
   * As written: the callback's update sets each coordinate of `c_i` to
   * `2 * c_i - c - mean gradient`, not to the mean gradient.
   */
  lemma AsWrittenDrift(ci: seq<real>, c: seq<real>, x: seq<real>, gs: seq<seq<real>>, eta: real, K: nat)
    requires K > 0 && eta != 0.0
    requires |gs| == |x| == |ci| == |c|
    requires forall k :: 0 <= k < |gs| ==> |gs[k]| == K
    ensures var r := UpdatedControlVariate(ci, x, RunAll(x, gs, eta, ci, c), (K as real) * eta);
      && |r| == |gs|
      && forall k :: 0 <= k < |gs| ==> r[k] == 2.0 * ci[k] - c[k] - MeanGradients(gs, K)[k]
  {
    var y := RunAll(x, gs, eta, ci, c);
    var r := UpdatedControlVariate(ci, x, y, (K as real) * eta);
    forall k | 0 <= k < |gs|
      ensures r[k] == 2.0 * ci[k] - c[k] - MeanGradients(gs, K)[k]
    {
      ScaledDisplacement(x[k], gs[k], eta, ci[k], c[k]);
    }
  }

  /**
   * A single coordinate, one step at rate 1 with gradient 0, `c_i = 0` and
   * `c = 1`: the mean gradient is 0, the callback stores -1, Option II stores 0.
   */
  lemma AsWrittenMissesMeanGradient()
    ensures var y := RunAll([0.0], [[0.0]], 1.0, [0.0], [1.0]);
      && y == [-1.0]
      && MeanGradients([[0.0]], 1) == [0.0]
      && UpdatedControlVariate([0.0], [0.0], y, 1.0) == [-1.0]
      && OptionTwoUpdate([0.0], [1.0], [0.0], y, 1.0) == [0.0]
  {
    var y := RunAll([0.0], [[0.0]], 1.0, [0.0], [1.0]);
    assert [0.0][..0] == [];
    assert LocalRun(0.0, [0.0], 1.0, 0.0, 1.0) == -1.0;
    assert y == [-1.0];
  }
}
