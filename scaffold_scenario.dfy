/**
 * Training runs of one client, driven through the hooks in the order the
 * trainer calls them.  The optimizer's own step is plain SGD, written out
 * here because it belongs to the trainer, not to the callback.
 */
module ScaffoldScenario {
  import opened Common
  import opened Training
  import opened Scaffold
  import opened ScaffoldDrift

  /** The trainer's SGD step with the gradient `g`; every parameter now has a gradient. */
  method SgdStep(m: LightningModule, g: seq<real>)
    requires |g| == |m.params|
    modifies m`params
    ensures |m.params| == |g|
    ensures forall k :: 0 <= k < |g| ==>
      m.params[k] == Param(old(m.params[k].data) - old(m.lr) * g[k], true)
  {
    var ps, lr := m.params, m.lr;
    m.params := seq(|g|, k requires 0 <= k < |g| => Param(ps[k].data - lr * g[k], true));
  }

  /**
   * One local step as the trainer runs it: the before-step hook, an SGD
   * step with gradient `g`, the after-step hook.  Each coordinate takes one
   * `CorrectedStep`.
   */
  method TrainingStep(cb: ScaffoldCallback, m: LightningModule, g: seq<real>)
    requires cb.Valid() && TrainStart in cb.hooks
    requires |g| == |m.params| == |cb.cI.value| == |cb.c.value|
    modifies cb`savedLr, cb`hooks, cb`K, m`params
    ensures cb.Valid() && TrainStart in cb.hooks
    ensures cb.K == old(cb.K) + 1 && cb.savedLr == Some(m.lr)
    ensures |m.params| == |g|
    ensures forall k :: 0 <= k < |g| ==>
      m.params[k].data == CorrectedStep(old(m.params[k].data), g[k], m.lr, cb.cI.value[k], cb.c.value[k])
  {
    cb.OnBeforeOptimizerStep(m);
    SgdStep(m, g);
    cb.OnAfterOptimizerStep(m);
  }

  /**
   * `steps` local steps as the trainer runs them, each one the before-step
   * hook, an SGD step with gradient `gs[k][j]` on parameter `k` at step `j`,
   * and the after-step hook.  The weights end where `RunAll` says, i.e. the
   * hooks carry out the per-coordinate run of `ScaffoldDrift`.
   */
  method LocalTraining(cb: ScaffoldCallback, m: LightningModule, gs: seq<seq<real>>, steps: nat)
    requires cb.Valid() && TrainStart in cb.hooks
    requires |gs| == |m.params| == |cb.cI.value| == |cb.c.value|
    requires forall k :: 0 <= k < |gs| ==> |gs[k]| == steps
    modifies cb`savedLr, cb`hooks, cb`K, m`params
    ensures cb.Valid() && TrainStart in cb.hooks
    ensures cb.K == old(cb.K) + steps
    ensures steps > 0 ==> cb.savedLr == Some(m.lr)
    ensures |m.params| == |gs|
    ensures Weights(m.params) == RunAll(old(Weights(m.params)), gs, m.lr, cb.cI.value, cb.c.value)
  {
    ghost var x := Weights(m.params);
    var j := 0;
    while j < steps
      invariant 0 <= j <= steps
      invariant cb.Valid() && TrainStart in cb.hooks
      invariant cb.K == old(cb.K) + j
      invariant j > 0 ==> cb.savedLr == Some(m.lr)
      invariant |m.params| == |gs|
      invariant forall k :: 0 <= k < |gs| ==>
        m.params[k].data == LocalRun(x[k], gs[k][..j], m.lr, cb.cI.value[k], cb.c.value[k])
    {
      TrainingStep(cb, m, seq(|gs|, k requires 0 <= k < |gs| => gs[k][j]));
      forall k | 0 <= k < |gs|
        ensures m.params[k].data == LocalRun(x[k], gs[k][..j + 1], m.lr, cb.cI.value[k], cb.c.value[k])
      {
        assert gs[k][..j + 1][..j] == gs[k][..j];
      }
      j := j + 1;
    }
    var y := Weights(m.params);
    var r := RunAll(x, gs, m.lr, cb.cI.value, cb.c.value);
    forall k | 0 <= k < |gs|
      ensures y[k] == r[k]
    {
      assert gs[k][..steps] == gs[k];
    }
  }

  /** `AsWrittenDrift` for a client whose `c_i` starts at zero. */
  lemma AsWrittenDriftFromZero(c: seq<real>, x: seq<real>, gs: seq<seq<real>>, eta: real, K: nat)
    requires K > 0 && eta != 0.0
    requires |gs| == |x| == |c|
    requires forall k :: 0 <= k < |gs| ==> |gs[k]| == K
    ensures var r := UpdatedControlVariate(Zeros(|gs|), x, RunAll(x, gs, eta, Zeros(|gs|), c), (K as real) * eta);
      && |r| == |gs|
      && forall k :: 0 <= k < |gs| ==> r[k] == -c[k] - MeanGradients(gs, K)[k]
  {
    AsWrittenDrift(Zeros(|gs|), c, x, gs, eta, K);
  }

  /** A fresh client's first run of `steps` local steps, up to its end hook. */
  method FirstRunSteps(m: LightningModule, globalC: seq<real>, gs: seq<seq<real>>, steps: nat)
    returns (cb: ScaffoldCallback)
    requires |gs| == |m.params| == |globalC|
    requires forall k :: 0 <= k < |gs| ==> |gs[k]| == steps
    modifies m`params
    ensures fresh(cb) && cb.Valid() && TrainStart in cb.hooks
    ensures cb.K == steps && (steps > 0 ==> cb.savedLr == Some(m.lr))
    ensures cb.cI == Some(Zeros(|gs|)) && cb.initialModelWeights == Some(old(Weights(m.params)))
    ensures Weights(m.params) == RunAll(old(Weights(m.params)), gs, m.lr, Zeros(|gs|), globalC)
  {
    cb := new ScaffoldCallback();
    cb.OnTrainStart(m, globalC);
    LocalTraining(cb, m, gs, steps);
  }

  /**
   * A client's first run of `steps` plain SGD steps at a constant rate ends
   * with `c_i = -c - mean gradient` on every coordinate: the as-written
   * update of `ScaffoldDrift.AsWrittenDrift`, reached through the hooks
   * themselves (`c_i` starts at zero and `K` at `steps`).
   */
  method FirstRunDrift(m: LightningModule, globalC: seq<real>, gs: seq<seq<real>>, steps: nat)
    returns (cb: ScaffoldCallback)
    requires steps > 0 && m.lr != 0.0
    requires |gs| == |m.params| == |globalC|
    requires forall k :: 0 <= k < |gs| ==> |gs[k]| == steps
    modifies m
    ensures fresh(cb) && cb.Valid() && cb.K == steps
    ensures cb.cI.Some? && |cb.cI.value| == |gs|
    ensures forall k :: 0 <= k < |gs| ==> cb.cI.value[k] == -globalC[k] - MeanGradients(gs, steps)[k]
  {
    ghost var x := Weights(m.params);
    cb := FirstRunSteps(m, globalC, gs, steps);
    cb.OnTrainEnd(m);
    AsWrittenDriftFromZero(globalC, x, gs, m.lr, steps);
  }

  /**
   * One local step of the runs below: before-step hook, SGD step with
   * gradient `[1, 2]` at rate 0.1, after-step hook.  With `c_i = [0, 0]` and
   * `c = [0.5, -0.5]` both weights drop by 0.15.
   */
  method ScenarioStep(cb: ScaffoldCallback, m: LightningModule)
    requires cb.Valid() && TrainStart in cb.hooks
    requires |cb.cI.value| == 2 && cb.cI.value[0] == 0.0 && cb.cI.value[1] == 0.0
    requires |cb.c.value| == 2 && cb.c.value[0] == 0.5 && cb.c.value[1] == -0.5
    requires m.lr == 0.1 && |m.params| == 2
    modifies cb`savedLr, cb`hooks, cb`K, m`params
    ensures cb.Valid() && TrainStart in cb.hooks
    ensures cb.savedLr == Some(0.1) && cb.K == old(cb.K) + 1
    ensures |m.params| == 2
    ensures m.params[0].data == old(m.params[0].data) - 0.15
    ensures m.params[1].data == old(m.params[1].data) - 0.15
  {
    cb.OnBeforeOptimizerStep(m);
    SgdStep(m, [1.0, 2.0]);
    cb.OnAfterOptimizerStep(m);
  }
  /**
   * From `x = [1, 2]`, with `c_i = [0, 0]` and `c = [0.5, -0.5]`, three
   * steps at rate 0.1 with gradient `[1, 2]` end at `y = [0.55, 1.55]`.
   */
  method FirstRun() returns (cb: ScaffoldCallback, m: LightningModule)
    ensures fresh(cb) && fresh(m)
    ensures cb.Valid() && TrainStart in cb.hooks
    ensures |cb.cI.value| == 2 && cb.cI.value[0] == 0.0 && cb.cI.value[1] == 0.0
    ensures |cb.initialModelWeights.value| == 2
    ensures cb.initialModelWeights.value[0] == 1.0 && cb.initialModelWeights.value[1] == 2.0
    ensures cb.c == Some([0.5, -0.5]) && cb.K == 3 && cb.savedLr == Some(0.1)
    ensures |m.params| == 2 && m.params[0].data == 0.55 && m.params[1].data == 1.55
  {
    m := new LightningModule([Param(1.0, false), Param(2.0, false)], 0.1);
    cb := new ScaffoldCallback();
    cb.OnTrainStart(m, [0.5, -0.5]);
    ScenarioStep(cb, m);
    ScenarioStep(cb, m);
    ScenarioStep(cb, m);
  }

  /**
   * The first run ends with `c_i = [-1.5, -1.5]`, `delta_y_i = [-0.45, -0.45]`
   * and `delta_c_i = [-1.5, -1.5]`.  The second run finds the server's
   * control variate changed but keeps the first snapshot, keeps the learned
   * `c_i`, and goes on counting steps from 3.
   */
  method TwoRuns()
  {
    var cb, m := FirstRun();
    cb.OnTrainEnd(m);
    var cNew := cb.cI.value;
    assert cNew[0] == -1.5 && cNew[1] == -1.5;
    var deltaY, deltaC := m.additionalInfo["delta_y_i"], m.additionalInfo["delta_c_i"];
    assert deltaY[0] == -0.45 && deltaY[1] == -0.45;
    assert deltaC[0] == -1.5 && deltaC[1] == -1.5;
    cb.OnTrainStart(m, [9.0, 9.0]);
    assert cb.c == Some([0.5, -0.5]);
    assert cb.cI == Some(cNew);
    assert cb.K == 3;
  }
}
