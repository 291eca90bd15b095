/**
 * The client side of SCAFFOLD (Karimireddy et al.): a Lightning callback
 * that shifts every local optimizer step by `eta_l * (c_i - c)` and, when
 * local training ends, updates the client control variate `c_i` and reports
 * the weight and control-variate deltas through `additional_info`.
 *
 * Parameter vectors are flattened to `seq<real>`; `zip` truncates to the
 * shortest of its arguments, and so do the functions below.
 */
module Scaffold {
  import opened Common
  import opened Training

  /** The hooks the trainer calls, in the order it calls them. */
  datatype Hook = TrainStart | BeforeStep | AfterStep | TrainEnd

  /** How often `h` occurs in the history `hs`. */
  function Count(hs: seq<Hook>, h: Hook): nat
  {
    if hs == [] then 0
    else Count(hs[..|hs| - 1], h) + (if hs[|hs| - 1] == h then 1 else 0)
  }

  lemma CountAppend(hs: seq<Hook>, x: Hook, h: Hook)
    ensures Count(hs + [x], h) == Count(hs, h) + (if x == h then 1 else 0)
  {
    assert (hs + [x])[..|hs|] == hs;
  }

  /** `torch.zeros_like` over every parameter. */
  function Zeros(n: nat): seq<real>
  {
    seq(n, _ => 0.0)
  }

  /** `[a - b for a, b in zip(xs, ys)]`. */
  function Diff(xs: seq<real>, ys: seq<real>): seq<real>
  {
    seq(Min(|xs|, |ys|), k requires 0 <= k < Min(|xs|, |ys|) => xs[k] - ys[k])
  }

  /** How many triples `zip(a, b, c)` yields. */
  function Zip3Len(a: seq<real>, b: seq<real>, c: seq<real>): nat
  {
    Min(|a|, Min(|b|, |c|))
  }

  /**
   * The new client control variate `c_i - (x - y) / d` for each triple of
   * `zip(c_i, x, y)`, where `d` is `K * saved_lr`.  Nothing is divided when
   * the zip is empty, so `d` may then be zero.
   */
  function UpdatedControlVariate(ci: seq<real>, x: seq<real>, y: seq<real>, d: real): seq<real>
    requires Zip3Len(ci, x, y) == 0 || d != 0.0
  {
    seq(Zip3Len(ci, x, y), k requires 0 <= k < Zip3Len(ci, x, y) => ci[k] - (x[k] - y[k]) / d)
  }

  /**
   * The reported control-variate delta is the reported weight delta divided
   * by `K * saved_lr`, entry by entry; every output is as long as the
   * shortest input.
   */
  lemma DeltaCIsScaledDeltaY(ci: seq<real>, x: seq<real>, y: seq<real>, d: real)
    requires d != 0.0
    ensures var deltaC, deltaY := Diff(UpdatedControlVariate(ci, x, y, d), ci), Diff(y, x);
      && |UpdatedControlVariate(ci, x, y, d)| == |deltaC| == Zip3Len(ci, x, y)
      && |deltaY| == Min(|x|, |y|)
      && forall k :: 0 <= k < |deltaC| ==> deltaC[k] == deltaY[k] / d
  {
  }

  /**
   * Two clients that start from different control variates but observe the
   * same weights report the same control-variate delta: the old `c_i`
   * cancels out of `c_i_new - c_i_old`.
   */
  lemma DeltaCIndependentOfControlVariate(ci1: seq<real>, ci2: seq<real>, x: seq<real>, y: seq<real>, d: real)
    requires d != 0.0
    requires |ci1| >= Min(|x|, |y|) && |ci2| >= Min(|x|, |y|)
    ensures Diff(UpdatedControlVariate(ci1, x, y, d), ci1) == Diff(UpdatedControlVariate(ci2, x, y, d), ci2)
  {
    DeltaCIsScaledDeltaY(ci1, x, y, d);
    DeltaCIsScaledDeltaY(ci2, x, y, d);
  }

  /**
   * The old client control variate can be recovered from what the client
   * keeps and reports: `c_i_old[k] == c_i_new[k] - delta_y_i[k] / (K * saved_lr)`.
   */
  lemma ControlVariateRecoverable(ci: seq<real>, x: seq<real>, y: seq<real>, d: real)
    requires d != 0.0
    ensures var cNew, deltaY := UpdatedControlVariate(ci, x, y, d), Diff(y, x);
      && |cNew| <= |deltaY| && |cNew| <= |ci|
      && forall k :: 0 <= k < |cNew| ==> ci[k] == cNew[k] - deltaY[k] / d
  {
  }

  class ScaffoldCallback {
    /** The client control variate; `None` until the first training run. */
    var cI: Option<seq<real>>
    /** The snapshot of the global control variate. */
    var c: Option<seq<real>>
    /** Set by the first fetch of the global control variate and never cleared. */
    var globalControlVariateUpdated: bool
    /** The learning rate recorded before the most recent optimizer step. */
    var savedLr: Option<real>
    /** Local optimizer steps counted since construction. */
    var K: nat
    /** The weights at the start of the most recent run; unset before the first. */
    var initialModelWeights: Option<seq<real>>
    /** The hooks called so far, oldest first. */
    ghost var hooks: seq<Hook>

    /**
     * `K` counts every after-step hook since construction (it is never reset),
     * and the fields that start out as `None` are set by the first hook that
     * writes them and stay set.
     */
    ghost predicate Valid()
      reads this
    {
      && K == Count(hooks, AfterStep)
      && (globalControlVariateUpdated <==> TrainStart in hooks)
      && (c.Some? <==> TrainStart in hooks)
      && (cI.Some? <==> TrainStart in hooks)
      && (initialModelWeights.Some? <==> TrainStart in hooks)
      && (savedLr.Some? <==> BeforeStep in hooks)
    }

    /** `K * saved_lr`, the divisor of the end-of-run update (0 while no rate is recorded). */
    function Divisor(): real
      reads this`savedLr, this`K
    {
      if savedLr.Some? then (K as real) * savedLr.value else 0.0
    }

    /** The aggregator argument is not kept: the global control variate is passed to `OnTrainStart`. */
    constructor ()
      ensures Valid() && hooks == []
      ensures cI == None && c == None && !globalControlVariateUpdated
      ensures savedLr == None && K == 0 && initialModelWeights == None
    {
      cI := None;
      c := None;
      globalControlVariateUpdated := false;
      savedLr := None;
      K := 0;
      initialModelWeights := None;
      hooks := [];
    }

    /**
     * Zeroes `c_i` only if it was never set, fetches the global control
     * variate only on the first run, and snapshots the current weights.
     * `K` is not reset.
     */
    method OnTrainStart(m: LightningModule, globalControlVariate: seq<real>)
      requires Valid()
      modifies this
      ensures Valid() && hooks == old(hooks) + [TrainStart]
      ensures cI == if old(cI).None? then Some(Zeros(|m.params|)) else old(cI)
      ensures c == if old(globalControlVariateUpdated) then old(c) else Some(globalControlVariate)
      ensures globalControlVariateUpdated
      ensures initialModelWeights == Some(Weights(m.params))
      ensures savedLr == old(savedLr) && K == old(K)
    {
      if cI.None? {
        cI := Some(Zeros(|m.params|));
      }
      if !globalControlVariateUpdated {
        GetGlobalC(globalControlVariate);
      }
      initialModelWeights := Some(Weights(m.params));
      CountAppend(hooks, TrainStart, AfterStep);
      hooks := hooks + [TrainStart];
    }

    /** Copies the global control variate into `c` and sets the fetched flag. */
    method GetGlobalC(globalControlVariate: seq<real>)
      modifies this`c, this`globalControlVariateUpdated
      ensures c == Some(globalControlVariate) && globalControlVariateUpdated
    {
      c := Some(globalControlVariate);
      globalControlVariateUpdated := true;
    }

    /** Records the optimizer's current learning rate; nothing else changes. */
    method OnBeforeOptimizerStep(m: LightningModule)
      requires Valid()
      modifies this`savedLr, this`hooks
      ensures Valid() && hooks == old(hooks) + [BeforeStep]
      ensures savedLr == Some(m.lr)
    {
      savedLr := Some(m.lr);
      CountAppend(hooks, BeforeStep, AfterStep);
      hooks := hooks + [BeforeStep];
    }

    /**
     * Shifts every parameter that has a gradient, among the first
     * `min(|params|, |c_i|, |c|)`, by `saved_lr * (c_i - c)`; all others keep
     * their value.  Counts one more local step.  Without a recorded rate the
     * source only survives if no shifted parameter has a gradient.
     */
    method OnAfterOptimizerStep(m: LightningModule)
      requires Valid() && TrainStart in hooks
      requires savedLr.Some? ||
        forall k :: 0 <= k < Min(|m.params|, Min(|cI.value|, |c.value|)) ==> !m.params[k].hasGrad
      modifies this`K, this`hooks, m`params
      ensures Valid() && hooks == old(hooks) + [AfterStep]
      ensures K == old(K) + 1
      ensures |m.params| == |old(m.params)|
      ensures forall k :: 0 <= k < |m.params| ==>
        && m.params[k].hasGrad == old(m.params[k].hasGrad)
        && m.params[k].data ==
             if k < Min(|m.params|, Min(|cI.value|, |c.value|)) && old(m.params[k].hasGrad)
             then old(m.params[k].data) + savedLr.value * (cI.value[k] - c.value[k])
             else old(m.params[k].data)
    {
      var ci, cg := cI.value, c.value;
      var n := Min(|m.params|, Min(|ci|, |cg|));
      var i := 0;
      while i < n
        invariant 0 <= i <= n
        invariant unchanged(this) && |m.params| == |old(m.params)|
        invariant forall k :: 0 <= k < |m.params| ==>
          && m.params[k].hasGrad == old(m.params[k].hasGrad)
          && m.params[k].data ==
               if k < i && old(m.params[k].hasGrad)
               then old(m.params[k].data) + savedLr.value * (ci[k] - cg[k])
               else old(m.params[k].data)
      {
        var p := m.params[i];
        if p.hasGrad {
          var eta := savedLr.value;
          p := p.(data := p.data + eta * ci[i]);
          p := p.(data := p.data - eta * cg[i]);
          m.params := m.params[i := p];
        }
        i := i + 1;
      }
      K := K + 1;
      CountAppend(hooks, AfterStep, AfterStep);
      hooks := hooks + [AfterStep];
    }

    /**
     * Replaces `c_i` by `c_i - (x - y) / (K * saved_lr)` and stores
     * `delta_y_i = y - x` and `delta_c_i = c_i_new - c_i_old` in
     * `additional_info`, where `x` is the start-of-run snapshot and `y` the
     * current weights.  The weights themselves are not touched.
     */
    method OnTrainEnd(m: LightningModule)
      requires Valid() && TrainStart in hooks
      requires Zip3Len(cI.value, initialModelWeights.value, Weights(m.params)) > 0 ==>
        savedLr.Some? && (K as real) * savedLr.value != 0.0
      modifies this`cI, this`hooks, m`additionalInfo
      ensures Valid() && hooks == old(hooks) + [TrainEnd]
      ensures m.params == old(m.params)
      ensures cI == Some(UpdatedControlVariate(old(cI.value), initialModelWeights.value, Weights(m.params), Divisor()))
      ensures m.additionalInfo == old(m.additionalInfo)
        ["delta_y_i" := Diff(Weights(m.params), initialModelWeights.value)]
        ["delta_c_i" := Diff(cI.value, old(cI.value))]
    {
      var y := Weights(m.params);
      var x := initialModelWeights.value;
      var previous := cI.value;
      cI := Some(UpdatedControlVariate(previous, x, y, Divisor()));
      var deltaY := Diff(y, x);
      var deltaC := Diff(cI.value, previous);
      m.additionalInfo := m.additionalInfo["delta_y_i" := deltaY];
      m.additionalInfo := m.additionalInfo["delta_c_i" := deltaC];
      CountAppend(hooks, TrainEnd, AfterStep);
      hooks := hooks + [TrainEnd];
    }
  }
}
