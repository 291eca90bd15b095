/**
 * The host side of the callbacks: the Lightning module whose parameters the
 * SCAFFOLD hooks read and shift.  Every tensor is flattened, so a parameter
 * here is one scalar entry together with whether it received a gradient in
 * the current step.
 */
module Training {

  /** One scalar parameter: its value (`param.data`) and whether `param.grad` is set. */
  datatype Param = Param(data: real, hasGrad: bool)

  /** The values of the parameters, as `model.get_parameters()` returns them. */
  function Weights(ps: seq<Param>): seq<real>
  {
    seq(|ps|, k requires 0 <= k < |ps| => ps[k].data)
  }

  class LightningModule {
    /** `pl_module.parameters()`, in order. */
    var params: seq<Param>
    /** `optimizer.param_groups[0]['lr']`, set by the optimizer and its schedule. */
    var lr: real
    /** `model.additional_info`, the side channel the update record travels in. */
    var additionalInfo: map<string, seq<real>>

    constructor (params: seq<Param>, lr: real)
      ensures this.params == params && this.lr == lr && additionalInfo == map[]
    {
      this.params := params;
      this.lr := lr;
      additionalInfo := map[];
    }
  }
}
