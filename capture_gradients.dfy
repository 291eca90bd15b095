/**
 * The Lightning gradient-capture callback: at the end of every training
 * epoch it records, under each parameter's name, the gradient of every
 * parameter that has one.
 */
module CaptureGradients {
  import opened Common

  /** A gradient tensor, flattened. */
  type Tensor = seq<real>

  /** One entry of `named_parameters()`: the name and `param.grad`, if any. */
  datatype NamedParameter = NamedParameter(name: string, grad: Option<Tensor>)

  /** The map after recording the gradients of `ps`, one entry at a time, into `m`. */
  function Captured(m: map<string, Tensor>, ps: seq<NamedParameter>): map<string, Tensor>
  {
    if ps == [] then m
    else
      var p := ps[|ps| - 1];
      var before := Captured(m, ps[..|ps| - 1]);
      if p.grad.Some? then before[p.name := p.grad.value] else before
  }

  /** The gradient of the last entry named `name` that has one. */
  function LastGrad(ps: seq<NamedParameter>, name: string): Option<Tensor>
  {
    if ps == [] then None
    else if ps[|ps| - 1].name == name && ps[|ps| - 1].grad.Some? then ps[|ps| - 1].grad
    else LastGrad(ps[..|ps| - 1], name)
  }

  /**
   * After an epoch, a name whose parameter has a gradient maps to that
   * gradient; any other name keeps exactly the entry it had, or stays absent.
   */
  lemma {:induction false} CapturedAt(m: map<string, Tensor>, ps: seq<NamedParameter>, name: string)
    ensures LastGrad(ps, name).Some? ==>
      name in Captured(m, ps) && Captured(m, ps)[name] == LastGrad(ps, name).value
    ensures LastGrad(ps, name).None? ==>
      && (name in Captured(m, ps) <==> name in m)
      && (name in m ==> Captured(m, ps)[name] == m[name])
  {
    if ps != [] {
      CapturedAt(m, ps[..|ps| - 1], name);
    }
  }

  /** Entries are never removed: the recorded names only grow. */
  lemma {:induction false} CapturedKeysGrow(m: map<string, Tensor>, ps: seq<NamedParameter>)
    ensures m.Keys <= Captured(m, ps).Keys
    ensures forall p :: p in ps && p.grad.Some? ==> p.name in Captured(m, ps)
  {
    if ps != [] {
      CapturedKeysGrow(m, ps[..|ps| - 1]);
      forall p | p in ps && p.grad.Some?
        ensures p.name in Captured(m, ps)
      {
        if p != ps[|ps| - 1] {
          assert p in ps[..|ps| - 1];
        }
      }
    }
  }

  /** Recording the same epoch twice gives the same map as recording it once. */
  lemma CapturedIdempotent(m: map<string, Tensor>, ps: seq<NamedParameter>)
    ensures Captured(Captured(m, ps), ps) == Captured(m, ps)
  {
    var once := Captured(m, ps);
    var twice := Captured(once, ps);
    forall name
      ensures (name in twice <==> name in once) && (name in once ==> twice[name] == once[name])
    {
      CapturedAt(m, ps, name);
      CapturedAt(once, ps, name);
    }
  }

  class CaptureGradientsCallback {
    /** Parameter name to the last gradient recorded for it. */
    var gradients: map<string, Tensor>

    constructor ()
      ensures gradients == map[]
    {
      gradients := map[];
    }

    /** Records the gradient of every named parameter that has one, in order. */
    method OnTrainEpochEnd(namedParameters: seq<NamedParameter>)
      modifies this
      ensures gradients == Captured(old(gradients), namedParameters)
    {
      var i := 0;
      while i < |namedParameters|
        invariant 0 <= i <= |namedParameters|
        invariant gradients == Captured(old(gradients), namedParameters[..i])
      {
        assert namedParameters[..i + 1][..i] == namedParameters[..i];
        var p := namedParameters[i];
        if p.grad.Some? {
          gradients := gradients[p.name := p.grad.value];
        }
        i := i + 1;
      }
      assert namedParameters[..i] == namedParameters;
    }

    /** The recorded map, as it stands. */
    method GetGradients() returns (g: map<string, Tensor>)
      ensures g == gradients
    {
      g := gradients;
    }
  }
}
