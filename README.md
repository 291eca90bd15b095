# SCAFFOLD client callbacks of p2pfl, in Dafny

This project models the client side of SCAFFOLD in p2pfl. It covers two
Lightning callbacks and the registry that hands them out:

- **`SCAFFOLDCallback`** (`scaffold.dfy`, class `Scaffold.ScaffoldCallback`) is
  a state machine driven by four hooks:
  - train start keeps or zeroes `c_i`, fetches the global control variate
    once, and snapshots the weights;
  - before each optimizer step it records the learning rate;
  - after each optimizer step it shifts every parameter that has a gradient
    by `eta_l * (c_i - c)` and counts the step in `K`;
  - train end replaces `c_i` by `c_i - (x - y) / (K * eta_l)` and writes
    `delta_y_i` and `delta_c_i` into `additional_info`.

  A ghost history of the hooks called so far lets the object invariant say
  that `K` counts every after-step hook since construction. `K` is never
  reset. Another invariant says that the fetched flag, once set, stays set.
- **`scaffold_drift.dfy`** follows one coordinate through a local run of
  plain SGD with the callback's correction. It proves the closed form of the
  displacement. It then compares the update the callback computes with
  Option II of the SCAFFOLD paper (Karimireddy et al., 2020); see
  "## Findings".
- **`scaffold_scenario.dfy`** drives the hooks as the trainer does.
  `LocalTraining` runs any number of steps through the hooks and proves
  the weights end where the per-coordinate run of `scaffold_drift.dfy`
  says. `FirstRunDrift` proves that a client's first run ends with the
  as-written update of the Findings. `TwoRuns` is an example with
  concrete numbers. Model `[1, 2]`, rate 0.1, three steps with gradient
  `[1, 2]`, global control variate `[0.5, -0.5]` give
  `c_i = delta_c_i = [-1.5, -1.5]` and `delta_y_i = [-0.45, -0.45]`.
  The second run keeps the first snapshot of the global control variate,
  keeps the learned `c_i`, and goes on counting from `K = 3`.
- **`CallbackFactory`** (`factory.dfy`) holds a registry map from
  (requirement, framework) to a callback class.
  - Registration is collision-checked and returns the class unchanged.
  - `create_callbacks` walks the required requirements in order. It
    instantiates the registered ones and skips the rest with a warning.
- **`CaptureGradientsCallback`** (`capture_gradients.py`, Lightning flavour;
  `capture_gradients.dfy`) records, at every epoch end, the gradient of each
  named parameter that has one.

Conventions:
- Parameter vectors are `seq<real>`: every tensor is flattened, and a
  parameter is one scalar with a flag saying whether it has a gradient.
- Arithmetic is exact over `real`.
- Python's `zip` truncates to its shortest argument, and so do `Diff`,
  `UpdatedControlVariate` and the after-step shift.

## Model

| member | source | states |
|---|---|---|
| Scaffold.ScaffoldCallback.constructor | p2pfl/learning/callbacks/pytorch/scaffold_callback.py:12-19 | A new callback has no `c_i`, no global snapshot, no saved rate and no weight snapshot; the flag is clear and `K = 0`. |
| Scaffold.ScaffoldCallback.OnTrainStart | p2pfl/learning/callbacks/pytorch/scaffold_callback.py:21-27 | `c_i` becomes zeros of the parameters' length only when it was unset, and an earlier `c_i` is kept. The global control variate is copied only when the flag was clear, and afterwards the flag is set. The weights are snapshotted. `K` and the saved rate are unchanged. |
| Scaffold.ScaffoldCallback.GetGlobalC | p2pfl/learning/callbacks/pytorch/scaffold_callback.py:68-74 | `c` is the given global control variate and the fetched flag is set. Nothing else changes. |
| Scaffold.ScaffoldCallback.OnBeforeOptimizerStep | p2pfl/learning/callbacks/pytorch/scaffold_callback.py:30-32 | Only `saved_lr` changes, and it becomes the optimizer's current rate, so the last call wins. |
| Scaffold.ScaffoldCallback.OnAfterOptimizerStep | p2pfl/learning/callbacks/pytorch/scaffold_callback.py:34-45 | Within `zip(params, c_i, c)`, each parameter with a gradient becomes `p + eta_l * (c_i[k] - c[k])`. Every other parameter, and every gradient flag, is unchanged. `K` grows by exactly one, and the invariant keeps `K` equal to the number of after-step hooks since construction. |
| Scaffold.ScaffoldCallback.OnTrainEnd | p2pfl/learning/callbacks/pytorch/scaffold_callback.py:47-66 | `c_i` becomes `c_i - (x - y) / (K * saved_lr)` over `zip(c_i, x, y)`. `additional_info` gains exactly `delta_y_i = y - x` and `delta_c_i = c_i_new - c_i_old`. The model's parameters are unchanged. |
| Scaffold.DeltaCIsScaledDeltaY | p2pfl/learning/callbacks/pytorch/scaffold_callback.py:51-63 | `delta_c_i[k] = delta_y_i[k] / (K * saved_lr)` for every reported index. `c_i_new` and `delta_c_i` have the length of the shortest of `c_i`, `x` and `y`, and `delta_y_i` the shorter of `x` and `y`. |
| Scaffold.DeltaCIndependentOfControlVariate | p2pfl/learning/callbacks/pytorch/scaffold_callback.py:51-63 | Two clients with different `c_i` (each long enough) that observe the same `x` and `y` report the same `delta_c_i`. |
| Scaffold.ControlVariateRecoverable | p2pfl/learning/callbacks/pytorch/scaffold_callback.py:54-60 | The old `c_i` can be recovered from what the client keeps and reports: `c_i_old[k] = c_i_new[k] - delta_y_i[k] / (K * saved_lr)` at every index of `c_i_new`. |
| ScaffoldDrift.LocalRunDisplacement | p2pfl/learning/callbacks/pytorch/scaffold_callback.py:38-45 | After `K` SGD steps, each followed by the callback's shift, a coordinate has moved by `-eta * sum(g) + K * eta * (c_i - c)`. |
| ScaffoldDrift.ScaledDisplacement | p2pfl/learning/callbacks/pytorch/scaffold_callback.py:38-57 | After such a run, `(x - y) / (K * eta)` is the mean gradient minus `(c_i - c)`. |
| ScaffoldDrift.AsWrittenDrift | p2pfl/learning/callbacks/pytorch/scaffold_callback.py:53-57 | After such a run, the callback's update sets every coordinate of `c_i` to `2 c_i - c - mean gradient`. |
| ScaffoldDrift.AsWrittenMissesMeanGradient | p2pfl/learning/callbacks/pytorch/scaffold_callback.py:53-57 | A concrete run where the mean gradient is 0, the callback stores -1 and Option II stores 0. |
| ScaffoldScenario.LocalTraining | p2pfl/learning/callbacks/pytorch/scaffold_callback.py:30-45 | Driving `steps` rounds of before-step hook, SGD step and after-step hook adds `steps` to `K`. The weights end at `RunAll` of the start weights, so the hooks carry out the per-coordinate run of `ScaffoldDrift`. |
| ScaffoldScenario.FirstRunDrift | p2pfl/learning/callbacks/pytorch/scaffold_callback.py:21-57 | A fresh client's first run of `steps` SGD steps at a constant nonzero rate, followed by the end hook, leaves `K = steps` and `c_i[k] = -c[k] - mean gradient of k`. This is the as-written drift, reached through the hooks themselves. |
| ScaffoldDrift.OptionTwoRecoversMeanGradient | p2pfl/learning/callbacks/pytorch/scaffold_callback.py:53-57 | After such a run, Option II `c_i - c + (x - y) / (K * eta)` is every coordinate's mean gradient, whatever `c_i` and `c` were. |
| Factory.CallbackFactory.constructor | p2pfl/learning/callbacks/factory.py:11 | The registry starts empty. |
| Factory.CallbackFactory.RegisterCallback | p2pfl/learning/callbacks/factory.py:14-31 | A free key gains exactly `key ↦ callback_cls`, every other entry is unchanged, and the class is returned as it was given. A taken key fails, with the existing and the rejected class, and leaves the registry unchanged. |
| Factory.CallbackFactory.CreateCallbacks | p2pfl/learning/callbacks/factory.py:33-48 | The callbacks returned are exactly `Resolved`, and the warnings exactly `Unregistered`, for the given requirements. It has no modifies clause, so the registry is not changed. It has no failure outcome because instantiation is abstracted; a missing key is only warned about. |
| Factory.ResolvedPartition | p2pfl/learning/callbacks/factory.py:39-47 | Every requirement is either instantiated or warned about. The i-th callback is an instance of the class registered for the i-th registered requirement, in requirement order. |
| Factory.ResolvedComplete | p2pfl/learning/callbacks/factory.py:39-47 | There are at most as many callbacks as requirements. There are exactly as many if and only if every `(requirement, framework)` key is registered. |
| Factory.ResolvedAppend | p2pfl/learning/callbacks/factory.py:39-43 | Resolving `a + b` gives the callbacks of `a` followed by those of `b`, so a duplicate requirement yields a duplicate instance. |
| CaptureGradients.CaptureGradientsCallback.constructor | p2pfl/learning/callbacks/lighting/capture_gradients.py:9-11 | A new callback has an empty gradients map. |
| CaptureGradients.CaptureGradientsCallback.OnTrainEpochEnd | p2pfl/learning/callbacks/lighting/capture_gradients.py:13-16 | The map becomes the old map updated, in order, with the gradient of every named parameter that has one. |
| CaptureGradients.CaptureGradientsCallback.GetGradients | p2pfl/learning/callbacks/lighting/capture_gradients.py:18-19 | Returns the current map's value. It has no modifies clause, so it changes nothing. |
| CaptureGradients.CapturedAt | p2pfl/learning/callbacks/lighting/capture_gradients.py:13-16 | After an epoch, a name whose parameter has a gradient maps to that gradient (the last one, if the name repeats). Every other name keeps exactly its old entry, or stays absent. |
| CaptureGradients.CapturedKeysGrow | p2pfl/learning/callbacks/lighting/capture_gradients.py:13-16 | No entry is ever removed. Every name with a gradient is present afterwards. |
| CaptureGradients.CapturedIdempotent | p2pfl/learning/callbacks/lighting/capture_gradients.py:13-16 | Recording the same epoch twice gives the same map as recording it once. |

## Left out

- The SCAFFOLD server aggregator (`p2pfl/learning/aggregators/scaffold.py`) is not modelled.
  - Its `aggregate` is an empty stub.
  - It defines no global control variate.
  - Its `required_callbacks` asks only for gradient capture.
  - The global control variate the callback reads from it is therefore an argument of `OnTrainStart`.
  - The aggregator argument of the callback's constructor is not kept.
- The server update rule, with its `eta_g` and its scaling factor, does not exist in the code and is not modelled.
- The PyTorch and TensorFlow gradient-capture callbacks are not modelled. Their only action reads attributes they never define.
- Framework plumbing is abstracted:
  - `torch.zeros_like`, `copy.deepcopy`, `torch.from_numpy(...).to(device)` and the optimizer's `param_groups` become values;
  - tensors are flattened, so `zip` truncates per scalar rather than per tensor.
- Floating point is not modelled: rounding, infinities and the division by zero at line 55 are out of scope. A zero `K * saved_lr` is excluded by a precondition whenever something is divided.
- Scaffold.ScaffoldCallback.OnAfterOptimizerStep, Scaffold.ScaffoldCallback.OnTrainEnd: require an earlier train start.
  - Without one, `c_i`, `c` or the weight snapshot is unset, and the source fails with a `TypeError` or an `AttributeError`.
  - The missing saved rate is allowed exactly where the source never multiplies by it.
  - `Divisor()` reads 0 in that case, and no division happens then.
- How the framework key is derived (`__module__.lower()`) is left out. The framework is an opaque string.
  - Registration derives it from the callback class's module, and `create_callbacks` from the learner's class.
  - Whether these ever coincide depends on module paths outside this model.
- Factory.CallbackFactory.CreateCallbacks: an instance is modelled as a value naming its class, so two instances of one class are equal here, while in the source they are distinct objects.
  - Instantiation cannot fail here. In the source, `callback_cls()` at `factory.py:43` raises `TypeError` for `SCAFFOLDCallback`, whose `__init__` needs an aggregator.
  - The learner and aggregator arguments are replaced by the framework string and the list of requirements they supply.
- Factory.CallbackFactory.constructor: the source's `_registry` is one class-level dict shared by every registration and every `create_callbacks` call. Here one `CallbackFactory` object stands for the class, and each `new CallbackFactory()` would start its own empty registry.
- CaptureGradients.CaptureGradientsCallback.GetGradients: returns the map as a value. The source returns the live dict, so a caller holding it sees later epoch-end updates, and the caller's own writes change the callback. That aliasing is not captured.
- Logging is output only.
  - The error logged before the duplicate-registration `ValueError` is not modelled.
  - The missing-callback warnings are returned as a list, so that "skipped with a warning" can be stated.
- `p2pfl/learning/callbacks/requirements.py` is not part of this model. `Requirement` has the two members the callbacks use.
- `ScaffoldDrift` assumes plain SGD at a constant rate, with a gradient for the coordinate at every step. Schedules, momentum and frozen steps are outside those lemmas. The hooks themselves handle any rate and any gradient pattern.
- Two quirks of the code are modelled as written:
  - `K` is never reset between runs (`scaffold_callback.py:19, 45`).
  - The global control variate is fetched only on the first run (lines 17, 24-25, 74).
- `Scaffold.DeltaCIndependentOfControlVariate` proves that `delta_c_i` does not depend on the old `c_i`.

## Findings

| source | as written | input that shows it | evidently intended | confidence | as-written member | corrected member |
|---|---|---|---|---|---|---|
| p2pfl/learning/callbacks/pytorch/scaffold_callback.py:53-57 | `c_i ← c_i − (x − y_i) / (K · eta_l)`, which after a run of plain SGD with the callback's correction equals `2 c_i − c − mean gradient` | one coordinate, one step, `eta_l = 1`, gradient 0, `c_i = 0`, `c = 1`: `y = x − 1`, the callback stores `c_i = −1` while the mean gradient is 0 | Option II of SCAFFOLD, `c_i ← c_i − c + (x − y_i) / (K · eta_l)`, which equals the mean local gradient | medium: the line matches its own comment, but not the published algorithm the class is named after; not executed | ScaffoldDrift.AsWrittenMissesMeanGradient | ScaffoldDrift.OptionTwoRecoversMeanGradient |

The hooks in `Scaffold.ScaffoldCallback` keep the update as written, and
`ScaffoldScenario.FirstRunDrift` shows the drift through the hooks
themselves. The rest of this model states what the code does.
`ScaffoldDrift.OptionTwoUpdate` is the corrected definition.
