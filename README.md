# AIMET tensor quantizers, modelled in Dafny

This project models the sequential core of AIMET's PyTorch tensor quantizers
(`aimet_torch/tensor_quantizer.py`). The native quantization engine and torch
autograd are treated as foreign code. What is modelled:

- **The static-grid quantizers.** Per-tensor and per-channel quantizers keep one
  native engine per channel, an encoding (None or a list of TfEncodings), an
  `enabled` flag and a one-way frozen flag. The model covers the encoding
  setters and getters, `compute_encoding` with its all-or-nothing validity rule,
  the statistics updates, the statistics reset, the histogram query,
  `freeze_encoding`, the quant-scheme setter, and pickling
  (`__getstate__`/`__setstate__`).
- **The learned-grid quantizer.** The model covers the integer bounds `(n, p)`
  from `get_n_and_p` and the clamp and mask of the forward pass over rounded
  codes. It also covers the table that picks the integer type in which clamped
  codes are saved, and the state machine of the encoding setter and getter,
  `freeze_encoding` and the guard of `quantize_dequantize`. The min/max
  encodings live as parameters in a dictionary on the host module.
- **The autograd branches of `QuantizeDequantize` and `Quantize`.** This covers
  the disabled identity, the float-16 path, the per-tensor and per-channel engine
  calls with their error paths, the backward pass-through, and the
  unconditionally failing `Quantize.backward`.
- **`ParameterQuantizer`.** The model covers how `quantize_parameters` reads
  encoding slots `2*index` and `2*index + 1`, and how
  `backward_pass_for_parameters` lays out the encoding gradients.

Python behaviour is modelled explicitly:

- Truthiness of None, of lists and of one-element tensors.
- Short-circuit `and`.
- The exact exception raised on each path: `RuntimeError`, `ValueError`,
  `AssertionError` (with its message where the source gives one),
  `IndexError`, `KeyError`, `TypeError` and `AttributeError`.

Where a method raises after it already changed some state, the model changes
that state too.

Files:

| file | module |
|---|---|
| common.dfy | `Common`: Option, Result, Outcome, the Python exceptions, powers of two |
| encodings.dfy | `Encodings`: TfEncoding, the values an `encoding` attribute can hold, the pickled tuple form |
| dtype_table.dfy | `DtypeTable`: `_encoding_params_to_dtype` and the integer types' ranges |
| learned_grid.dfy | `LearnedGrid`: bounds, clamp/mask, host parameters, `LearnedGridTensorQuantizer` |
| static_grid.dfy | `StaticGrid`: engines, `StaticGridTensorQuantizer` (both kinds), pickling |
| static_grid_ops.dfy | `StaticGridOps`: `QuantizeDequantize` and `Quantize` forward/backward |
| parameter_quantizer.dfy | `ParameterQuantizer`: parameter quantization and the encoding-gradient list |

Both static-grid subclasses are one Dafny class. Its `kind` field
(`PerTensor` or `PerChannel(chAxis)`) stands for the Python subclass, and the
model dispatches on `kind` where Python dispatches on `isinstance`.

## Model

| member | source | states |
|---|---|---|
| `DtypeTable.DtypeForClampOutAsWritten` | TrainingExtensions/torch/src/python/aimet_torch/tensor_quantizer.py:67-73 | the table as written, entry by entry: int8 exactly for (8, symmetric, signed), int16 exactly for (16, symmetric, signed), uint8 for the other 8-bit keys, and int32 exactly when the key is missing |
| `DtypeTable.DtypeForClampOut` | TrainingExtensions/torch/src/python/aimet_torch/tensor_quantizer.py:67-73 | corrected table: uint8 exactly for 8-bit keys, int32 otherwise |
| `DtypeTable.Saved` | TrainingExtensions/torch/src/python/aimet_torch/tensor_quantizer.py:731 | converting a clamped code keeps it exactly when the integer type can represent it |
| `DtypeTable.CorrectedTableHoldsCodes` | TrainingExtensions/torch/src/python/aimet_torch/tensor_quantizer.py:721-731 | with the corrected table, every code in [0, 2^bitwidth) of a grid of at most 31 bits is representable |
| `LearnedGrid.GetNAndP` | TrainingExtensions/torch/src/python/aimet_torch/tensor_quantizer.py:527-539 | fails with the ValueError exactly when strict-symmetric is set without symmetric; otherwise n = 0 and p = 2^bitwidth - 1, or 2^bitwidth - 2 under strict symmetry |
| `LearnedGrid.GridFitsBitwidth` | TrainingExtensions/torch/src/python/aimet_torch/tensor_quantizer.py:527-539 | the grid has 2^bitwidth codes, one fewer under strict symmetry, and each of them fits in bitwidth unsigned bits |
| `LearnedGrid.StrictGridHasCentre` | TrainingExtensions/torch/src/python/aimet_torch/tensor_quantizer.py:533-534 | for bitwidth >= 1, strict symmetry holds exactly when p - n is even, i.e. when the grid has a centre code |
| `LearnedGrid.Mask` | TrainingExtensions/torch/src/python/aimet_torch/tensor_quantizer.py:725 | per element, the mask is set exactly when the code lies in [n, p] |
| `LearnedGrid.Clamp` | TrainingExtensions/torch/src/python/aimet_torch/tensor_quantizer.py:722 | on a non-empty grid the clamp lies in [n, p] and leaves q unchanged exactly when q is in [n, p] |
| `LearnedGrid.ClampAndMask` | TrainingExtensions/torch/src/python/aimet_torch/tensor_quantizer.py:721-725 | every clamped code is in [n, p]; the mask is true exactly when n <= q <= p, which is exactly when clamp_out == q |
| `LearnedGrid.ForwardWith` | TrainingExtensions/torch/src/python/aimet_torch/tensor_quantizer.py:721-731 | the forward pass keeps `clamp_out`, the clamp of every code to [n, p], and the mask `q.ge(n) * q.le(p)` of the same codes, plus one saved code per element, which is the clamped code converted to the chosen type |
| `LearnedGrid.ForwardAsWritten` | TrainingExtensions/torch/src/python/aimet_torch/tensor_quantizer.py:721-731 | as written: `clamp_out` and the mask are the clamp and the range mask of the codes, and a clamped code is saved unchanged exactly when the type from the table as written (int32 on a miss) can hold it |
| `LearnedGrid.Forward` | TrainingExtensions/torch/src/python/aimet_torch/tensor_quantizer.py:721-731 | corrected: the same clamp and mask, and a clamped code is saved unchanged exactly when the type from the corrected table can hold it |
| `LearnedGrid.ForwardAsWrittenLosesCodes` | TrainingExtensions/torch/src/python/aimet_torch/tensor_quantizer.py:721-731 | as written, code 200 of the 8-bit (0, 255) grid with signed symmetric storage is clamped to itself but cannot be saved as int8, and code 40000 of the 16-bit (0, 65535) grid cannot be saved as int16 |
| `LearnedGrid.ForwardSavesClampOut` | TrainingExtensions/torch/src/python/aimet_torch/tensor_quantizer.py:721-731 | with the corrected table, every clamped code of a grid of at most 31 bits is saved unchanged |
| `LearnedGrid.NotTensor` | TrainingExtensions/torch/src/python/aimet_torch/tensor_quantizer.py:693 | `not t`: true for None; for a one-element tensor, true exactly when its value is zero; an error for any other element count |
| `LearnedGrid.FreezeAsWritten` | TrainingExtensions/torch/src/python/aimet_torch/tensor_quantizer.py:683-698 | the guard refuses, with nothing changed, exactly when both parameters read as false (`not min and not max`); the flag is set before any parameter is touched, so a missing min with a truthy max sets it and then raises AttributeError; the freeze succeeds exactly when both parameters exist and the guard neither raises nor refuses, and then both stop tracking gradients with their values kept and every other parameter unchanged |
| `LearnedGrid.FreezeAsWrittenRejectsPerChannel` | TrainingExtensions/torch/src/python/aimet_torch/tensor_quantizer.py:693-694 | as written, a quantizer with two-channel min/max parameters cannot be frozen: the guard raises the ambiguous-bool RuntimeError and nothing changes |
| `LearnedGrid.Freeze` | TrainingExtensions/torch/src/python/aimet_torch/tensor_quantizer.py:683-698 | corrected freeze: refused exactly when a min or max parameter is missing or None, with nothing changed; otherwise frozen, both parameters stop tracking gradients with their values kept, and every other parameter is unchanged |
| `LearnedGrid.MinMaxParameters` | TrainingExtensions/torch/src/python/aimet_torch/tensor_quantizer.py:645-672 | a bare encoding gives singleton min/max lists and its bitwidth; a list of encodings gives its mins and maxes in order and the first bitwidth; None is an AssertionError and the empty list an IndexError; a list whose first item is not an encoding is the AssertionError, and one with a later non-encoding item an AttributeError |
| `LearnedGrid.UpdatedEncodings` | TrainingExtensions/torch/src/python/aimet_torch/tensor_quantizer.py:621-643 | one encoding per (min, max) pair of the zip, so the length is the shorter of the two; each carries that min, max, the quantizer's bitwidth and the delta/offset computed from it |
| `LearnedGrid.BareIfSingle` | TrainingExtensions/torch/src/python/aimet_torch/tensor_quantizer.py:640-643 | exactly one encoding is returned bare, any other number as a list |
| `LearnedGrid.SetThenGetEncoding` | TrainingExtensions/torch/src/python/aimet_torch/tensor_quantizer.py:556-681 | setting a non-empty list of encodings and reading it back returns, channel by channel, the min and max that were set and the first encoding's bitwidth |
| `LearnedGrid.LearnedGridTensorQuantizer.constructor` | TrainingExtensions/torch/src/python/aimet_torch/tensor_quantizer.py:486-510 | base defaults, not frozen, channel axis 0, n = 0 and p = 2^bitwidth - 1 |
| `LearnedGrid.LearnedGridTensorQuantizer.Create` | TrainingExtensions/torch/src/python/aimet_torch/tensor_quantizer.py:486-510 | construction fails with the ValueError exactly when the data type is not int |
| `LearnedGrid.LearnedGridTensorQuantizer.SetEncoding` | TrainingExtensions/torch/src/python/aimet_torch/tensor_quantizer.py:556-681 | disabled: nothing changes; None: AssertionError; frozen: RuntimeError, nothing changes; otherwise the min/max parameters are replaced (trainable), the bitwidth is adopted and (n, p) recomputed, or get_n_and_p's error is raised after the parameters were written |
| `LearnedGrid.LearnedGridTensorQuantizer.GetEncoding` | TrainingExtensions/torch/src/python/aimet_torch/tensor_quantizer.py:541-643 | None when disabled; AttributeError for a missing parameter and TypeError for a None one; otherwise the encodings derived from the stored min/max |
| `LearnedGrid.LearnedGridTensorQuantizer.FreezeEncoding` | TrainingExtensions/torch/src/python/aimet_torch/tensor_quantizer.py:683-698 | the corrected freeze applied to the host parameters; the frozen flag is never cleared |
| `LearnedGrid.LearnedGridTensorQuantizer.QuantizeDequantize` | TrainingExtensions/torch/src/python/aimet_torch/tensor_quantizer.py:602-619 | identity when disabled; when enabled, the RuntimeError exactly when min or max is missing, otherwise the differentiable operator's result |
| `StaticGrid.EngineResults` | TrainingExtensions/torch/src/python/aimet_torch/tensor_quantizer.py:280-283 | one getEncoding answer per engine, in engine order, each asked with the quantizer's bitwidth and symmetry flags |
| `StaticGrid.ValidEncodings` | TrainingExtensions/torch/src/python/aimet_torch/tensor_quantizer.py:280-288 | the kept encodings are never more than the engine answers |
| `StaticGrid.ValidEncodingsAllOrNothing` | TrainingExtensions/torch/src/python/aimet_torch/tensor_quantizer.py:280-297 | keeping the valid answers keeps all of them, in order, exactly when all are valid, and keeps nothing exactly when none is |
| `StaticGrid.ComputeEncodingAllOrNothing` | TrainingExtensions/torch/src/python/aimet_torch/tensor_quantizer.py:290-297 | when the assertion passes, either every engine was valid and the list holds all their encodings in engine order, or none was and the list is empty |
| `StaticGrid.PerTensorStored` | TrainingExtensions/torch/src/python/aimet_torch/tensor_quantizer.py:402-413 | the per-tensor setter always stores a one-element list |
| `StaticGrid.PerTensorView` | TrainingExtensions/torch/src/python/aimet_torch/tensor_quantizer.py:391-400 | the per-tensor getter returns element 0 of a non-empty stored list and None when nothing truthy is stored |
| `StaticGrid.PerTensorSetThenGet` | TrainingExtensions/torch/src/python/aimet_torch/tensor_quantizer.py:391-413 | per-tensor set then get returns what was set, except that a one-element list comes back as its element |
| `StaticGrid.StaticGridTensorQuantizer.GetConfig` | TrainingExtensions/torch/src/python/aimet_torch/tensor_quantizer.py:191-201 | the pickled attribute dictionary carries the enabled flag, the frozen flag and the scheme |
| `StaticGrid.StaticGridTensorQuantizer.PerTensorQuantizer` | TrainingExtensions/torch/src/python/aimet_torch/tensor_quantizer.py:375-389 | the base defaults (not strict, unsigned symmetric, not frozen), exactly one fresh engine of the scheme, no encoding |
| `StaticGrid.StaticGridTensorQuantizer.PerChannelQuantizer` | TrainingExtensions/torch/src/python/aimet_torch/tensor_quantizer.py:431-448 | the base defaults, one fresh engine per channel, the channel axis, no encoding |
| `StaticGrid.StaticGridTensorQuantizer.GetEncoding` | TrainingExtensions/torch/src/python/aimet_torch/tensor_quantizer.py:391-456 | per-channel: the stored value itself; per-tensor: the first element of a non-empty stored list, None otherwise |
| `StaticGrid.StaticGridTensorQuantizer.SetEncoding` | TrainingExtensions/torch/src/python/aimet_torch/tensor_quantizer.py:402-467 | RuntimeError and nothing changes when frozen; otherwise per-tensor stores the wrapped value and per-channel stores the argument unchanged |
| `StaticGrid.StaticGridTensorQuantizer.EngineEncodings` | TrainingExtensions/torch/src/python/aimet_torch/tensor_quantizer.py:280-288 | the engine loop keeps exactly the valid encodings, in engine order, and reports whether every answer was valid |
| `StaticGrid.StaticGridTensorQuantizer.ComputeEncoding` | TrainingExtensions/torch/src/python/aimet_torch/tensor_quantizer.py:271-297 | no-op when disabled or frozen; None for the float data type; otherwise the list of valid encodings in engine order, enabled exactly when all were valid, AssertionError exactly on a mix of valid and invalid, and on success either all encodings (still enabled) or an empty list (disabled) |
| `StaticGrid.StaticGridTensorQuantizer.UpdateEncodingStats` | TrainingExtensions/torch/src/python/aimet_torch/tensor_quantizer.py:415-422 | no-op when disabled or frozen; otherwise every engine is fed the whole tensor |
| `StaticGrid.StaticGridTensorQuantizer.UpdateEncodingStatsPerChannel` | TrainingExtensions/torch/src/python/aimet_torch/tensor_quantizer.py:469-477 | no-op when disabled or frozen; otherwise engine i is fed slice i, and a tensor with too few channels raises IndexError after feeding the engines it reaches |
| `StaticGrid.StaticGridTensorQuantizer.ResetEncodingStats` | TrainingExtensions/torch/src/python/aimet_torch/tensor_quantizer.py:321-328 | no-op when frozen; otherwise every engine's statistics are cleared and the encoding becomes None |
| `StaticGrid.StaticGridTensorQuantizer.GetStatsHistogram` | TrainingExtensions/torch/src/python/aimet_torch/tensor_quantizer.py:330-351 | RuntimeError unless the scheme is TF-Enhanced, then RuntimeError unless an encoding exists; otherwise one histogram per engine in engine order |
| `StaticGrid.StaticGridTensorQuantizer.FreezeEncoding` | TrainingExtensions/torch/src/python/aimet_torch/tensor_quantizer.py:353-360 | RuntimeError with the flag untouched when the encoding is None or empty; frozen otherwise |
| `StaticGrid.StaticGridTensorQuantizer.SetQuantScheme` | TrainingExtensions/torch/src/python/aimet_torch/tensor_quantizer.py:239-250 | the scheme is recorded first; with no engine the assertion fails; otherwise every engine is replaced by a fresh one of the new scheme, keeping their number |
| `StaticGrid.StaticGridTensorQuantizer.GetState` | TrainingExtensions/torch/src/python/aimet_torch/tensor_quantizer.py:140-201 | the attribute dictionary, the engine count, and the encodings as (min, max, delta, offset, bw) tuples in order, or none when the encoding is falsy; TypeError for a bare encoding, AttributeError for a list with a non-encoding item |
| `StaticGrid.StaticGridTensorQuantizer.SetState` | TrainingExtensions/torch/src/python/aimet_torch/tensor_quantizer.py:203-229 | the attributes are restored, with as many fresh engines of the restored scheme as recorded and the encodings rebuilt from their tuples in order, or None |
| `StaticGrid.FreshEngines` | TrainingExtensions/torch/src/python/aimet_torch/tensor_quantizer.py:209-213 | exactly the requested number of engines, each fresh and of the given scheme |
| `StaticGrid.RestoreEncoding` | TrainingExtensions/torch/src/python/aimet_torch/tensor_quantizer.py:215-229 | the rebuilt encoding is the list of encodings read back from the tuples in order, or None when the state holds none |
| `StaticGrid.PickleRoundTrip` | TrainingExtensions/torch/src/python/aimet_torch/tensor_quantizer.py:140-229 | pickling succeeds exactly when the encoding is falsy or a list of encodings; then the copy has the same attributes, the same number of engines (fresh, of the same scheme) and the same encodings field for field in order, or None |
| `Encodings.RebuildTuples` | TrainingExtensions/torch/src/python/aimet_torch/tensor_quantizer.py:145-227 | rebuilding encodings from their pickled tuples gives back every encoding unchanged, in order |
| `StaticGridOps.HalfRoundTrip` | TrainingExtensions/torch/src/python/aimet_torch/tensor_quantizer.py:887-888 | the float path converts element by element, keeping the length |
| `StaticGridOps.PerTensorQuantizeDequantize` | TrainingExtensions/torch/src/python/aimet_torch/tensor_quantizer.py:876-935 | identity when disabled; float: ValueError unless bitwidth is 16, else the fp16 round trip; int: IndexError without an engine, TypeError unless the getter yields one encoding, else engine 0 applied with that encoding |
| `StaticGridOps.ChannelwiseQdq` | TrainingExtensions/torch/src/python/aimet_torch/tensor_quantizer.py:902-913 | the integer per-channel branch: on success one output slice per engine, at least one; with no engine, `torch.stack` refuses the empty list with a RuntimeError |
| `StaticGridOps.ChannelsFromSucceed` | TrainingExtensions/torch/src/python/aimet_torch/tensor_quantizer.py:902-910 | the channel loop succeeds exactly when every channel does, and output slice j is channel j's result |
| `StaticGridOps.ChannelwiseQdqPerChannel` | TrainingExtensions/torch/src/python/aimet_torch/tensor_quantizer.py:895-913 | the integer per-channel path succeeds exactly when there is an engine and there are at least as many slices and encodings as engines; output slice j is engine j on slice j with encoding j |
| `StaticGridOps.PerChannelQuantizeDequantize` | TrainingExtensions/torch/src/python/aimet_torch/tensor_quantizer.py:895-935 | identity when disabled; float: ValueError unless bitwidth is 16, else every slice round-tripped through fp16; int: the channel loop, first error first |
| `StaticGridOps.QuantizeDequantizeBackward` | TrainingExtensions/torch/src/python/aimet_torch/tensor_quantizer.py:939-954 | the gradient passes through unchanged unless enabled with the int data type; then the straight-through gradient from the getter's min/max along the channel axis of a per-channel quantizer (axis 0 for a per-tensor one), or AttributeError when the getter yields no single encoding (always so for a per-channel list) |
| `StaticGridOps.QuantizeForward` | TrainingExtensions/torch/src/python/aimet_torch/tensor_quantizer.py:963-985 | identity when disabled; when enabled, engine 0 quantizes with the getter's encoding and shifts to signed exactly when symmetric with a negative offset; errors follow the source's evaluation order |
| `StaticGridOps.QuantizeBackward` | TrainingExtensions/torch/src/python/aimet_torch/tensor_quantizer.py:987-990 | always the AssertionError |
| `ParameterQuantizer.EncodingGradsAsWritten` | TrainingExtensions/torch/src/python/aimet_torch/tensor_quantizer.py:824-842 | as written: the only failure is the KeyError, and on success every parameter has a quantizer and the list has two entries per enabled parameter |
| `ParameterQuantizer.EncodingGrads` | TrainingExtensions/torch/src/python/aimet_torch/tensor_quantizer.py:824-842 | corrected: the only failure is the KeyError, and on success every parameter has a quantizer and the list has two entries per parameter |
| `ParameterQuantizer.EncodingGradsAsWrittenLayout` | TrainingExtensions/torch/src/python/aimet_torch/tensor_quantizer.py:824-842 | as written: KeyError exactly when a parameter has no quantizer; otherwise two entries per enabled parameter, so the length is twice the enabled count, and entries 2k and 2k+1 are the k-th enabled parameter's min/max gradients (None without a gradient) |
| `ParameterQuantizer.GradsOf` | TrainingExtensions/torch/src/python/aimet_torch/tensor_quantizer.py:834-841 | corrected: every parameter contributes exactly two slots |
| `ParameterQuantizer.EncodingGradsLayout` | TrainingExtensions/torch/src/python/aimet_torch/tensor_quantizer.py:800-842 | corrected: the length is twice the parameter count, and slots 2i and 2i+1 hold parameter i's gradients (None when disabled or without a gradient), the slots quantize_parameters reads its encoding from |
| `ParameterQuantizer.GradSlotsMisalignedAsWritten` | TrainingExtensions/torch/src/python/aimet_torch/tensor_quantizer.py:800-842 | with a disabled parameter before an enabled one, the list as written holds the enabled parameter's gradients in slots 0 and 1 and has no slots 2 and 3; the corrected list has them in slots 2 and 3 |
| `ParameterQuantizer.BackwardPassForParameters` | TrainingExtensions/torch/src/python/aimet_torch/tensor_quantizer.py:824-842 | the loop builds exactly the corrected gradient list, or raises the KeyError |
| `ParameterQuantizer.QuantizedParam` | TrainingExtensions/torch/src/python/aimet_torch/tensor_quantizer.py:808-821 | a parameter without a quantizer is the KeyError; a disabled one is kept as is; for an enabled one, slots beyond the list are the IndexError and a None slot is the TypeError that `compute_scaling_offset` (:598) raises; otherwise its data becomes the quantize-dequantize of its data with slots 2i and 2i+1, keeping its name and gradient |
| `ParameterQuantizer.QuantizeParameters` | TrainingExtensions/torch/src/python/aimet_torch/tensor_quantizer.py:800-821 | parameters are rewritten in order: disabled ones unchanged, enabled ones quantize-dequantized with slots 2i and 2i+1; the first missing quantizer (KeyError), missing slot (IndexError) or None slot (TypeError) stops the loop, with earlier parameters rewritten and later ones untouched |

## Left out

- The native engine (`AimetTensorQuantizer`, `libpymo`) is not modelled: `updateStats`, `getEncoding`, `getStatsHistogram`, `quantizeDequantize`, `quantize` and `setPercentileValue` are function parameters or an engine value recording the samples fed to it. `set_percentile_value` is therefore left out.
- `MAP_QUANT_SCHEME_TO_PYMO` is not part of this model. An engine records the model's own scheme value.
- ParameterQuantizer.QuantizeParameters: the write of `scaling` and `offset` to the parameter's quantizer (:815-816) is not modelled. The model has no state for them, and `compute_gradients`, which later reads them, is a function parameter.
- Real-number numerics are not modelled: `_compute_delta_and_offset`, `compute_scaling_offset`, `torch.round`, the fp16 round trip (a parameter) and the min/max gradient formulas of `QuantizeDequantizeFunc.backward`. The clamp and mask take already-rounded integer codes.
- `ParameterQuantizer.compute_gradients` is a parameter.
- `get_n_and_p` computes p in float32 tensors. That rounding, which matters for bitwidths above 24, is not modelled; the model's bitwidth is a natural number, so negative bitwidths are not modelled either.
- `DtypeTable.Saved`: a code the chosen integer type cannot hold is modelled as lost (None). The wrapped value the conversion produces is not modelled.
- Tensors are flat sequences of reals. A per-channel tensor is given as its slices along the channel axis, so `select`, `contiguous`, `torch.stack` and broadcasting are not modelled. Only the stack's refusal of an empty list is kept.
- The `is_cuda` flag, device moves (`.to(device)`) and the host module's `device` are left out.
- The learned-grid quantizer receives its host module and name at construction. The source assigns `wrapper_ref` and `name` after construction; the case where they are unset is not modelled.
- `__str__`, logging and the `quantize_dequantize`/`quantize` convenience wrappers that only clone the output are left out.
- The data-parallel replica branch of `quantize_parameters` is left out. It only clones the data before quantizing.
- `ParameterQuantizer.forward` and `ParameterQuantizer.backward` are left out. They only pass their arguments to `quantize_parameters` and `backward_pass_for_parameters`.
- Python's `-O` mode, which strips `assert` statements, is not modelled. Every assertion raises `AssertionError`.
- The instance attributes are public in Python and may be reassigned by any caller. The model changes them only through the modelled operations.
- Encodings are values in the model, but in Python they are shared with callers. The per-channel setter stores the caller's own list, and the getters hand out the stored list or `TfEncoding` object, whose fields can be written. Changes made in place through such a shared list or object are not modelled. "Frozen ⇒ encoding unchanged" therefore holds only against the modelled operations: a caller can still change a frozen encoding in place without any RuntimeError.
- `StaticGrid.PickleRoundTrip`: the object that unpickling allocates is passed in rather than created, and the engines' accumulated statistics are not carried over. The source does not pickle them either.

## Findings

| source | as written | input that shows it | evidently intended | confidence | as-written member | corrected member |
|---|---|---|---|---|---|---|
| TrainingExtensions/torch/src/python/aimet_torch/tensor_quantizer.py:67-73 | the (8, symmetric, signed) key saves clamped codes as int8 and the (16, symmetric, signed) key as int16, yet the codes lie in [0, 2^bitwidth - 1] | 8-bit symmetric grid (n, p) = (0, 255), code 200: clamped to 200, not representable in int8; 16-bit grid (0, 65535), code 40000: not representable in int16 (`LearnedGrid.ForwardAsWrittenLosesCodes`) | a type that holds every code of the grid: uint8 for all 8-bit keys, int32 otherwise | medium, not executed | `DtypeTable.DtypeForClampOutAsWritten` | `DtypeTable.DtypeForClampOut` |
| TrainingExtensions/torch/src/python/aimet_torch/tensor_quantizer.py:693-694 | the freeze guard reads the min/max parameters as booleans, which raises for a multi-channel parameter and refuses a one-channel encoding whose min and max are both 0.0 | min parameter [-1.0, -2.0], max [1.0, 2.0]: RuntimeError about an ambiguous boolean (`LearnedGrid.FreezeAsWrittenRejectsPerChannel`) | refuse only when a parameter is missing (the message says "not None") | medium, not executed | `LearnedGrid.FreezeAsWritten` | `LearnedGrid.Freeze` |
| TrainingExtensions/torch/src/python/aimet_torch/tensor_quantizer.py:808-842 | `quantize_parameters` reads encoding slots 2*index over all parameters, but `backward_pass_for_parameters` emits two gradients per enabled parameter only | parameters [a disabled, b enabled with a gradient]: b's gradients land in slots 0 and 1, and slots 2 and 3, read for b, are missing (`ParameterQuantizer.GradSlotsMisalignedAsWritten`) | two entries for every parameter, None for a disabled one, so slot 2i and 2i+1 belong to parameter i on both sides | low, not executed; the code that builds the encoding list is not part of this model | `ParameterQuantizer.EncodingGradsAsWrittenLayout` | `ParameterQuantizer.BackwardPassForParameters` |
