# Normalizing flows: planar layers, stacked and time-chained

This project models `src/generative/normalizing_flow.py` and proves the bookkeeping that file adds on top of the
numerical library:

- **Planar layer.** `PlanarFlow` computes `x + u_bar * tanh(x . w + b)`. The reversibility correction of `u`
  gives `u_bar`. The log-determinant is `-log|1 + (u_bar . w)(1 - tanh^2)|`. One parameter row is a single flow;
  `n_flows` rows are independent flows evaluated side by side, one group of samples each.
- **Stack of layers.** `FlowRandomVariable` runs its layers in list order. Each layer adds its log-determinant,
  taken at the layer's input, to the running log-density.
- **Conditional stack.** `FlowConditionalVariable` cuts the outputs of three networks on a covariate `y` into
  per-layer column blocks. Each block is the parameters of one layer.
- **Time chain.** `DynaFlowRandomVariable` stores a latent path of `time` slots of width `dim` as one vector. It
  walks adjacent pairs of slots. Each step joins the carried block with the next slot and runs that step's layer
  stack. It emits the first half and carries the second; the last carried block closes the output.
- **Conditional time chain.** `DynaFlowConditionalRandomVariable` unfolds observed paths into adjacent time
  pairs. Networks on those pairs yield one parameter row per example, for every step and layer.

Modules:

| file | module | contents |
|---|---|---|
| `common.dfy` | `Common` | vectors, dot products, concatenation of blocks, index arithmetic, errors |
| `planar_flow.dfy` | `PlanarFlows` | the planar layer, uninterpreted numerics with their two axioms, batches |
| `flow_random_variable.dfy` | `FlowRandomVariables` | the layer stack, base distributions, class `FlowRandomVariable` |
| `flow_conditional.dfy` | `FlowConditional` | per-layer slicing of network outputs, class `FlowConditionalVariable` |
| `dyna_flow.dfy` | `DynaFlows` | the time chain per sample and per batch, class `DynaFlowRandomVariable` |
| `dyna_flow_conditional.dfy` | `DynaFlowConditional` | time-pair unfolding, parameter index maps, class `DynaFlowConditionalRandomVariable` |

Modelling choices:

- `tanh`, `softplus`, `log` and the standard normal log-density are fields of a `Numerics` value passed in.
- `Sound(nm)` is the only set of facts assumed about them: `-1 < tanh x < 1` and `softplus x > 0`.
- A batch is `seq<seq<Vec>>`, indexed [group][sample]:
  - a single flow's `[n, dim]` tensor is one group;
  - an `[n_flows, n, dim]` tensor is `n_flows` groups.
- Random draws are parameters. This covers `np.random.normal` for fresh layers and `base_dist.sample` for base
  samples.
- The networks' outputs are parameters as well.
- The classes have `const` fields. Their loops are methods proved against specification functions:
  - `RunLayers` and `Transform` against `StackOut` and `LogDetSum`;
  - `RunChain` against `ChainOut` and `ChainLdj`;
  - the `SetUpFlows` and `SetupFlowLayers` loops against the per-layer parameter functions.

## Model

| member | source | states |
|---|---|---|
| PlanarFlows.CorrectedU | src/generative/normalizing_flow.py:47-52 | the corrected row keeps the width of u, and its dot product with w is softplus(u . w) - 1 |
| PlanarFlows.ReversibleConstraint | src/generative/normalizing_flow.py:47-52 | one corrected row per parameter row, row g corrected from w[g] and u[g] alone |
| PlanarFlows.ReversibilityHolds | src/generative/normalizing_flow.py:47-52 | every row of a constructed flow has u_bar . w == softplus(u . w) - 1 > -1, the invertibility condition |
| PlanarFlows.FromParams | src/generative/normalizing_flow.py:22-32 | a flow built from supplied w, b, u keeps them, and its u_bar is their correction |
| PlanarFlows.Construct | src/generative/normalizing_flow.py:10-45 | if any of w, b, u is missing, all three come from a single-row draw of width dim; otherwise the supplied ones are kept, with one flow per row of u |
| PlanarFlows.ApplyMovesAlongUBar | src/generative/normalizing_flow.py:63-65 | the output has the input's width, the displacement is c * u_bar with -1 < c < 1, and directions orthogonal to u_bar are unchanged |
| PlanarFlows.JacobianPositive | src/generative/normalizing_flow.py:80-84 | on a constructed flow 1 + (u_bar . w)(1 - tanh^2) > 0, so the log-determinant is -log of it and never of zero |
| PlanarFlows.Transform | src/generative/normalizing_flow.py:54-69 | every sample of group g is mapped by parameter row g; a single flow covers its one group |
| PlanarFlows.LogDet | src/generative/normalizing_flow.py:71-92 | one log-determinant term per sample, with the row chosen as in the transform |
| PlanarFlows.MultiFlowIndependence | src/generative/normalizing_flow.py:66-92 | group g of a multi-flow's transform and log-determinant is what row g alone, as a single flow, makes of group g |
| FlowRandomVariables.StackOutSnoc | src/generative/normalizing_flow.py:158-160 | running the first k + 1 layers is running the first k, then layer k: the layers apply in list order |
| FlowRandomVariables.RunLayers | src/generative/normalizing_flow.py:158-160 | every sample becomes the layers applied in order; its log-density gains each layer's log-determinant, taken at that layer's input |
| FlowRandomVariables.BaseLogProb | src/generative/normalizing_flow.py:148-155 | one log-density per sample and group: the sum of the per-coordinate log-densities of that sample |
| FlowRandomVariables.FlowRandomVariable.constructor | src/generative/normalizing_flow.py:97-127 | supplied layers are kept, otherwise num_layers fresh single flows of width dim; the default base is a standard normal; num_layers keeps its argument |
| FlowRandomVariables.FlowRandomVariable.SampleLogProb | src/generative/normalizing_flow.py:144-161 | fails exactly when a distribution base meets an empty layer list; otherwise the samples and log-density are the stack's result on the base samples |
| FlowRandomVariables.FlowRandomVariable.Transform | src/generative/normalizing_flow.py:163-166 | every sample becomes the layers applied in list order, the same StackOut that SampleLogProb's samples are |
| FlowRandomVariables.ConcatParamsRecovers | src/generative/normalizing_flow.py:138-142 | concatenating the layers' w, u column-wise and b end to end loses nothing: block i of the result is layer i's parameters |
| FlowRandomVariables.FlowRandomVariable.GetAllFlowParams | src/generative/normalizing_flow.py:138-142 | as written: fails when num_layers is zero or exceeds the layers held, otherwise recovers exactly the first num_layers layers |
| FlowRandomVariables.FlowRandomVariable.AllFlowParams | src/generative/normalizing_flow.py:138-142 | as intended: fails only with no layers, otherwise recovers every layer |
| FlowConditional.LayerParams | src/generative/normalizing_flow.py:201-205 | layer i gets one row per covariate row: columns [i * dim_x, (i + 1) * dim_x) of w and u, and column i of b |
| FlowConditional.LayerBlocksCoverColumns | src/generative/normalizing_flow.py:201-203 | the per-layer column blocks partition the output: concatenated in layer order they give back every column once, in place |
| FlowConditional.FlowConditionalVariable.SetUpFlows | src/generative/normalizing_flow.py:188-207 | layer i is the flow built from layer i's slices; every layer is constructed, has width dim_x and one row per covariate row |
| FlowConditional.FlowConditionalVariable.constructor | src/generative/normalizing_flow.py:177-211 | the inner variable holds the flows from the slices, keeps the default layer count of one, and the outputs are kept as w, u, b |
| FlowConditional.FlowConditionalVariable.SampleLogProb | src/generative/normalizing_flow.py:213-214 | delegates to the inner variable with the same error case and result |
| FlowConditional.AllFlowParamsAsWrittenDropsLayers | src/generative/normalizing_flow.py:127 | with two or more layers, the as-written parameter concatenation returns a w that holds only layer 0's dim_x columns, narrower than the network's output |
| FlowConditional.AllFlowParamsRecoversOutputs | src/generative/normalizing_flow.py:138-142 | the corrected concatenation of the conditional layers gives back the network outputs w and u exactly, and b column by column |
| DynaFlows.ChainOutBlocks | src/generative/normalizing_flow.py:246-264 | the output is as wide as the path, one block of width dim per slot: block t < time - 1 is the first half of step t's pair, the last block is the second half of the final step's pair |
| DynaFlows.ChainOfOneStepIsIdentity | src/generative/normalizing_flow.py:246-264 | a path of one slot comes out unchanged, with nothing added to its log-density |
| DynaFlows.ChainOfTwoStepsIsStack | src/generative/normalizing_flow.py:249-264 | a path of two slots is one pair: the output is the step's stack applied to the whole vector, with that stack's log-determinants |
| DynaFlows.CarriedCausal | src/generative/normalizing_flow.py:246-260 | the block carried into step t depends only on slots 0 .. t |
| DynaFlows.BlockCausal | src/generative/normalizing_flow.py:249-262 | output block t depends only on slots 0 .. t + 1 |
| DynaFlows.StepAdvances | src/generative/normalizing_flow.py:249-260 | one pass of the loop builds the pair (carried, slot t + 1) and splits the transformed pair into block t and the next carried block |
| DynaFlows.RunStep | src/generative/normalizing_flow.py:249-260 | one time step on a whole batch: block t and the next carried block of every sample, with step t's log-determinants added |
| DynaFlows.RunChain | src/generative/normalizing_flow.py:246-264 | every sample's output is its chain output, and its log-density gains every step's log-determinants, each at that step's layer inputs |
| DynaFlows.DynaFlowRandomVariable.constructor | src/generative/normalizing_flow.py:219-232 | time - 1 stacks of num_layers fresh single flows of width 2 * dim, full width dim * time, default base a standard normal |
| DynaFlows.DynaFlowRandomVariable.SetupFlowLayers | src/generative/normalizing_flow.py:234-238 | one stack per adjacent pair of slots, layer i of step t built from draw [t][i] |
| DynaFlows.DynaFlowRandomVariable.SampleLogProb | src/generative/normalizing_flow.py:240-265 | fails exactly for a precomputed base (no sample method) or an empty path of nonzero width; otherwise the time chain of the base draws from their summed base log-density |
| DynaFlowConditional.UnfoldTimePairsAt | src/generative/normalizing_flow.py:304-310 | row e * (time - 1) + t of the unfolding is slot t of example e followed by slot t + 1 |
| DynaFlowConditional.UnfoldTimePairs | src/generative/normalizing_flow.py:304-310 | n_example * (time - 1) rows, each 2 * obs_dim wide |
| DynaFlowConditional.UnfoldedPairsOverlap | src/generative/normalizing_flow.py:304-310 | the second half of pair t of an example is the first half of its pair t + 1 |
| DynaFlowConditional.UnfoldRecoversPath | src/generative/normalizing_flow.py:304-310 | the unfolding loses nothing: the first halves of an example's pairs, then the second half of its last pair, concatenated give back its path |
| DynaFlowConditional.EachOutputUsedOnce | src/generative/normalizing_flow.py:312-318 | every entry of a network output is read by exactly one (example, step, layer, entry), in example-then-time row order and layer-then-entry column order |
| DynaFlowConditional.ParametersFollowTheirPair | src/generative/normalizing_flow.py:320-334 | for a network acting row by row, the parameters of example e at step t come from that example's slots t and t + 1 alone |
| DynaFlowConditional.StepLayerParams | src/generative/normalizing_flow.py:330-341 | the parameters of layer i of step t have one row per example, w and u rows 2 * dim wide |
| DynaFlowConditional.DynaFlowConditionalRandomVariable.SetupFlowLayers | src/generative/normalizing_flow.py:320-341 | time - 1 stacks of num_layers flows, each built from its step's and layer's slices, of width 2 * dim with one row per example |
| DynaFlowConditional.DynaFlowConditionalRandomVariable.constructor | src/generative/normalizing_flow.py:270-305 | the flows are set up from the network outputs; full width dim * time; obs_dim is the path width divided by time, and every path of y must be exactly time slots of width obs_dim, the shape the reshape of the paths accepts |
| DynaFlowConditional.DynaFlowConditionalRandomVariable.SampleLogProb | src/generative/normalizing_flow.py:343-394 | fails exactly for a precomputed base; otherwise every example's draws go through the time chain with that example's parameter row, both source branches alike |

## Left out

- Floating point: `tanh`, `softplus`, `log` and the normal log-density are uninterpreted. Only their ranges (tanh in (-1, 1), softplus positive) are used.
- Random initialisation (`np.random.normal`, `tf.Variable`) and `base_dist.sample`: the draws are parameters of the constructors and of `SampleLogProb`.
- `MultiLayerPerceptron` is not part of this model. Its outputs are parameters of the conditional constructors with the stated widths. `ParametersFollowTheirPair` assumes only that a network acts row by row.
- The hidden widths (`hidden_units`, the local 128) and `dim_y` only configure the networks, so they play no part.
- Tensor rank: `tf.squeeze` and `expand_dims` are not modelled. A single flow's `[n, dim]` samples are one group and a single example's parameters are one row. The `n_example == 1` and `> 1` branches of the conditional `sample_log_prob` therefore coincide. The model also gives per-sample values where the source broadcasts: in multi-flow mode with one sample per group, the squeeze at line 92 leaves a `[n_flows]` log-determinant, and the `+=` at lines 159 and 383 adds it to a `[n_flows, 1]` log-density as an `[n_flows, n_flows]` table that mixes the flows.
- A zero row of `w` makes the reversibility correction divide by zero. Every constructor requires `w` rows with nonzero squared norm (`Admissible`, `NonDegenerate`) instead of modelling NaN.
- Shape errors the library raises at graph construction are preconditions: mismatched widths, draws of the wrong size, and a conditional path width that is not `time * obs_dim` (the constructor requires `Paths(y, time, ObsDim(y, time))`, as the reshape at line 305 rejects any other width). The unconditional empty-path case is modelled as an error.
- DynaFlowConditional.DynaFlowConditionalRandomVariable.constructor: requires `time >= 1`. With `time == 0` the source divides by zero when computing `obs_dim`.
- The positional argument at line 205 passes `b` as `dim`. That is harmless, since `dim` is used only when a parameter is missing, so `FromParams` ignores it.
- The docstring of the conditional Dyna variable allows a `(samples, log_prob)` base. The code calls `sample` on it regardless, modelled as the `NotSampleable` error.

## Findings

| source | as written | input that shows it | evidently intended | confidence | as-written member | corrected member |
|---|---|---|---|---|---|---|
| src/generative/normalizing_flow.py:127 | when layers are supplied, their count is stored in a misspelt attribute, so `num_layers` keeps its default of 1 and `get_all_flow_params` concatenates layer 0 only | `FlowConditionalVariable` with `flow_layers = 2`, `dim_x = 1` and two covariate rows: the inner variable's `get_all_flow_params` returns a `w` one column wide, not two | `num_layers = len(flows)`, so that every supplied layer is concatenated and the network outputs come back | medium, not executed | FlowConditional.AllFlowParamsAsWrittenDropsLayers | FlowRandomVariables.FlowRandomVariable.AllFlowParams |
