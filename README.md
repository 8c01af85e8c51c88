# Stacked autoencoder: a verified model

This project models the core of deeptorch's stacked autoencoder, a Torch-based network
trained layer by layer. It has four parts:

- **Topology** (`stacked_autoencoder.dfy`, from `stacked_autoencoder.cc`). The stacked
  autoencoder holds a table of layer widths and the coders built from it: encoders, noisy
  encoders, decoders and an outputer. Over those shared coders it assembles graph views:
  - the per-layer autoencoders;
  - the cumulative "mesd" machines;
  - the supervised machine, the unsupervised machine and the supervised+unsupervised machine;
  - partial encoder stacks.

  Each view is a `Graph` value (layers of modules plus the links between them), and each
  builder is proved to produce exactly that value, well formed. The option setters are
  proved to write each regularisation option to exactly the coders the source writes it to.
  In the source the stacked autoencoder is itself its supervised machine (`sup_machine =
  this`, stacked_autoencoder.cc:163). The model keeps that graph in the field `supMachine`,
  and the trainer's machine reference `Sae` denotes it.
- **Trainer** (`trainer.dfy`, from `stacked_autoencoder_trainer.cc`). The staged trainer's
  control state is a class whose fields the phase methods update in place:
  - the machine and criterion the base trainer sees;
  - the layer-wise and top-K flags;
  - fine-tuning;
  - profiling;
  - the criterion-weight and fine-tuning-rate arrays.

  Every call of the base trainer's `train` is recorded, with the state it saw, in a
  `trace`. Each phase method is proved to append exactly the calls a specification function
  gives, and to leave the state that function gives. The forward/backward routine and the
  per-layer update return the list of calls they make. Those lists are proved to follow
  the source's order and to reach only existing coders.
- **ParameterSpace** (`analysis_utilities.dfy`, from `analysis/analysis_utilities.cc`). These
  are the parameter-space utilities. A `Parameters` object holds parameter groups as
  arrays. The gradient, the stepped parameters and the projected variance are all proved
  against the flat view of those groups: group `g` laid out from offset
  `size[0] + ... + size[g-1]`.
- **Schedule** (`stacked_autoencoder_main.dfy`, from `mains/stacked_autoencoder_main.cc`). The
  driver first makes its sanity checks on the options. It then runs the trainer through the
  phases in order, each phase only when its iteration cap is nonzero:
  1. layer-wise or selective pretraining;
  2. unsupervised training;
  3. combined training;
  4. supervised training, with optional layer-specific fine-tuning.

  The whole run is proved equal to a pure `Schedule` function. That function is proved to
  make its calls in phase order, each with its own learning rate and cap, and to end in the
  default state.

`graph.dfy` (module `Graph`) models the Torch `ConnectedMachine` substrate that the builders
call: `addMachine`, `addLayer`, `connectOn`, `addFCL` and `build`. It holds the structural
errors of that substrate as preconditions, so every builder is proved never to make one. The
substrate is not part of the repository, so its members have no row below. `wrappers.dfy`
holds `Option` and `Outcome`.

The external numeric code is represented by parameters:

- the base trainer's `train` appends to the trace;
- the coders' forward and backward passes are the calls listed in a `Step`;
- the per-example gradients a backward pass adds are an input sequence `examples`;
- the file of directions is input already split into lines of tokens, together with whether
  its last line ends with a newline (past the end, `getline` keeps an unterminated last line).

## Model

| member | source | states |
|---|---|---|
| Topology.StackedAutoencoder.constructor | stacked_autoencoder.cc:23-67 | The width table is the input width, the hidden widths and the output width. The coders fit that table. Every view holds the graph its builder promises, and every view is well formed. No option is set and no coder does partial backprop. |
| Topology.StackedAutoencoder.WidthTable | stacked_autoencoder.cc:44-53 | A fresh array holding the input width, then each hidden width in order, then the output width. |
| Topology.StackedAutoencoder.BuildLayerMachines | stacked_autoencoder.cc:60-62 | Autoencoder i and mesd machine i are their views for every layer i, and both are well formed. |
| Topology.StackedAutoencoder.BuildNetworkMachines | stacked_autoencoder.cc:64-66 | The supervised, unsupervised and combined machines are their views, all well formed. |
| Topology.StackedAutoencoder.BuildCoders | stacked_autoencoder.cc:69-116 | Encoder i maps width i to width i+1, and only encoder 0 may be smoothed. Noisy encoder i shares encoder i's weights and exists only in noisy mode. Decoder i maps back, tied to encoder i when weights are tied. The outputer maps the last hidden width to the output width with a log-softmax. |
| Topology.StackedAutoencoder.BuildAutoencoders | stacked_autoencoder.cc:118-133 | N autoencoders: autoencoder i is the noisy-or-plain encoder i followed by decoder i, well formed. |
| Topology.StackedAutoencoder.NewAutoencoder | stacked_autoencoder.cc:123-131 | One autoencoder built on a fresh machine equals its view and is well formed. |
| Topology.StackedAutoencoder.BuildMesdMachines | stacked_autoencoder.cc:135-153 | N mesd machines: machine i chains encoders 0..i-1, then the noisy-or-plain encoder i, then decoder i, well formed. |
| Topology.StackedAutoencoder.NewMesdMachine | stacked_autoencoder.cc:140-151 | One mesd machine built on a fresh machine equals its view and is well formed. |
| Topology.StackedAutoencoder.NewEncoderChain | stacked_autoencoder.cc:157-159 | A fresh open machine holding encoders 0..n-1, one per fully connected layer. |
| Topology.StackedAutoencoder.BuildSupMachine | stacked_autoencoder.cc:155-164 | The supervised machine chains all encoders and then the outputer, and is well formed. |
| Topology.StackedAutoencoder.AddCoreMachines | stacked_autoencoder.cc:166-183 | The machine gains all N encoders, one per layer, each connected on the one below. In noisy mode the input handle sits beside encoder 0. |
| Topology.StackedAutoencoder.AddEncodersUpToIncluded | stacked_autoencoder.cc:185-206 | The machine gains encoders 0..k, stacked the same way. For k < 0 it gains only the input handle, alone in its layer, and only when asked for. |
| Topology.StackedAutoencoder.AddUnsupMachines | stacked_autoencoder.cc:208-231 | Each layer's reconstruction branch goes into the open layer in layer order. Without noise, decoder i reads encoder i. With noise, autoencoder i reads encoder i-1, or the input handle for i = 0. |
| Topology.StackedAutoencoder.SourcesInStack | stacked_autoencoder.cc:240-263 | Every module a branch connects on is in the encoder stack below it, so no connectOn fails. |
| Topology.StackedAutoencoder.BuildUnsupMachine | stacked_autoencoder.cc:236-266 | The unsupervised machine is the encoder stack (without the last encoder in noisy mode) followed by every branch, and is well formed. |
| Topology.StackedAutoencoder.AddUnsupEncoders | stacked_autoencoder.cc:241-261 | The encoder layers of the unsupervised machine are a stack of UnsupEncoderCount encoders, with the handle in noisy mode. This covers the special case of one noisy layer, where the handle is alone. |
| Topology.StackedAutoencoder.BuildSupUnsupMachine | stacked_autoencoder.cc:268-284 | All encoders, then one last layer with the outputer connected on the last encoder, and every branch; well formed. |
| Topology.EncoderStackMembers | stacked_autoencoder.cc:185-206 | A partial stack holds exactly encoders 0..count-1, and holds the input handle exactly when it was asked for. |
| Topology.EncoderStackLayers | stacked_autoencoder.cc:187-204 | Encoder j is in layer j of the stack and the input handle is in layer 0. With no encoder, the handle is alone in one layer. |
| Topology.StackedGrow | stacked_autoencoder.cc:187-198 | Stacking one more encoder adds its own layer and one link onto the encoder below. |
| Topology.UnsupNoisyMembers | stacked_autoencoder.cc:233-261 | In noisy mode the unsupervised machine leaves out the last encoder and holds every other encoder and the input handle. With one hidden layer, its first layer is the handle alone. |
| Topology.UnsupPlainMembers | stacked_autoencoder.cc:236-263 | Without noise the unsupervised machine holds every encoder and every decoder, and no input handle. |
| Topology.BranchWiring | stacked_autoencoder.cc:208-231 | In both unsupervised machines, branch i is linked to its source: encoder i without noise, encoder i-1 with noise, or the handle for layer 0. |
| Topology.OutputerWiring | stacked_autoencoder.cc:274-278 | The combined machine links the outputer to the last encoder, and to nothing else. |
| Topology.DecayReach | stacked_autoencoder.cc:286-318 | A weight decay reaches every encoder and the outputer. It reaches the decoders exactly when weights are not tied. It reaches no other coder and no other option. |
| Topology.DestructionReach | stacked_autoencoder.cc:329-337 | Destruction options reach the noisy encoders only, and nothing without noise. |
| Topology.StackedAutoencoder.SetL1WeightDecay | stacked_autoencoder.cc:288-301 | The L1 decay is written to exactly the decay targets, and every other option is kept. |
| Topology.StackedAutoencoder.SetL2WeightDecay | stacked_autoencoder.cc:305-318 | The L2 decay is written to exactly the decay targets, and every other option is kept. |
| Topology.StackedAutoencoder.SetDecay | stacked_autoencoder.cc:290-300 | Encoders, then the outputer, then the untied decoders each receive the value. |
| Topology.StackedAutoencoder.SetOnEncoders | stacked_autoencoder.cc:290-292 | Every encoder receives the option and nothing else changes. |
| Topology.StackedAutoencoder.SetOnDecoders | stacked_autoencoder.cc:297-299 | Every decoder receives the option and nothing else changes. |
| Topology.StackedAutoencoder.SetBiasDecay | stacked_autoencoder.cc:321-327 | The bias decay goes to the encoders only. |
| Topology.StackedAutoencoder.SetDestructionOptions | stacked_autoencoder.cc:329-337 | In noisy mode both destruction options go to every noisy encoder. Otherwise nothing changes. |
| Topology.StackedAutoencoder.SetSmoothingDecay | stacked_autoencoder.cc:339-346 | With a smoothed first layer, both smoothing decays go to encoder 0 alone. Otherwise nothing changes. |
| Topology.StackedAutoencoder.SetPartialBackprop | stacked_autoencoder_trainer.cc:378 | The coder's partial-backprop flag is set or cleared, and no other coder's changes. |
| Trainer.ClearSequence | stacked_autoencoder_trainer.cc:188-193 | Every entry of every frame is zero. |
| Trainer.StackedAutoencoderTrainer.constructor | stacked_autoencoder_trainer.cc:43-87 | The trainer is on the stacked autoencoder and its supervised criterion, with every mode flag off, layer 0 and K = 0. It has N+1 zero weights and N+1 zero rates, the coders' partial-backprop flags, and nothing traced. |
| Trainer.StackedAutoencoderTrainer.FpropBprop | stacked_autoencoder_trainer.cc:244-287 | The base pass runs exactly when no mode is on. In layer-wise mode the pass runs forward on mesd machine `layer` and backward on autoencoder `layer`. In top-K mode it runs forward on everything, backward on the outputer, then the corrected top-K calls. With profiling, the profiled backward runs. |
| Trainer.TopKOrder | stacked_autoencoder_trainer.cc:266-277 | Top-K training calls backward on encoders N-1 down to N-K+1, in that order. Each call reads an existing encoder's outputs, or the data for encoder 0. Each gets its gradient from the layer above, or from the outputer on top. |
| Trainer.TopKStepsSnoc | stacked_autoencoder_trainer.cc:270-277 | One more top layer adds one backward call, on the next encoder down. |
| Trainer.TopKAsWrittenAgrees | stacked_autoencoder_trainer.cc:270-277 | The loop as written makes the intended calls in every case except N = 1, K = 2. |
| Trainer.TopKAsWrittenReadsMissingEncoder | stacked_autoencoder_trainer.cc:271-274 | With N = 1 and K = 2, the loop as written has encoder 0 read the outputs of encoder -1. |
| Trainer.StackedAutoencoderTrainer.UpdateMachine | stacked_autoencoder_trainer.cc:289-305 | Outside fine-tuning the update is the base update. When fine-tuning, the update is the per-layer fine-tuning updates. |
| Trainer.EncoderUpdatesReach | stacked_autoencoder_trainer.cc:298-301 | Fine-tuning updates encoder j with rate j exactly when that rate is positive, and touches nothing else. |
| Trainer.EncoderUpdatesAscending | stacked_autoencoder_trainer.cc:298-301 | The encoder updates come in increasing layer order. |
| Trainer.FinetuneUpdatesOutputer | stacked_autoencoder_trainer.cc:302-303 | The outputer is updated with the last rate exactly when that rate is positive. |
| Trainer.StackedAutoencoderTrainer.SetLearningRate | mains/stacked_autoencoder_main.cc:424 | The learning rate changes and the rest of the state is kept. |
| Trainer.StackedAutoencoderTrainer.SetMaxIter | mains/stacked_autoencoder_main.cc:425 | The iteration cap changes and the rest of the state is kept. |
| Trainer.StackedAutoencoderTrainer.ProfileGradientsInitialize | stacked_autoencoder_trainer.cc:681-687 | On a noisy stack the call fails and changes nothing. Otherwise profiling is on and nothing else changes. |
| Trainer.StackedAutoencoderTrainer.TrainUnsupLayer | stacked_autoencoder_trainer.cc:483-506 | One base-trainer call trains mesd machine `layer` on unsupervised criterion `layer` and data set `layer`. Afterwards the trainer is back on the stacked autoencoder and its criterion. |
| Trainer.StackedAutoencoderTrainer.TrainLayer | stacked_autoencoder_trainer.cc:314-315 | Layer i is trained as above, and the layer-wise layer is left at i. |
| Trainer.StackedAutoencoderTrainer.TrainOn | stacked_autoencoder_trainer.cc:497-502 | One base-trainer call on the given machine, criterion and data. |
| Trainer.StackedAutoencoderTrainer.TrainNextLayer | stacked_autoencoder_trainer.cc:313-316 | One loop step extends the layer-wise calls and state by layer i. |
| Trainer.StackedAutoencoderTrainer.TrainUnsupLayerwise | stacked_autoencoder_trainer.cc:308-319 | One call per layer 0..N-1, in order. The state after is that of the last layer, with layer-wise mode off again. |
| Trainer.StackedAutoencoderTrainer.TrainSelectiveUnsupLayerwise | stacked_autoencoder_trainer.cc:321-342 | One call per flagged layer, in increasing order. Layer-wise mode is off after. |
| Trainer.StackedAutoencoderTrainer.TrainIfFlagged | stacked_autoencoder_trainer.cc:326-338 | A loop step trains layer i exactly when its flag is 1. |
| Trainer.SelectedLayersSpec | stacked_autoencoder_trainer.cc:349-354 | The selected layers are exactly the flagged layers below N, each once, in increasing order. |
| Trainer.TopmostSpec | stacked_autoencoder_trainer.cc:347-354 | The topmost index is -1 exactly when no layer is flagged. Otherwise that layer is flagged and no layer above it is. |
| Trainer.StackedAutoencoderTrainer.TrainSupervisedTopKLayers | stacked_autoencoder_trainer.cc:509-529 | One call on the stacked autoencoder and supervised criterion with top-K mode on and K set. Top-K mode is off after, and K is kept. |
| Trainer.StackedAutoencoderTrainer.CountFlagged | stacked_autoencoder_trainer.cc:346-354 | The topmost flagged layer (or -1) and the number of flagged layers. |
| Trainer.StackedAutoencoderTrainer.SelectedCriteria | stacked_autoencoder_trainer.cc:423-433 | A fresh array of the flagged layers' unsupervised criteria, in layer order. |
| Trainer.SelectiveSourcesStacked | stacked_autoencoder_trainer.cc:360-371 | Every flagged branch's source is in the selective machine's encoder stack, so no connectOn fails. |
| Trainer.StackedAutoencoderTrainer.AddSelectiveMachines | stacked_autoencoder_trainer.cc:373-414 | The branches of exactly the flagged layers are added in order. Every encoder, and each flagged autoencoder in noisy mode, takes the partial-backprop flag. |
| Trainer.StackedAutoencoderTrainer.AddSelectiveLayer | stacked_autoencoder_trainer.cc:378-413 | One iteration extends the branches and the partial-backprop flags by layer i. |
| Trainer.StackedAutoencoderTrainer.BuildSelectiveMachine | stacked_autoencoder_trainer.cc:359-416 | The selective machine stacks the encoders up to the topmost flagged layer (one fewer with noise) and adds the flagged branches. It includes the handle only when layer 0 is flagged in noisy mode, and it is well formed. |
| Trainer.StackedAutoencoderTrainer.PrepareSelective | stacked_autoencoder_trainer.cc:346-433 | The selective graph, the flagged criteria and the partial-backprop flags, together. |
| Trainer.SelectedAutoencodersAmongAll | stacked_autoencoder_trainer.cc:395 | Every autoencoder a selective run toggles is one of the N autoencoders. |
| Trainer.StackedAutoencoderTrainer.ResetPartialBackprop | stacked_autoencoder_trainer.cc:465-469 | Partial backprop is off on every encoder, and on every autoencoder in noisy mode. Other coders keep theirs. |
| Trainer.SelectiveResetForgets | stacked_autoencoder_trainer.cc:465-469 | After the reset, the flags do not depend on what the run switched on. |
| Trainer.StackedAutoencoderTrainer.TrainSelectiveUnsup | stacked_autoencoder_trainer.cc:344-481 | One call on the selective machine and the unweighted concatenation of the flagged criteria, on data set 0, with the flags as set. Afterwards the defaults are back and the reset flags are off. |
| Trainer.StackedAutoencoderTrainer.ConcatParts | stacked_autoencoder_trainer.cc:621-631 | A fresh array: the given head, then every layer's unsupervised criterion. |
| Trainer.StackedAutoencoderTrainer.SetUnsupWeights | stacked_autoencoder_trainer.cc:635-637 | Every unsupervised weight is w, and the supervised weight is kept. |
| Trainer.StackedAutoencoderTrainer.SetSupUnsupWeights | stacked_autoencoder_trainer.cc:618-637 | The supervised data is kept. The weights are 1 for the supervised criterion and w for the others, and nothing else changes. |
| Trainer.StackedAutoencoderTrainer.TrainUnsupNotOutput | stacked_autoencoder_trainer.cc:533-583 | One call on the unsupervised machine and all N criteria, weighted by weights 1..N, which are all 1. Afterwards the defaults are back and the weights are kept. |
| Trainer.StackedAutoencoderTrainer.TrainSupUnsup | stacked_autoencoder_trainer.cc:610-679 | One call on the combined machine and N+1 criteria (the current one, then each layer's), weighted 1 and w. Afterwards the defaults are back and the data is kept. |
| Trainer.StackedAutoencoderTrainer.TrainUnsup | stacked_autoencoder_trainer.cc:586-608 | The combined run with every weight 1, and the outputer doing partial backprop during it. Its flag is off after. |
| ParameterSpace.GetNParams | analysis/analysis_utilities.cc:11-18 | The total number of parameters is the sum of the group sizes. |
| ParameterSpace.ClearDerivatives | analysis/analysis_utilities.cc:20-27 | Every entry of every derivative group is zero. |
| ParameterSpace.ClearGroupAt | analysis/analysis_utilities.cc:23-26 | One iteration clears group i and keeps the others. |
| ParameterSpace.ClearGroup | analysis/analysis_utilities.cc:24-25 | Every entry of one buffer is zero. |
| ParameterSpace.Locate | analysis/analysis_utilities.cc:91-97 | Every slot of the flat vector comes from one group and one entry. |
| ParameterSpace.OffsetBound | analysis/analysis_utilities.cc:96 | Group g lies entirely inside the flat vector. |
| ParameterSpace.OffsetsDisjoint | analysis/analysis_utilities.cc:93-96 | Different entries of different groups never share a flat slot. |
| ParameterSpace.FlattenAt | analysis/analysis_utilities.cc:93-96 | Entry k of group g sits at flat index offset(g) + k. |
| ParameterSpace.FlattenAccumulated | analysis/analysis_utilities.cc:81-88 | The accumulated derivatives, flattened, are the sum of the per-example gradients. |
| ParameterSpace.FlattenZero | analysis/analysis_utilities.cc:78 | Cleared derivatives flatten to zeros. |
| ParameterSpace.FlattenAdd | analysis/analysis_utilities.cc:87 | Adding gradients group by group adds them on the flat view too. |
| ParameterSpace.Backward | analysis/analysis_utilities.cc:87 | Each derivative group gains the example's gradient group. |
| ParameterSpace.BackwardGroup | analysis/analysis_utilities.cc:87 | One group of that addition. |
| ParameterSpace.ZeroVector | analysis/analysis_utilities.cc:75-76 | The gradient vector is all zeros. |
| ParameterSpace.AccumulateExamples | analysis/analysis_utilities.cc:81-88 | Starting from cleared derivatives, the examples' gradients are added in order. |
| ParameterSpace.CopyNormalized | analysis/analysis_utilities.cc:90-97 | Each group, divided by the number of examples, lands at its offset. The rest of the vector is kept. |
| ParameterSpace.CopyNormalizedAt | analysis/analysis_utilities.cc:94-96 | One group of that copy extends the normalised prefix. |
| ParameterSpace.CopyNormalizedGroup | analysis/analysis_utilities.cc:94-95 | One group, each entry divided, written at its offset. Nothing else is written. |
| ParameterSpace.EvaluateGradient | analysis/analysis_utilities.cc:69-100 | The flat vector is the mean of the per-example gradients, with the slots past the parameters zeroed. The derivatives are cleared after. |
| ParameterSpace.FlattenAndClear | analysis/analysis_utilities.cc:123-131 | The vector receives the flattened derivatives, and every group is cleared after its copy. |
| ParameterSpace.FlattenAndClearAt | analysis/analysis_utilities.cc:126-130 | One group: copied, then cleared. |
| ParameterSpace.CopyGroup | analysis/analysis_utilities.cc:126-127 | One group, written as it is at its offset. Nothing else is written. |
| ParameterSpace.InnerProduct | analysis/analysis_utilities.cc:133 | The inner product of two vectors. |
| ParameterSpace.ProjectExample | analysis/analysis_utilities.cc:116-131 | The example's gradient, flattened, is in the vector, and the derivatives are cleared again. |
| ParameterSpace.ProjectAt | analysis/analysis_utilities.cc:116-134 | The projection of example e is recorded and added to the running total. |
| ParameterSpace.ProjectExamples | analysis/analysis_utilities.cc:115-135 | The projections of every example's gradient on the direction, and their sum. The derivatives are cleared. |
| ParameterSpace.SumSquares | analysis/analysis_utilities.cc:141-150 | The sum of squares about the mean when centred, about zero otherwise. |
| ParameterSpace.SquaresNonNegative | analysis/analysis_utilities.cc:141-150 | That sum is never negative. |
| ParameterSpace.EvaluateGradientVarianceInDirection | analysis/analysis_utilities.cc:102-156 | The sample variance (divided by n-1) of the projected per-example gradients, centred or not. It is undefined for one example. The derivatives are cleared after. |
| ParameterSpace.VarianceNonNegative | analysis/analysis_utilities.cc:137-154 | The variance is never negative, and it is 0 for an empty dataset. |
| ParameterSpace.StepInParameterSpace | analysis/analysis_utilities.cc:158-167 | Every parameter moves by stepsize times the entry of the direction at its flat index. |
| ParameterSpace.StepGroupAt | analysis/analysis_utilities.cc:161-166 | One group of that step. |
| ParameterSpace.StepGroup | analysis/analysis_utilities.cc:162-164 | Each entry of one group moves by stepsize times the direction from its offset on. |
| ParameterSpace.FlattenStepped | analysis/analysis_utilities.cc:158-167 | On the flat view, the step is parameters + stepsize * direction. |
| ParameterSpace.LoadDirections | analysis/analysis_utilities.cc:30-67 | Loading passes exactly when every line read checks. On a pass, row i is the i-th line read. On a failure, the first bad line is named. |
| ParameterSpace.CheckPastEnd | analysis/analysis_utilities.cc:46-63 | Asking for more directions than the file has lines re-reads an unterminated last line, adding no failure. After a terminated last line the first extra direction is empty and fails with no token loaded. |
| ParameterSpace.LoadLine | analysis/analysis_utilities.cc:46-62 | A line is accepted exactly when it has n tokens. More tokens fail as too many, fewer fail as a wrong count with the number loaded. On a pass row i is the line, and other rows are untouched. |
| ParameterSpace.CheckDirectionsMeaning | analysis/analysis_utilities.cc:46-63 | The check passes exactly when all k lines have n tokens. A failure names a line that is bad while every line before it is good. |
| ParameterSpace.CheckDirectionsSticky | analysis/analysis_utilities.cc:46-63 | Once a line fails, reading more lines keeps that failure. |
| Schedule.CheckConfig | mains/stacked_autoencoder_main.cc:232-247 | The checks run in source order. The xentropy check fails exactly on a non-[0,1] transfer function. The binner check fails exactly when a phase runs before re-initialisation. The run passes exactly when all three checks hold, and a passing layer-specific run has at most 4 layers. |
| Schedule.RunOutcome | mains/stacked_autoencoder_main.cc:404-411 | The run outcome is the first failing check, otherwise the refusal to profile a stack that is noisy (corruption probability positive), otherwise a pass. |
| Schedule.PretrainSelection | mains/stacked_autoencoder_main.cc:445-453 | With at most four layers, the selective run trains exactly the layers whose option is 1. |
| Schedule.PretrainTableOverrun | mains/stacked_autoencoder_main.cc:445-450 | The writes as made fall outside the table exactly when there are fewer than four layers. Otherwise they give the intended table. |
| Schedule.FillPretrainFlags | mains/stacked_autoencoder_main.cc:445-450 | A fresh N-slot table whose first (up to four) slots hold the options, with only existing slots written. |
| Schedule.PretrainStage | mains/stacked_autoencoder_main.cc:423-455 | When the cap is nonzero, pretraining runs with its own rate and cap, either layer-wise or selectively on the flag table. |
| Schedule.PretrainPhaseRuns | mains/stacked_autoencoder_main.cc:423-455 | Pretraining makes N calls, 1 call or none, all on unsupervised data with the pretraining options. It keeps the weights and ends on the defaults. |
| Schedule.UnsupStage | mains/stacked_autoencoder_main.cc:459-473 | When the cap is nonzero, unsupervised training runs with its rate and cap, with or without the outputer. |
| Schedule.UnsupPhaseRuns | mains/stacked_autoencoder_main.cc:459-473 | One call when it runs, with its own options. |
| Schedule.SupUnsupStage | mains/stacked_autoencoder_main.cc:485-494 | When the cap is nonzero, combined training runs with its rate, cap and unsupervised weight. |
| Schedule.SupUnsupPhaseRuns | mains/stacked_autoencoder_main.cc:485-494 | One call when it runs, with its own options. |
| Schedule.ProfileOnStage | mains/stacked_autoencoder_main.cc:404-412 | With profiling asked for, profiling is switched on, or the stage fails on a noisy stack and nothing changes. |
| Schedule.PretrainingStages | mains/stacked_autoencoder_main.cc:423-494 | The first three phases in order equal the Pretraining function. |
| Schedule.PretrainingEvents | mains/stacked_autoencoder_main.cc:423-494 | The pretraining calls come first, then the unsupervised call, then the combined call. Each is on unsupervised data with its phase's rate and cap. |
| Schedule.PretrainingState | mains/stacked_autoencoder_main.cc:423-494 | The first three phases leave the learning rate of the last phase that ran. When any phase ran, they leave the stacked autoencoder and its criterion. Profiling and fine-tuning keep their value. |
| Schedule.ProfileOffStage | mains/stacked_autoencoder_main.cc:496-497 | Profiling is off again when it was asked for. |
| Schedule.CopyLayerRates | mains/stacked_autoencoder_main.cc:519-529 | The fine-tuning rates are the first N+1 layer-specific rates. |
| Schedule.SupervisedStage | mains/stacked_autoencoder_main.cc:512-538 | When the cap is nonzero, supervised training runs with its rate and cap. When asked for, it runs with layer-specific fine-tuning and the copied rates. |
| Schedule.SupervisedPhaseRuns | mains/stacked_autoencoder_main.cc:512-538 | One call on the supervised data with the state it leaves: rate, cap, fine-tuning and rates as set. |
| Schedule.Run | mains/stacked_autoencoder_main.cc:232-538 | The outcome is RunOutcome. On a failure nothing is trained or changed. On a pass, the trace and the state are those of the Schedule function. |
| Schedule.ScheduleOrder | mains/stacked_autoencoder_main.cc:404-538 | The whole run makes ScheduleCount calls in phase order, each phase with its own rate and cap, with profiling as asked for and without fine-tuning. |
| Schedule.SupervisedLast | mains/stacked_autoencoder_main.cc:496-538 | Only the last call, when supervised training runs, is on the supervised data. It has its own rate and cap, profiling off, and fine-tuning exactly when layer-specific fine-tuning is asked for. |
| Schedule.ScheduleFinalState | mains/stacked_autoencoder_main.cc:496-538 | The run ends on the stacked autoencoder and its criterion, with layer-wise mode and profiling off and the last phase's rate. Fine-tuning is on exactly when supervised training ran layer-specific fine-tuning. |

## Left out

- `EvalHessian` and the criterion-weight estimate of `IterInitialize`
  (stacked_autoencoder_trainer.cc:90-234): these are floating-point estimates over sampled
  examples. The model describes runs without `-eval_criter_weights` (main.cc:202, :394).
  With that option on, `IterInitialize` rewrites `criterions_weights` inside `train` from the
  second epoch on, and the concatenated criteria point into that array
  (stacked_autoencoder_trainer.cc:556-560, :641-644). So the weights that each recorded call
  shows, and the weights each phase is proved to keep or leave, hold only with the option off.
  This concerns Trainer.StackedAutoencoderTrainer.TrainUnsupNotOutput,
  Trainer.StackedAutoencoderTrainer.TrainSupUnsup, Trainer.StackedAutoencoderTrainer.TrainUnsup,
  Schedule.PretrainPhaseRuns, Schedule.UnsupPhaseRuns, Schedule.SupUnsupPhaseRuns and
  Schedule.Run.
- Gradient-profiling measurement (`ProfileLocalGradMeasureExample`, `...Iteration`, `...End`,
  the measurer lists and saved-gradient buffers, `TrainFinalize`, `IterFinalize`): this is
  numeric instrumentation. Only its flag, and the refusal on a noisy stack, are modelled.
- Measurer lists, `FakeDataMeasurer` wrapping, `setDataSet` on criteria, allocation and
  freeing, progress messages and warnings: these have no effect on which machine is trained
  on what.
- The resizing and clearing of coder beta buffers around partial backprop: `ClearSequence` is
  modelled on its own, but the buffers it clears are not part of the trainer state.
- `loadXFile` and `saveXFile`, and in the driver the command line, data loading, the building
  of the unsupervised data sets, criteria and measurers, results files, `SaveCSAE`, and the
  binner re-initialisation (main.cc:503-509): these are I/O that does not touch the trainer state.
- `analysis/hessian_estimator.cc` and `analysis/hessian_estimator_block.cc`: these are
  command-line programs that write files and call an external PCA estimator. The group
  flattening they rely on is the one modelled for `analysis_utilities.cc`.
- `saveOutputs` and the experiment-directory naming in the driver: file output only.
- The driver's "end accuracy" and "learning rate decay" options (main.cc:400-401): these are
  read by the base trainer's `train`, which is outside the model.
- NaN and infinity: reals are exact, so for example a zero divisor in the variance gives `None`.
- Trainer.StackedAutoencoderTrainer.TrainSelectiveUnsupLayerwise: it is modelled and proved,
  but the driver never calls it (its call in main.cc:452 is commented out).
- Schedule.Run: requires a trainer already built on a stack with the configured number of
  layers and noise, instead of building the stacked autoencoder and the trainer itself. It
  also takes the slots of the flag table beyond the fourth, which the driver never writes, as
  the parameter `stale`. It describes a run without `-eval_criter_weights`.
- ParameterSpace.EvaluateGradient: requires a nonempty dataset. The source divides by the
  number of examples, which gives NaN for an empty dataset.
- ParameterSpace.GetNParams: the count is an unbounded `nat`. The source's `int` could
  overflow for more than 2^31 - 1 parameters.
- Topology.StackedAutoencoder.constructor: requires at least one hidden layer. With none, the
  source reads `encoders[-1]` when it builds the combined machine.
- The base trainer's `train`, the coders' forward and backward passes and the generic update
  are outside the model. They are recorded as events and steps.

## Findings

| source | as written | input that shows it | evidently intended | confidence | as-written member | corrected member |
|---|---|---|---|---|---|---|
| stacked_autoencoder_trainer.cc:270-276 | The top-K loop tests `i == n_hidden_layers-1` before `i == 0`. So when the top encoder is also encoder 0, it reads `encoders[i-1]` | one hidden layer, `top_k_layers = 2` (allowed by the assertion at line 518): encoder 0 reads the outputs of encoder -1 | encoder 0 reads the data inputs | not executed | Trainer.TopKAsWrittenReadsMissingEncoder | Trainer.TopKOrder |
| mains/stacked_autoencoder_main.cc:445-450 | The table `int flags[flag_n_layers]` is declared with N slots, and slots 0..3 are then written whatever N is | `-n_layers 2` (the default) with selective pretraining and a nonzero layer-wise cap: slots 2 and 3 are written past the end | write only the slots the table has | not executed | Schedule.PretrainTableOverrun | Schedule.FillPretrainFlags |
