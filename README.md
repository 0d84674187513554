# SANN and the spikeai robots, modelled in Dafny

SANN is a small library of artificial neural networks:
- A network is a list of layers. Each layer is a list of nodes, and a node has incoming weights, a bias and, after a forward pass, a stored output.
- `create_ann` builds a network with random weights and biases.
- `forward_pass` feeds the inputs through the layers, storing each node's output; `clean_ann` removes the stored outputs.
- `backpropagate` adjusts weights and biases from the error against the expected outputs; `train` runs it over the training data for a number of epochs.
- `evolve` runs a genetic algorithm over populations ranked by fitness.
- `roulette_wheel_selection` picks an individual with probability proportional to its fitness.

The older `src/sann.py` is modelled too. Its nodes are bare weight lists with no bias, and its `tlu` fires only strictly above the threshold.

The spikeai examples drive little robots on a grid:
- a bot has two motors, a colour sensor and a distance sensor, and encodes its readings as eleven one-hot network inputs;
- a world holds obstacles and bots, and scans the cells ahead of a bot;
- the training script holds a world that moves bots by their motors, and a halting rule for evolution;
- the web bot world keeps bots in a dictionary keyed by their cell and moves them by random motor draws;
- the test world gives each bot a fixed behaviour and keeps a fading trail of where it has been.

## How the model is organised

- **`Common`**: `Option`, `Result` (a Python `ValueError` becomes `ValueError(message)`), Python's floored `%` on integers and `% 360` on angles, and Python's negative list indices.
- **`SannNetwork`**: nodes and layers as values, the forward pass as functions (`Forward`, and `ForwardCache` for the network with outputs stored), cleaning, and the networks `create_ann` builds.
  - The sigmoid is a parameter `sigma` of type `Logistic`: any function whose values lie strictly between 0 and 1.
  - The random draws are a parameter `u` of type `Uniform`, whose values lie in [-1, 1].
- **`SannBackprop`**: backpropagation as functions, node by node and layer by layer, from the output layer down, and training as a fold of backpropagation over `epochs` copies of the data.
- **`SannAnn`**: the network as a `class Ann` whose `layers` field the methods update in place, as the Python functions mutate the network they are given. Each method is proved equal to the functions above.
- **`SannEvolve`**: the stable ranking `sorted(..., key=..., reverse=...)` computes, the `evolve` loop, and roulette-wheel selection.
- **`SannLegacy`**: `src/sann.py`.
- **`SpikeBot`**: `examples/spikeai/bot.py`.
  - The trigonometry and rounding that find the cells ahead are a parameter `ray`, the cell at each distance along the heading.
- **`SpikeTrain`**: `examples/spikeai/train.py`, with its module globals as a `TrainingSession` object.
  - The displacement computed with `sin`, `cos` and `round` is a parameter `step`.
- **`WebBot`**: `examples/spikeai/web/bot.py`.
  - The bot dictionary is a sequence of (cell, entry) pairs kept in insertion order, because `tick` walks a snapshot of the dictionary in that order.
  - The `random.choice` motor draws are a parameter `draws`.
- **`WebTestWorld`**: `examples/spikeai/web/test_main.py`.
  - Bots are values with an `id`; `b["bot"] is bot` becomes an id comparison.
  - The functions for one tick take the sensors as a parameter `sense`, which gives the colour and distance readings of an entry in an arrangement of bots. `Readings` is the world's own pair `get_colour_ahead` and `get_distance_ahead`, and the class methods pass it. The lemmas about the movement loop therefore hold for any sensors.

### Where the model follows the code rather than its prose

- `tlu` in `sann.py` is documented as firing when the activation is *greater* than the threshold, but it tests `>=`. `SannNetwork.Tlu` follows the code. `SannLegacy.TluDiffersAtThreshold` shows that the two libraries differ exactly at the threshold.
- In `backpropagate` of `sann.py`, the errors passed down to a layer are computed from the weights of the layer above *after* that layer has been updated. `SannBackprop.ErrorsAt` does the same.
- `evolve` ranks the seed generation with the caller's `reverse`, but every later generation with `reverse=True`. `SannEvolve.Generation` keeps this.
- In `update_world` of `train.py`, a move is taken when the target is free and in bounds, *or* when no other bot stands there. A bot therefore walks into walls and off the grid when no bot is in the way. `SpikeTrain.LeavesTheWorld` shows such a move.
- `SpikeTrain.TrainingSession.Halt` keeps the globals of `halt_function` exactly as they are updated, including the case where the generation limit returns before touching them.
- The docstring of `BotWorld` in `examples/spikeai/web/bot.py` says the edge of the world does not wrap around and counts as an obstacle. Its `tick` wraps positions with `%`. `WebBot.Step` and `WebBot.TickedInBounds` follow the code.

## Model

| member | source | states |
|---|---|---|
| Common.PyMod | examples/spikeai/web/bot.py:191-192 | Python's `%`: for a positive modulus the result is in range and agrees with the Euclidean remainder; for a negative one it lies in (b, 0] |
| Common.PyIndex | examples/spikeai/bot.py:131-133 | the list slot Python writes for an index in [-n, n): the index itself, or the index plus n when negative |
| Common.Mod360 | examples/spikeai/train.py:68 | `angle % 360` lies in [0, 360) and differs from the angle by a whole number of turns |
| SannNetwork.Zip | sann.py:117 | `zip` stops at the shorter list and pairs the elements position by position |
| SannNetwork.SumInputsIsLeftSum | sann.py:39-44 | `SumInputs`, the model of `sum_inputs`, equals Python's `sum` of the products `x * w`, added from the left starting at 0 |
| SannNetwork.Activate | sann.py:117-119 | a node's output, the sigmoid of the activation `sum_inputs(zip(outputs, weights))` with the bias as threshold, lies strictly between 0 and 1 |
| SannNetwork.Tlu | sann.py:58-65 | the unit outputs 0 or 1, and 1 exactly when the activation reaches the threshold |
| SannNetwork.LayerOutputs | sann.py:115-121 | one output per node, each strictly between 0 and 1 |
| SannNetwork.CacheLayer | sann.py:116-120 | the layer keeps its size, and every node gets its own output stored |
| SannNetwork.Forward | sann.py:105-122 | an empty network returns the inputs; otherwise one output per node of the last layer, each strictly between 0 and 1 |
| SannNetwork.ForwardCache | sann.py:113-121 | the network keeps its layer count after the pass |
| SannNetwork.Outputs | sann.py:167 | one stored output per node |
| SannNetwork.CreatedNode | sann.py:93-100 | a node has one weight per node of the layer below, all weights and the bias in [-1, 1], and no stored output |
| SannNetwork.CreatedLayer | sann.py:91-100 | the layer has as many nodes as requested, each built from its own draws, with the given fan-in, no stored output, and weights and bias in [-1, 1] |
| SannNetwork.Created | sann.py:87-102 | the network has the requested layer sizes and fan-ins, no stored outputs, and weights and biases in [-1, 1] |
| SannNetwork.ForwardCacheKeepsParams | sann.py:113-121 | a forward pass changes no weight or bias and leaves an output stored in every node |
| SannNetwork.ForwardCacheOutputs | sann.py:114-121 | the outputs stored in layer i are the forward pass through layers 0..i |
| SannNetwork.ForwardReturnsLastOutputs | sann.py:120-122 | the returned outputs are exactly those stored in the last layer |
| SannNetwork.ForwardIgnoresCache | sann.py:117-119 | previously stored outputs have no influence on the result of a forward pass |
| SannNetwork.ForwardCacheIgnoresCache | sann.py:117-119 | previously stored outputs have no influence on the network a forward pass leaves behind |
| SannNetwork.CleanedKeepsParams | sann.py:125-134 | `Cleaned`, the model of `clean_ann`, keeps every weight and bias and removes every stored output |
| SannNetwork.CleanIdempotent | sann.py:130-134 | `Cleaned` twice is `Cleaned` once |
| SannNetwork.CleanedFixesNoCache | sann.py:132-133 | a network with no stored outputs is left unchanged |
| SannBackprop.FitsSameShape | sann.py:170-180 | the input and expected widths backpropagation needs depend only on the network's shape |
| SannBackprop.Shifted | sann.py:177-180 | the weight update keeps the number of weights |
| SannBackprop.UpdateNode | sann.py:170-183 | a node update keeps the number of weights and the stored output |
| SannBackprop.UpdateLayer | sann.py:170-183 | a layer update keeps its size, each node's weight count and its stored output |
| SannBackprop.PrevErrors | sann.py:186-198 | one error per node of the layer below |
| SannBackprop.OutputErrors | sann.py:153-156 | one error per pair of expected and actual outputs, stopping at the shorter list |
| SannBackprop.ErrorsAt | sann.py:159-198 | the errors reaching a layer cover every one of its nodes |
| SannBackprop.UpdatedAt | sann.py:169-183 | an updated layer keeps its size, weight counts and stored outputs |
| SannBackprop.Backprop | sann.py:137-200 | backpropagation keeps the network's shape |
| SannBackprop.PartlyUpdated | sann.py:160-198 | the half-finished network keeps its layer count |
| SannBackprop.PartlyUpdatedStep | sann.py:160-198 | one step of the downward loop updates layer i - 1 and leaves the layers below it untouched |
| SannBackprop.PartlyUpdatedEnds | sann.py:149-200 | running the downward loop to the bottom gives `Backprop` |
| SannBackprop.Errors | sann.py:159-198 | the errors for a layer of the network cover every one of its nodes |
| SannBackprop.LayerInputIsForward | sann.py:163-167 | the inputs a layer is updated against are the forward pass through the layers below it |
| SannBackprop.BackpropAt | sann.py:160-198 | layer i of the result is layer i of the cached network updated with the errors for layer i |
| SannBackprop.UpdateRule | sann.py:172-183 | each weight moves by rate × output × (1 - output) × error × its input, and the bias by rate × gradient |
| SannBackprop.InputWidth | sann.py:177-180 | every weight of a trainable node has an input to multiply |
| SannBackprop.BackpropNode | sann.py:170-183 | node j of layer i of the result is that node with its output from the forward pass, updated by the update rule |
| SannBackprop.UpdateLayerAt | sann.py:170-183 | node j of an updated layer is node j updated with error j |
| SannBackprop.UpdatedAtNode | sann.py:170-183 | node j of the updated layer i uses error j and the forward inputs of layer i |
| SannBackprop.CachedNode | sann.py:119 | the cached node keeps its weights and bias and stores its forward output |
| SannBackprop.BackpropErrorOrder | sann.py:153-198 | the output layer sees expected minus actual, and every lower layer sees the errors summed through the already updated layer above it |
| SannBackprop.ErrorsAtStep | sann.py:185-198 | passing errors down one layer yields enough errors for the layer below |
| SannBackprop.ErrorSumZero | sann.py:190-196 | a sum of terms that all carry a zero error is zero |
| SannBackprop.UpdateLayerZero | sann.py:170-183 | zero errors leave a layer unchanged |
| SannBackprop.ErrorsAtZero | sann.py:185-198 | zero output errors reach every layer as zero errors and leave it unchanged |
| SannBackprop.BackpropZeroError | sann.py:137-200 | when every output already matches, backpropagation changes no weight or bias and only stores the forward outputs |
| SannBackprop.BackpropIgnoresCache | sann.py:149-150 | outputs stored before the call do not influence backpropagation |
| SannBackprop.RunAll | sann.py:219-220 | one pass over the training data keeps the network's shape |
| SannBackprop.Trained | sann.py:203-223 | training keeps the shape; zero epochs return the network untouched, and at least one epoch leaves no stored outputs |
| SannBackprop.Schedule | sann.py:217-219 | every sample trained on comes from the training data |
| SannBackprop.ScheduleLayout | sann.py:217-219 | the samples are `epochs` copies of the training data, one whole copy per epoch, in order |
| SannBackprop.TrainableSub | sann.py:219 | a subset of trainable data is trainable |
| SannBackprop.TrainableSameShape | sann.py:219-220 | whether data can be trained on depends only on the network's shape |
| SannBackprop.RunAllConcat | sann.py:219-220 | training on a + b is training on a, then on b |
| SannBackprop.RunAllIgnoresCache | sann.py:219-220 | stored outputs do not influence a training pass |
| SannBackprop.RunAllStep | sann.py:219-220 | training on one more sample is one more backpropagation |
| SannBackprop.TrainedIsSchedule | sann.py:217-221 | training for `epochs` epochs is one cleaned backpropagation per sample of the epoch-by-epoch schedule |
| SannAnn.Ann.constructor | sann.py:87-102 | the object holds the given layers |
| SannAnn.Ann.ForwardPass | sann.py:105-122 | returns the forward-pass outputs and leaves the outputs of every layer stored |
| SannAnn.Ann.CacheOutputs | sann.py:115-121 | computes one layer's outputs and stores them in that layer only |
| SannAnn.Ann.Clean | sann.py:125-134 | removes every stored output in place and returns the same network |
| SannAnn.Ann.Backpropagate | sann.py:137-200 | updates the network in place to `Backprop` and returns the same network |
| SannAnn.Ann.PropagateDown | sann.py:159-198 | the downward loop leaves the network fully updated |
| SannAnn.Ann.UpdateLayerBelow | sann.py:160-198 | one iteration updates one layer and returns the errors for the layer below |
| SannAnn.Ann.UpdateLayerInPlace | sann.py:170-183 | updates the weights and bias of one layer in place, nothing else |
| SannAnn.Ann.Train | sann.py:203-223 | updates the network in place to `Trained` and returns the same network |
| SannAnn.Ann.RunEpoch | sann.py:219-220 | one epoch leaves the network backpropagated over every sample in order |
| SannAnn.UpdatedWeights | sann.py:177-180 | the loop over `k` computes the shifted weights |
| SannAnn.ErrorsBelow | sann.py:187-198 | the loop over the layer below computes `PrevErrors` |
| SannAnn.CreateAnn | sann.py:68-102 | ValueError with the library's message exactly when fewer than two sizes are given; otherwise a new network equal to `Created` |
| SannEvolve.Insert | sann.py:258-262 | inserting into a ranking adds one position and keeps it a list of valid positions |
| SannEvolve.RankPositions | sann.py:258-262 | the ranking lists n valid positions |
| SannEvolve.Range | sann.py:258-262 | the positions 0..n-1 in order |
| SannEvolve.Keys | sann.py:260 | one fitness key per individual |
| SannEvolve.Pick | sann.py:258-262 | one individual per position |
| SannEvolve.Rank | sann.py:258-262 | ranking keeps the population's size |
| SannEvolve.InsertPermutes | sann.py:258-262 | insertion only adds the new position |
| SannEvolve.RankPositionsPermutes | sann.py:258-262 | the ranking is a permutation of 0..n-1 |
| SannEvolve.BeforeOrder | sann.py:258-262 | the stable order is irreflexive, total and transitive |
| SannEvolve.InsertRanked | sann.py:258-262 | insertion into a ranked list keeps it ranked |
| SannEvolve.RankPositionsRanked | sann.py:258-262 | the ranking is ranked by key, with ties kept in their original order |
| SannEvolve.PickConcat | sann.py:258-262 | picking from a concatenation concatenates the picks |
| SannEvolve.SplitLast | sann.py:258-262 | a permutation of 0..n-1 splits into n-1 and a permutation of 0..n-2 |
| SannEvolve.PickSplit | sann.py:258-262 | removing one position removes one individual from the pick |
| SannEvolve.PickPermutes | sann.py:258-262 | picking by a permutation gives the same individuals |
| SannEvolve.RankIsStableSort | sann.py:258-262 | `sorted` returns a permutation of the population, ranked by fitness with ties kept stable |
| SannEvolve.RankMonotone | sann.py:258-273 | with `reverse` the fitness never rises along the ranking, and without it it never falls |
| SannEvolve.LoggedStep | sann.py:266-274 | `Generation`, the population the loop of `evolve` ranks at each step: one more loop iteration logs the next generation, ranked with `reverse=True` |
| SannEvolve.Evolve | sann.py:255-275 | every logged population is the ranked generation, halt was false for each earlier one, and the result is the first population at which halt is true |
| SannEvolve.TallyMonotone | sann.py:299-302 | `Tally`, the running sum of `roulette_wheel_selection`: with non-negative fitness it never falls and never exceeds the total |
| SannEvolve.SelectedHasFitness | sann.py:300-304 | the individual picked from the wheel has a fitness |
| SannEvolve.DrawBelowTotalSelects | sann.py:297-304 | a point below the total always selects someone |
| SannEvolve.DrawAtTotalFallsThrough | sann.py:297-304 | a point at the total selects no one, so the function falls through and returns None |
| SannEvolve.Roulette | sann.py:278-304 | a zero total gives the random choice; otherwise the result is the first individual whose tally passes the point, or None when no tally does |
| SannLegacy.Tlu | src/sann.py:53-60 | outputs 0 or 1, and 1 exactly when the activation exceeds the threshold |
| SannLegacy.TluDiffersAtThreshold | src/sann.py:53-60 | the two libraries' threshold units differ exactly when the activation equals the threshold |
| SannLegacy.LayerOutputs | src/sann.py:101-105 | one output per node, each strictly between 0 and 1 |
| SannLegacy.Forward | src/sann.py:91-107 | an empty network returns the inputs; otherwise one output per node of the last layer, each strictly between 0 and 1 |
| SannLegacy.Biased | src/sann.py:100-106 | a bias-free network seen as a network of the newer library has the same shape |
| SannLegacy.ForwardIsZeroBias | src/sann.py:91-107 | the older forward pass is the newer one with every bias 0 |
| SannLegacy.CreatedLayer | src/sann.py:83-86 | the layer has the requested nodes, each with one weight in [-1, 1] per node below |
| SannLegacy.Created | src/sann.py:81-88 | the network has the requested layer sizes, with weights in [-1, 1] |
| SannLegacy.Updated | src/sann.py:110-159 | backpropagation keeps the layer count |
| SannLegacy.UpdatedKeepsShape | src/sann.py:130-148 | backpropagation keeps every layer's size and weight count |
| SannLegacy.UpdateRule | src/sann.py:135-148 | each weight moves by rate × output × (1 - output) × error × its input |
| SannLegacy.UpdatedZeroError | src/sann.py:123-148 | when every output already matches, backpropagation changes nothing |
| SannLegacy.Ann.constructor | src/sann.py:81-88 | the object holds the given layers |
| SannLegacy.Ann.ForwardPass | src/sann.py:91-107 | returns the forward-pass outputs |
| SannLegacy.Ann.Backpropagate | src/sann.py:110-159 | updates the network in place to `Updated` and returns the same network |
| SannLegacy.CreateAnn | src/sann.py:63-88 | ValueError with the library's message exactly when fewer than two sizes are given; otherwise a new network equal to `Created` |
| SpikeBot.Encoding | examples/spikeai/bot.py:121-134 | the input layer has 11 slots |
| SpikeBot.EncodingOneHot | examples/spikeai/bot.py:121-134 | for proper readings, slots 0..4 are one-hot on the colour and slots 5..10 one-hot on the distance |
| SpikeBot.FirstOne | examples/spikeai/bot.py:121-134 | the first set slot lies in the range searched |
| SpikeBot.FirstOneAt | examples/spikeai/bot.py:121-134 | the only set slot is the one found |
| SpikeBot.DecodeEncoding | examples/spikeai/bot.py:121-134 | the colour and the distance can be read back from the input layer |
| SpikeBot.WheelOutputMeaning | examples/spikeai/bot.py:172-181 | `WheelOutput`, the speed `drive` gives one wheel: a wheel turns forwards exactly when its forwards output is at least its backwards one, at the speed of the larger output |
| SpikeBot.Bot.constructor | examples/spikeai/bot.py:55-63 | motors off, no readings, not collided |
| SpikeBot.Bot.SetMotors | examples/spikeai/bot.py:65-72 | a collided bot keeps its motors; any other bot takes the new values |
| SpikeBot.Bot.InputLayer | examples/spikeai/bot.py:121-134 | returns the encoding of the current readings |
| SpikeBot.Bot.Drive | examples/spikeai/bot.py:160-182 | each wheel takes the larger of its two outputs, negated when the backwards output wins, unless the bot has collided; the readings and the collision flag are kept |
| SpikeBot.ColourCode | examples/spikeai/bot.py:202-216 | red, green, blue and yellow obstacles read 1..4, and every other cell reads 0 |
| SpikeBot.ColourScan | examples/spikeai/bot.py:264-288 | `get_color_ahead` reads a colour code in 0..4; `ColourScanFinds` and `ColourScanSource` give its meaning |
| SpikeBot.ColourScanFinds | examples/spikeai/bot.py:264-288 | when the cells before a coloured obstacle are empty and in bounds, the scan returns its colour |
| SpikeBot.ColourScanSource | examples/spikeai/bot.py:264-288 | a non-zero reading comes from the first non-empty cell ahead, within five cells |
| SpikeBot.DistanceScan | examples/spikeai/bot.py:290-310 | the reading is 0 or a distance up to 5 at which the cell is out of bounds, an obstacle or a bot, with every nearer cell free |
| SpikeBot.BotWorld.constructor | examples/spikeai/bot.py:218-225 | the given size, no obstacles, no bots |
| SpikeBot.BotWorld.AddObstacle | examples/spikeai/bot.py:243-255 | a known kind is stored at the cell, overwriting what was there; an unknown kind is ignored |
| SpikeBot.BotWorld.ColourAhead | examples/spikeai/bot.py:264-288 | the loop returns the colour scan, a reading in 0..4 |
| SpikeBot.BotWorld.DistanceAhead | examples/spikeai/bot.py:290-310 | the loop returns the distance scan |
| SpikeTrain.HaltStep | examples/spikeai/train.py:162-191 | past the generation limit halt without touching the globals; otherwise keep the best fitness, reset or bump the plateau counter, and halt exactly when an improvement reaches the top score or, without an improvement, when the counter passes the plateau duration |
| SpikeTrain.HaltRunMonotone | examples/spikeai/train.py:175-176 | the best fitness recorded never falls over any series of calls |
| SpikeTrain.PlateauHalts | examples/spikeai/train.py:184-189 | without improvement, training halts within `fitness_plateau_duration` + 1 calls |
| SpikeTrain.TrainingSession.constructor | examples/spikeai/train.py:43-46 | both globals start at 0 |
| SpikeTrain.TrainingSession.Halt | examples/spikeai/train.py:162-191 | the result and the new globals are those of `HaltStep` |
| SpikeTrain.Survivors | examples/spikeai/train.py:77 | exactly the bots that have not collided remain, in order |
| SpikeTrain.Processed | examples/spikeai/train.py:78-105 | the loop keeps the number of bots |
| SpikeTrain.ProcessedAhead | examples/spikeai/train.py:78-105 | bots not yet reached by the loop are unchanged |
| SpikeTrain.ProcessedBehind | examples/spikeai/train.py:78-105 | bots already processed are not touched again |
| SpikeTrain.UpdateOfBot | examples/spikeai/train.py:78-105 | `Moved`, the loop body of `update_world`, seen through a whole pass: each bot ages by one tick and turns by ten times its motor difference; it stays put when its forward speed is 0, and otherwise moves unless the target is blocked and taken by another bot, in which case it collides |
| SpikeTrain.LeavesTheWorld | examples/spikeai/train.py:90-100 | a bot with no other bot in the way moves off the grid without colliding |
| SpikeTrain.LeavesTheWorldAlways | examples/spikeai/train.py:90-100 | for every bot, a move off the world that no other bot blocks is taken: the bot lands outside the world and does not collide |
| SpikeTrain.TrainingWorld.constructor | examples/spikeai/bot.py:218-225 | the given size, no obstacles, no bots |
| SpikeTrain.TrainingWorld.AddBot | examples/spikeai/train.py:61-69 | appends the bot at the given cell with its angle taken mod 360 |
| SpikeTrain.TrainingWorld.UpdateWorld | examples/spikeai/train.py:71-105 | drops the collided bots, then moves every survivor in order; obstacles are unchanged |
| SpikeTrain.TrainingWorld.MoveBot | examples/spikeai/train.py:79-105 | moves one bot in place against the others' current positions, nothing else |
| WebBot.Bot.constructor | examples/spikeai/web/bot.py:54-61 | motors off, no readings |
| WebBot.Bot.SetMotors | examples/spikeai/web/bot.py:63-69 | the motors take the new values, and the readings are kept |
| WebBot.Bot.InputLayer | examples/spikeai/web/bot.py:104-114 | the same eleven-slot encoding as the training bot |
| WebBot.Cells | examples/spikeai/web/bot.py:141 | the keys of the bot dictionary, in order |
| WebBot.Values | examples/spikeai/web/bot.py:141 | the entries of the bot dictionary, in order |
| WebBot.Without | examples/spikeai/web/bot.py:195 | deleting a key never makes the dictionary longer |
| WebBot.WithoutFrom | examples/spikeai/web/bot.py:195 | every pair left after deleting a key was there before, under a different key |
| WebBot.WithoutAbsent | examples/spikeai/web/bot.py:195 | deleting an absent key changes nothing |
| WebBot.WithoutAt | examples/spikeai/web/bot.py:195 | with distinct keys, deleting a key removes exactly its one pair |
| WebBot.ValuesConcat | examples/spikeai/web/bot.py:196 | the entries of a concatenation are the two lists of entries |
| WebBot.AppendFreshUnique | examples/spikeai/web/bot.py:157-158 | adding a fresh key keeps the keys distinct |
| WebBot.MoveToEnd | examples/spikeai/web/bot.py:195-196 | moving one pair to the end under a fresh key keeps every other pair and its order |
| WebBot.MovedUnique | examples/spikeai/web/bot.py:194-196 | a move to a cell no bot holds keeps the keys distinct |
| WebBot.MovedKeeps | examples/spikeai/web/bot.py:195-196 | a move loses no other pair |
| WebBot.StepKeeps | examples/spikeai/web/bot.py:179-196 | `Step`, one iteration of `tick`, keeps the keys distinct and the bots the same, and leaves every later snapshot entry in place |
| WebBot.TickedKeeps | examples/spikeai/web/bot.py:179-196 | the invariant holds after any number of iterations |
| WebBot.TickPreserves | examples/spikeai/web/bot.py:174-196 | `Ticked`, the loop of `tick` over the snapshot, keeps the number of bots, keeps one bot per cell, and moves bots without losing or duplicating any |
| WebBot.TickedInBounds | examples/spikeai/web/bot.py:191-193 | bots that start inside the grid stay inside it, because moves wrap around |
| WebBot.BotWorld.constructor | examples/spikeai/web/bot.py:134-141 | the given size, no obstacles, no bots |
| WebBot.BotWorld.AddBot | examples/spikeai/web/bot.py:143-163 | ValueError with the library's message exactly when the drawn cell holds an obstacle or a bot; otherwise the bot is added under that cell with the drawn heading |
| WebBot.BotWorld.AddObstacle | examples/spikeai/web/bot.py:165-172 | the first obstacle at a cell is kept; a new cell takes the given kind |
| WebBot.BotWorld.Tick | examples/spikeai/web/bot.py:174-196 | walks the snapshot in order and moves each bot to its wrapped target unless an obstacle or a bot is there |
| WebTestWorld.BehaviourMeaning | examples/spikeai/web/test_main.py:121-136 | `Behaviour`, the rule of `tick` that sets the motors: a colour fixes the motors whatever the distance: red stops, green goes straight, blue turns left, yellow turns right; with no colour, an obstacle within two cells spins the bot and anything else goes straight |
| WebTestWorld.MarkerSector | examples/spikeai/web/test_main.py:231-251 | `Marker`, `get_trail_marker`: the marker is the arrow of the 45° sector around the angle, and the fallback dot is never returned |
| WebTestWorld.Pushed | examples/spikeai/web/test_main.py:163-167 | the new trace is last, the oldest entry drops once the trail exceeds eight, and the trail is a suffix of the old trail plus the trace |
| WebTestWorld.Bumped | examples/spikeai/web/test_main.py:191-193 | every trace ages by one and keeps its position and angle |
| WebTestWorld.Young | examples/spikeai/web/test_main.py:197-201 | only traces of age at most 8 remain |
| WebTestWorld.YoungMembers | examples/spikeai/web/test_main.py:197-201 | a trace remains exactly when it was there and is young enough |
| WebTestWorld.YoungConcat | examples/spikeai/web/test_main.py:197-201 | the filter keeps the order of the trail |
| WebTestWorld.Aged | examples/spikeai/web/test_main.py:188-201 | ageing never lengthens a trail |
| WebTestWorld.PushedOk | examples/spikeai/web/test_main.py:163-167 | pushing onto a well-formed trail keeps it within eight traces and their ages within bounds |
| WebTestWorld.AgedBounded | examples/spikeai/web/test_main.py:188-201 | after ageing, every trace has age 1..8 |
| WebTestWorld.FindFrom | examples/spikeai/web/test_main.py:47-48 | the first position holding the bot, or none when it is absent |
| WebTestWorld.ColourSeen | examples/spikeai/web/test_main.py:46-62 | a reading in 0..4 and 0 for an unknown bot; for a bot in the world, an obstacle in the next cell is read as its colour code and an empty next cell as 0 |
| WebTestWorld.OthersMeaning | examples/spikeai/web/test_main.py:157-161 | a cell counts as taken exactly when some other bot stands on it |
| WebTestWorld.DistanceSeen | examples/spikeai/web/test_main.py:64-84 | a reading of at most 5 and 0 for an unknown bot; for a bot in the world, a non-zero reading is the first step along the ray that is off the grid, an obstacle or another bot, and every nearer step (all five for 0) is free |
| WebTestWorld.Sensed | examples/spikeai/web/test_main.py:100-136 | the bot keeps its identity and trail flag, its readings are what the sensors give for its entry, and its motors are the behaviour for those readings |
| WebTestWorld.Placement | examples/spikeai/web/test_main.py:142-186 | a bot moves only to an in-bounds cell free of obstacles and other bots, and otherwise stays where it was |
| WebTestWorld.PlacementMeaning | examples/spikeai/web/test_main.py:142-186 | the new angle is the old one plus ten times the motor difference, mod 360; with no forward speed only the angle changes; a target off the grid or on an obstacle turns the bot about from its old angle in place; a target another bot holds changes nothing; a bot moves exactly when it has forward speed and its target is in bounds and free, and then takes the target and the new angle |
| WebTestWorld.TickStep | examples/spikeai/web/test_main.py:95-186 | one iteration changes only its own bot and its own trail, and keeps the bot's identity |
| WebTestWorld.Moves | examples/spikeai/web/test_main.py:95-186 | the loop keeps the number of bots and the set of trails, with a trail for every bot |
| WebTestWorld.MovesStep | examples/spikeai/web/test_main.py:95-186 | one more iteration is one more `TickStep` |
| WebTestWorld.Started | examples/spikeai/web/test_main.py:89-93 | every bot gets a trail, old trails are kept, and new trails start empty |
| WebTestWorld.AgedAll | examples/spikeai/web/test_main.py:188-201 | ageing keeps the set of trails |
| WebTestWorld.MovesBounded | examples/spikeai/web/test_main.py:163-167 | the movement loop keeps every trail within eight traces |
| WebTestWorld.StartedBounded | examples/spikeai/web/test_main.py:89-93 | new empty trails are within bounds |
| WebTestWorld.AgedAllBounded | examples/spikeai/web/test_main.py:188-201 | after ageing every trace in every trail has age 1..8 |
| WebTestWorld.TickBounded | examples/spikeai/web/test_main.py:86-201 | a tick keeps every trail at most eight traces long, with ages 1..8 |
| WebTestWorld.StepArranged | examples/spikeai/web/test_main.py:142-186 | one iteration keeps the bots in bounds, on separate cells, with distinct ids |
| WebTestWorld.MovesArranged | examples/spikeai/web/test_main.py:95-186 | the whole movement loop keeps the bots in bounds, on separate cells, with distinct ids |
| WebTestWorld.TestWorld.constructor | examples/spikeai/web/test_main.py:32-37 | the given size, no bots, no obstacles, no trails |
| WebTestWorld.TestWorld.AddBot | examples/spikeai/web/test_main.py:39-40 | appends the bot at the cell with its angle taken mod 360 |
| WebTestWorld.TestWorld.AddObstacle | examples/spikeai/web/test_main.py:42-44 | a known kind is stored at the cell; any other kind is ignored |
| WebTestWorld.TestWorld.ColourAhead | examples/spikeai/web/test_main.py:46-62 | the loop returns `ColourSeen` |
| WebTestWorld.TestWorld.DistanceAhead | examples/spikeai/web/test_main.py:64-84 | the loops return `DistanceSeen` |
| WebTestWorld.TestWorld.TickEntry | examples/spikeai/web/test_main.py:95-186 | one loop iteration in place is `TickStep` |
| WebTestWorld.TestWorld.Sense | examples/spikeai/web/test_main.py:100-136 | returns the bot with its readings and motors as `Sensed` says, for the world's own sensors `Readings` |
| WebTestWorld.TestWorld.Place | examples/spikeai/web/test_main.py:142-186 | returns the new position and angle as `Placement` says |
| WebTestWorld.TestWorld.AgeTrails | examples/spikeai/web/test_main.py:188-201 | ages every trail in place, nothing else |
| WebTestWorld.TestWorld.AgeEach | examples/spikeai/web/test_main.py:191-193 | the loop ages every trace by one |
| WebTestWorld.TestWorld.StartTrails | examples/spikeai/web/test_main.py:89-93 | gives every bot a trail in place, nothing else |
| WebTestWorld.TestWorld.MoveAll | examples/spikeai/web/test_main.py:95-186 | the movement loop in place is `Moves` |
| WebTestWorld.TestWorld.Tick | examples/spikeai/web/test_main.py:86-201 | starts trails, moves every bot in order, then ages the trails; obstacles are unchanged |

## Left out

- Floating point: weights, outputs and angles are exact reals. `math.exp`, `math.sin`, `math.cos` and `round` are not modelled. The sigmoid is the parameter `sigma`; the cells and displacements they produce are the parameters `ray`, `ahead` and `step`.
- Randomness: `random.uniform`, `random.randint` and `random.choice` are parameters (`u`, the drawn cell and heading, `choice`, the fraction `u` of the roulette total, `draws`).
- `sigmoid`'s shape argument `r` is always its default 0.5 in the sources, so it is part of `sigma`.
- `SannEvolve.Evolve`: takes the seed population, where `evolve` builds it with `create_ann`, and runs for at most `fuel` generations, because `evolve` loops until `halt` says stop. With the fuel spent it returns `None`.
- The `log` callbacks of `train` and `evolve`, all `print` output in `test_main.py`, and the drawing in `examples/spikeai/web/main.py`.
- `fitness_function` and `main` of `examples/spikeai/train.py`. They build random worlds and call `sann.evolve` and `sann.clean_network` with arguments that do not match the library.
- `SpikeBot.Bot.Drive`: takes the network's outputs as a parameter, because `sann.run_network`, which `drive` calls, is not defined in either library.
- `Bot.detect_world` and `BotWorld.tick` of `examples/spikeai/bot.py`: in the base classes they raise `NotImplementedError`. The subclass sensing they dispatch to is `ColourAhead` and `DistanceAhead`, and driving is `Drive`.
- `SpikeBot.BotWorld`: keeps bot positions only. `add_bot` raises `NotImplementedError` in the base class, and `TrainingWorld.AddBot` models the subclass.
- `SpikeTrain.TrainingSession.Halt`: takes the best fitness as a number, where `halt_function` reads `current_population[0]["fitness"]`.
- `SpikeTrain.TrainingWorld.UpdateWorld`: follows `update_world` exactly, which never senses or drives, so the motors keep whatever values they had.
- `WebBot.BotWorld.Tick`: does not model the calls to `detect_world` and `input_layer`, which raise `NotImplementedError` on the base `Bot`, nor the motor values written into the bot objects. The draws decide the movement, as in the source.
- `examples/spikeai/web/test_main.py` subclasses `WebBotWorld`, which `web/bot.py` does not define; the world constants are taken from `BotWorld`.
- `TestBot` defines `detect_color`, but `detect_world` calls `detect_colour`, so as written every tick raises `NotImplementedError`. The model reads the colour through `get_colour_ahead`, as evidently intended.
- `SannEvolve.Roulette`: requires a non-empty population and a drawn index into it. With an empty population `roulette_wheel_selection` reaches `random.choice([])`, which raises `IndexError`; that path is not modelled.
- `SpikeBot.Bot.InputLayer`: requires readings whose slots lie in [-11, 11). Other readings make `input_layer` raise `IndexError`; that path is not modelled.
- `WebBot.Bot.InputLayer`: the same restriction and the same `IndexError` as `SpikeBot.Bot.InputLayer`.
- `WebBot.BotWorld.Tick`: requires a non-zero width and height when there are bots. Otherwise `% self.width` raises `ZeroDivisionError`; that path is not modelled.
- `WebBot.BotWorld.AddBot`: takes a drawn cell inside `1 .. width - 1` and `1 .. height - 1`, which exists only when both sides are at least 2. Below that `random.randint` raises `ValueError`; that path is not modelled.
- `SannBackprop.Fits` and `SannBackprop.Covers` are exactly the inputs for which `backpropagate` indexes no list out of range. `Backprop`, `Trained` and the `Ann` methods require them; the `IndexError` otherwise raised is not modelled.
- Layer sizes are `nat`: `create_ann` with a negative size builds empty ranges in Python, which the model does not admit.
- Object identity: bots are values (and ids in the test world). Aliasing, and a bot object added twice, are not modelled.
- `SannLegacy.Ann.Backpropagate`: requires `SannLegacy.Trainable`, so the error paths of `backpropagate` in `src/sann.py` are not modelled:
  - with more layers it adds a list to a float (`ann[i - 1][k]`) and raises `TypeError`;
  - it raises `IndexError` for an empty layer (`layer[0]`);
  - it raises `IndexError` for fewer expected values than nodes (the errors truncated by `zip` are read past their end);
  - it raises `IndexError` for a node with more weights than there are inputs (`inputs[k]`);
  - it raises `IndexError` for a node with fewer weights than node 0 (`node_weights[k]`).
- `SannLegacy.Updated`: requires `SannLegacy.Trainable` and leaves out the same `TypeError` and `IndexError` paths as `SannLegacy.Ann.Backpropagate`.
- `SpikeTrain.LeavesTheWorld` shows the permissive move condition of `update_world`. The model keeps that condition, with no corrected variant.
