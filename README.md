# TD3 replay buffer and training round, modelled in Dafny

This project models the learning core of a TD3 (twin delayed deep
deterministic policy gradient) agent for a mobile robot. It covers:

- the **experience replay buffer**: a bounded FIFO store of transitions
  `(s, a, r, t, s2)`. Sampling draws `min(batch_size, count)` distinct
  entries and splits them into five parallel sequences;
- one **training call** of the learner, which runs `iterations` rounds.
  Each round samples a batch and smooths the target actor's next actions
  with clipped noise, clamped to the action range. It takes the minimum of
  the target critic's twin heads and forms the Bellman targets. It then
  steps the critic. On rounds `it` with `it % policy_update_freq == 0` it
  also steps the actor and soft-updates both target networks in place. The
  call accumulates the sum of the batch means and the running maximum of
  the pessimistic values, and the sum of the losses; afterwards the call counter goes up
  by one;
- the **terminal-flag rule** of the outer loop: a step that reaches the
  episode limit ends the episode, but is stored in the buffer as
  non-terminal.

Files:

- `Replay.dfy` (module `Replay`) holds the buffer. `class ReplayBuffer`
  keeps the deque as a `seq` field. `Pushed`/`AddAll` specify insertion;
  `IsDraw`, `Gather` and `Split` specify sampling.
- `Td3Rules.dfy` (module `Td3Rules`) holds the pure update rules:
  - clamping and smoothing;
  - the twin-head minimum and the Bellman target;
  - the soft update (`Lerp`, `Blend`);
  - the update schedule;
  - the terminal flags;
  - the max/mean/MSE statistics.
- `Td3Learner.dfy` (module `Td3Learner`) holds a round as a value
  (`Round`) and the per-round record `Rec`. `class Learner` keeps the four
  parameter vectors as arrays and updates them in place, including the
  soft-update loop `SoftUpdate`. `Train` is the training loop. It returns
  a ghost trace of the rounds it ran, and its contract ties every round
  and all three accumulators to that trace.

The networks and the optimisers are parameters of the model (`Ops`): a
forward pass of the actor and of each critic head, and the per-parameter
result of one optimiser step. The Gaussian noise draws are a parameter as
well (`Noise`). Random sampling is a nondeterministic choice of distinct
positions.

The buffer's code raises in two cases; the model returns them as results:

- `popleft` on an empty deque when `buffer_size <= 0`. `Add` then reports
  `ok == false` and leaves the state unchanged.
- `random.sample` with a negative size. `SampleBatch` then returns
  `Failure`.

## Model

| member | source | states |
|---|---|---|
| Replay.ReplayBuffer.constructor | TD3/replay_buffer.py:11-23 | a new buffer is empty, count 0, and keeps the given capacity |
| Replay.Pushed | TD3/replay_buffer.py:36-42 | the contents after one add: fails exactly on an empty buffer of non-positive capacity (the `popleft` of an empty deque); otherwise one longer below capacity and of the same length at capacity, with the new experience last |
| Replay.AddAll | TD3/replay_buffer.py:36-42 | the contents after a sequence of adds from empty: never fails for a positive capacity, and never holds more than were added |
| Replay.ReplayBuffer.Add | TD3/replay_buffer.py:36-42 | appends below capacity (count + 1); at capacity drops the oldest and appends (count unchanged, equal to capacity); fails with the state unchanged exactly when the capacity is not positive; the new contents are `Pushed` of the old |
| Replay.FifoWindow | TD3/replay_buffer.py:36-42 | adding a sequence of experiences to an empty buffer of positive capacity leaves exactly the last `capacity` of them, in insertion order |
| Replay.SizeAfterAdds | TD3/replay_buffer.py:37-42 | after `n` adds the occupancy is `min(capacity, n)` |
| Replay.NonPositiveCapacityFails | TD3/replay_buffer.py:37-41 | with capacity at most 0 every non-empty sequence of adds fails |
| Replay.ReplayBuffer.SampleBatch | TD3/replay_buffer.py:54-67 | fails exactly for a negative batch size; otherwise draws `min(batchSize, count)` distinct in-range positions and returns the split of the experiences found there |
| Replay.GatherSubMultiset | TD3/replay_buffer.py:56-59 | a drawn batch, as a multiset, is contained in the buffer (sampling without replacement) |
| Replay.SampledAreStored | TD3/replay_buffer.py:56-59 | every sampled experience is held by the buffer |
| Replay.Split | TD3/replay_buffer.py:61-65 | the five sequences have one row per sampled experience, in draw order; rewards and terminals are single-element columns |
| Replay.ZipSplit | TD3/replay_buffer.py:61-65 | reading row i across the five sequences gives back the i-th sampled experience |
| Replay.ReplayBuffer.Size | TD3/replay_buffer.py:76 | returns the count, which equals the number of stored experiences |
| Replay.ReplayBuffer.Clear | TD3/replay_buffer.py:82-83 | empties the buffer and resets the count to 0 |
| Replay.ClearThenAdd | TD3/replay_buffer.py:78-83 | after a clear, an add on a positive-capacity buffer succeeds and leaves exactly that experience |
| Td3Learner.SampledRowsStored | TD3/replay_buffer.py:56-67 | a batch sampled from the buffer has `min(batchSize, count)` rows, and each row is a stored experience |
| Td3Rules.Clamp | TD3/train_td3_obst_avoi.py:199-200 | the result is at most `hi`; it is at least `lo` when `lo <= hi`; values already in range are unchanged; values below are raised to `lo`; values above are lowered to `hi`; when `lo > hi` every value becomes `hi` |
| Td3Learner.SmoothedNext | TD3/train_td3_obst_avoi.py:195-200 | one smoothed next action per batch row: the target actor's action on the next state, plus clamped noise, clamped to the action range |
| Td3Rules.SmoothedAction | TD3/train_td3_obst_avoi.py:195-200 | the smoothed action lies in `[-maxAction, maxAction]` and differs from an in-range target action by at most `noiseClip` per component |
| Td3Learner.SmoothedInRange | TD3/train_td3_obst_avoi.py:195-200 | every next action a round feeds to the target critic lies in the action range |
| Td3Learner.MinTargetQ | TD3/train_td3_obst_avoi.py:203-206 | one pessimistic value per batch row: the smaller of the target critic's two heads on the next state and its smoothed action |
| Td3Rules.MinHeads | TD3/train_td3_obst_avoi.py:206 | each entry is at most both heads and equal to one of them |
| Td3Rules.Bellman | TD3/train_td3_obst_avoi.py:211 | a terminal flag of 1 gives the reward alone; a flag of 0 gives the reward plus the discounted next value |
| Td3Rules.Targets | TD3/train_td3_obst_avoi.py:211 | one Bellman target per batch row, from that row's reward, terminal flag and next value |
| Td3Learner.TargetQ | TD3/train_td3_obst_avoi.py:195-211 | one Bellman target per batch row, built from the pessimistic values of the round |
| Td3Rules.TerminalTarget | TD3/train_td3_obst_avoi.py:211 | a row with terminal flag 1 has its reward as target |
| Td3Rules.NonTerminalTarget | TD3/train_td3_obst_avoi.py:211 | a row with terminal flag 0 has reward plus discount times the next value as target |
| Td3Rules.PessimisticBound | TD3/train_td3_obst_avoi.py:206-211 | with a flag in [0, 1] and a non-negative discount, the target from the minimum is at most the target from either head |
| Td3Rules.TargetFollowsLowerHead | TD3/train_td3_obst_avoi.py:206-211 | when head 2 is below head 1 on every row, the targets equal those computed off head 2 |
| Td3Learner.RoundTargetsPessimistic | TD3/train_td3_obst_avoi.py:195-211 | every Bellman target of a round is at most the target computed from either target-critic head |
| Td3Learner.Loss | TD3/train_td3_obst_avoi.py:214-217 | the critic loss, the sum of both live heads' mean squared errors against the targets, is never negative |
| Td3Rules.Mean | TD3/train_td3_obst_avoi.py:207 | `torch.mean`: the sum of a non-empty column divided by its length |
| Td3Rules.Mse | TD3/train_td3_obst_avoi.py:217 | `F.mse_loss`: the mean of the squared differences of two equal-length non-empty columns |
| Td3Rules.MseNonNegative | TD3/train_td3_obst_avoi.py:217 | a mean squared error is never negative |
| Td3Rules.Lerp | TD3/train_td3_obst_avoi.py:236-238 | one soft-updated parameter: `tau = 1` gives the live value, `tau = 0` the old target, and any `tau` in [0, 1] a value between the two |
| Td3Rules.Blend | TD3/train_td3_obst_avoi.py:233-245 | the soft update applied to every parameter of a vector; the result has the vector's length |
| Td3Rules.BlendOne | TD3/train_td3_obst_avoi.py:233-245 | a soft update with `tau = 1` copies the live parameters |
| Td3Rules.BlendZero | TD3/train_td3_obst_avoi.py:233-245 | a soft update with `tau = 0` leaves the target unchanged |
| Td3Rules.LerpDistance | TD3/train_td3_obst_avoi.py:236-238 | one soft update multiplies the distance to the live value by exactly `abs(1 - tau)` |
| Td3Rules.BlendDistance | TD3/train_td3_obst_avoi.py:233-245 | the same holds for every parameter of a vector |
| Td3Rules.LerpApproaches | TD3/train_td3_obst_avoi.py:236-238 | for `0 < tau < 1` an unequal parameter strictly approaches the live one |
| Td3Rules.BlendApproaches | TD3/train_td3_obst_avoi.py:233-245 | the same for every unequal parameter of a vector |
| Td3Learner.SoftUpdate | TD3/train_td3_obst_avoi.py:233-245 | the in-place loop leaves the target array equal to the blend of the live array with the old target |
| Td3Rules.Gated | TD3/train_td3_obst_avoi.py:224 | round `it` updates the actor and the targets exactly when `abs(policy_update_freq)` divides `it` |
| Td3Rules.ModZeroAbs | TD3/train_td3_obst_avoi.py:224 | Python's and Dafny's remainders are zero together, also for a negative divisor |
| Td3Rules.GatedCountIsCeiling | TD3/train_td3_obst_avoi.py:179-224 | in one call of `n` rounds the actor is updated `ceil(n / abs(freq))` times |
| Td3Learner.Round | TD3/train_td3_obst_avoi.py:195-245 | the networks after one round: the critic takes its optimiser step toward the round's targets; on gated rounds the actor then steps against the new critic and both targets are soft-updated toward the new live networks; otherwise the actor and the targets stay; targets keep the shape of their live networks |
| Td3Learner.HeldBetweenGates | TD3/train_td3_obst_avoi.py:179-245 | in a run, if no round after round `i` up to round `j` passes the gate, round `j` leaves the actor and both targets exactly as round `i` left them |
| Td3Learner.CopiedTargets | TD3/train_td3_obst_avoi.py:224-245 | with `tau = 1` a gated round leaves each target equal to its live network |
| Td3Learner.FrozenTargets | TD3/train_td3_obst_avoi.py:179-245 | with `tau = 0` no number of rounds moves either target network |
| Td3Learner.Learner.constructor | TD3/train_td3_obst_avoi.py:143-157 | the four parameter arrays are new; the targets start as copies of the live networks; the call counter starts at 0 |
| Td3Learner.CreateAndTrain | TD3/train_td3_obst_avoi.py:266-303 | a newly built learner can be trained at once: after one call its counter is 1, and the run is chained from the initial networks, is faithful, samples from the buffer and folds the accumulators |
| Td3Learner.Learner.StepCritic | TD3/train_td3_obst_avoi.py:219-222 | the critic array becomes the optimiser step of the old critic |
| Td3Learner.Learner.StepActor | TD3/train_td3_obst_avoi.py:226-230 | the actor array becomes the optimiser step of the old actor, taken against the current critic |
| Td3Learner.Learner.TrainRound | TD3/train_td3_obst_avoi.py:179-245 | one round: the batch is sampled from the buffer and non-empty; the pessimistic values, the loss and the new arrays are those of `Round` on the old arrays |
| Td3Learner.Learner.RecordRound | TD3/train_td3_obst_avoi.py:179-247 | one pass of the loop extends the trace by a faithful, chained, sampled record and updates the three accumulators to match it |
| Td3Learner.Advance | TD3/train_td3_obst_avoi.py:179-247 | a record of the next round extends a trace's chaining, faithfulness, sampling and accumulators by one round |
| Td3Learner.Learner.Train | TD3/train_td3_obst_avoi.py:164-248 | runs `iterations` rounds, each round `k` faithful to `Round` with index `k` and starting where round `k - 1` ended; the final arrays are the last round's result; every batch is sampled from the buffer; the accumulators are the sum of batch means, the running max and the sum of losses over the rounds; the call counter goes up by one |
| Td3Learner.FaithfulAt | TD3/train_td3_obst_avoi.py:179-247 | the k-th record of a faithful trace is what round k computes |
| Td3Learner.ChainedAt | TD3/train_td3_obst_avoi.py:179-245 | the first round starts from the initial networks, each later one from its predecessor's result |
| Td3Learner.SampledAt | TD3/train_td3_obst_avoi.py:181-187 | every round's batch is sampled from the buffer |
| Td3Learner.MaxOver | TD3/train_td3_obst_avoi.py:177-208 | `max_Q_value` after the rounds of a trace: minus infinity before any round, finite after one |
| Td3Learner.SumMeans | TD3/train_td3_obst_avoi.py:176-207 | `average_Q_value` before the division: the sum of the rounds' batch means of the pessimistic values |
| Td3Learner.SumLoss | TD3/train_td3_obst_avoi.py:178-247 | `average_loss` before the division: the sum of the rounds' losses |
| Td3Rules.MaxExt | TD3/train_td3_obst_avoi.py:208 | the running max is finite after one value, is at least the new value and the old max, and is one of the two |
| Td3Rules.MaxSeq | TD3/train_td3_obst_avoi.py:208 | the maximum of a non-empty column bounds every entry and is one of them |
| Td3Learner.MaxOverBound | TD3/train_td3_obst_avoi.py:177-208 | the final `max_Q_value` is finite and at least the largest pessimistic value of every round |
| Td3Learner.MaxOverAttained | TD3/train_td3_obst_avoi.py:177-208 | the final `max_Q_value` is the largest value of one of the rounds |
| Td3Learner.SumLossNonNegative | TD3/train_td3_obst_avoi.py:217-247 | the accumulated loss of any faithful trace is never negative |
| Td3Rules.Flags | TD3/train_td3_obst_avoi.py:355-356 | both flags are 0/1; the episode ends exactly when the environment says done or the step limit is reached; the stored flag is 1 exactly when the environment said done before the limit; a stored 1 implies the episode ended |
| Td3Rules.EpisodeSteps | TD3/train_td3_obst_avoi.py:354-364 | the number of steps an episode runs from `t` steps done: it stops at the first step whose `done` flag is 1, takes at least one step when the environment reports any, and never more than it reports |
| Td3Rules.EpisodeBounded | TD3/train_td3_obst_avoi.py:354-364 | starting from `t < max_ep` steps done, an episode runs at most `max_ep - t` more steps, whatever the environment reports |

## Left out

- Neural networks, their forward passes and autograd are opaque functions. So is the Adam optimiser, whose moment state is not modelled; each step is a function of the current parameters and the batch.
- A network's parameter tensors are flattened into one vector. Zipping matching tensors of one architecture is then the elementwise soft update on that vector.
- The Gaussian noise generator and `policy_noise` are not modelled: the draws are an input function of round, row and component. Seeding (`random.seed`) is left out too, since sampling is a nondeterministic choice.
- Td3Learner.Learner.Train: its precondition asks, for a positive number of rounds, for a non-empty buffer, a positive batch size and a non-zero update frequency. Otherwise the source fails. An empty batch fails already in the target actor's forward pass. A zero frequency fails at the `%` of round 0, after that round's critic step has changed the critic; the model does not represent that partly updated state.
- Td3Learner.Learner.Train: it returns the three accumulators rather than writing `average_loss / iterations` and the other tensorboard scalars. The `ZeroDivisionError` for `iterations == 0` is not modelled.
- `get_action`, `evaluate`, `save`, `load`, the exploration noise and the obstacle-avoidance override of the outer loop, and all ROS and Gazebo interaction are left out. They are I/O, or outside the training core.
- Floating point is modelled as real arithmetic: rounding, NaN and infinities other than the `-inf` start of the maximum are not represented.
- The Python `max(max_Q_value, x)` is modelled as keeping the old maximum on ties. The two values are then equal anyway.
