# PPO baseline for service deployment — Dafny model

This is a model of the core of a reinforcement-learning baseline. In the baseline, a PPO agent learns where to deploy arriving services on a small cluster of nodes. The nodes can fail and recover.

The model consists of three modules, one per source file.

## Modules

### `Environment` (`environment.dfy`)
This module models `ServiceDeploymentEnv`.

- **The pure transition function:** `Transition` takes the current event, the node state (status, occupancy, agent count), the capacities, the action and the random node choice. It returns the next state and the reward.
  - It follows the four event branches of `step`. That includes the redundant departure guard and the clamp at zero on node failure.
- **The observation function:** `Observation` builds the event one-hot, the node status, occupancy divided by capacity, and agents divided by `max_agents`.
- **The class:** `ServiceDeploymentEnv` holds the node arrays as Dafny `array`s that `step` updates in place. `Step` is proved against `Transition`.
- **The main invariant:** `TransitionPreservesInvariant` proves that every transition preserves the following:
  - the agent count equals the total occupancy;
  - each occupancy lies in `[0, capacity]`;
  - statuses are 0 or 1;
  - failed nodes are empty.

### `Rollout` (`buffer.dfy`)
This module models `RolloutBuffer`: six parallel sequences that `add` appends to and `clear` empties.

- **GAE:** Generalized Advantage Estimation is specified by the recursion `Advantage(t) = delta_t + gamma*lambda*(1-done_t)*Advantage(t+1)`.
- **The backward loop:** `ComputeReturnsAndAdvantages` is proved equal to that recursion.
- **The closed form:** the recursion is also proved equal to the discounted sum of TD residuals.
- **Episode boundaries:** a `done` flag cuts the recursion.

### `Trainer` (`ppo_trainer.dfy`)
This module models `PPOTrainer.update` and the losses it uses.

- **Per-sample losses:** the clipped surrogate, the clipped value loss, and the weighted total loss with its entropy term.
- **Mini-batches:** the slicing of each epoch's shuffled index order into mini-batches, proved to partition it.
- **The update itself:** the epoch and mini-batch loops. The reported statistics are proved to be the averages of the per-batch losses over all `epochs × ⌈n / batch_size⌉` steps.

### Inputs the model takes as parameters
Random draws and network outputs are passed in as parameters:

| In the source | In the model |
|---|---|
| the node picked by `np_random.choice` | `choice`, restricted by `ChoiceEligible` to the nodes `step` could pick |
| the next event index | `nextEventIndex` |
| the per-epoch shuffle | `perms`, each a permutation |
| what the policy yields for transition `i` after `k` optimiser steps | `evaluate(k, i)`: probability ratio, value, entropy |
| advantage normalisation | a length-preserving `normalize` |

### Where the documentation and the code disagree
The documentation describes every observation entry as lying in `[0, 1]`. The code does not bound the agent entry, and the model follows the code.

- With the defaults (3 nodes of capacity 5, `max_agents = 10`), up to 15 agents can be deployed.
- That makes the entry reach 1.5.
- `AgentRatioCanExceedOne` proves that successful arrivals from the reset state that fill three nodes of capacity c reach such a state whenever 3c > `max_agents`; the defaults (fifteen arrivals) are one instance. `ObservationBounds` proves only that this entry is non-negative.

## Model

| member | source | states |
|---|---|---|
| Environment.EventIndex | environment.py:42-43 | the event's index in `EVENT_TYPES` is below the number of event types (5) |
| Environment.EventOf | environment.py:176-180 | the event drawn for index `i` has index `i` |
| Environment.EventOfIndex | environment.py:42-43 | mapping an event to its index and back gives the same event |
| Environment.NodesInvariant | environment.py:101-164 | defines the invariant of the node arrays: agents equal total occupancy, 0 ≤ occupancy ≤ capacity, status 0 or 1, failed nodes empty (its preservation is `TransitionPreservesInvariant`) |
| Environment.InitialNodes | environment.py:64-74 | defines the reset node state: every node active and empty, no agents (it meets the invariant by `InitialNodesSatisfyInvariant`) |
| Environment.ChoiceEligible | environment.py:134-164 | defines which node may stand for the random draw: an occupied node for a departure, an active one for a failure, a failed one for a recovery, whenever one exists |
| Environment.Transition | environment.py:101-164 | the next state keeps one status and one occupancy per node |
| Environment.InitialNodesSatisfyInvariant | environment.py:61-81 | the reset state (all active, all empty, no agents) satisfies the node invariant |
| Environment.DepartureGuardRedundant | environment.py:134-138 | under the invariant, `num_agents > 0` holds exactly when some node is occupied, so the inner guard never fails |
| Environment.TransitionPreservesInvariant | environment.py:111-164 | every event transition preserves: agents equal total occupancy, 0 ≤ occupancy ≤ capacity, binary status, failed nodes empty |
| Environment.ArrivalOnNode | environment.py:115-128 | deploying to an active non-full node adds one service and one agent with reward 1; otherwise nothing changes and the reward is -1 |
| Environment.ArrivalReject | environment.py:129-132 | the reject action (index ≥ number of nodes) leaves the state unchanged with reward -0.5 |
| Environment.ActionIgnoredUnlessArrival | environment.py:134-164 | for any event other than an arrival, the action has no influence on the outcome |
| Environment.DepartureEffect | environment.py:134-142 | a departure removes one service from the chosen occupied node and one agent, reward 0; with no agents nothing changes |
| Environment.FailureEffect | environment.py:144-155 | a failure sets the chosen active node to failed and empty, subtracts exactly its load from the agents (the clamp never fires) and rewards -2 × the load; with no active node nothing changes |
| Environment.RecoveryAndNoEventEffect | environment.py:157-164 | a recovery reactivates the chosen failed node with reward 0.5 and nothing else changes; `no_event` changes nothing |
| Environment.ScenarioArrivalOnEmptyNode | environment.py:119-123 | an arrival on an empty active node of capacity 1 deploys, reward 1 |
| Environment.ScenarioArrivalOnFullNode | environment.py:125-127 | an arrival on a full node fails, reward -1 |
| Environment.ScenarioFailureOfLoadedNode | environment.py:144-154 | failure of a node holding 3 services loses them all, reward -6 |
| Environment.ObservationDim | environment.py:53 | defines the observation length: event types + nodes + nodes + 1 (`Observation` has this length) |
| Environment.Observation | environment.py:86-99 | length 5 + 2·nodes + 1; event one-hot, node status, occupancy / capacity and agents / max_agents at their offsets |
| Environment.ObservationEntryBounds | environment.py:86-99 | under the invariant each one-hot, status and occupancy-ratio entry lies in [0, 1] |
| Environment.ObservationBounds | environment.py:86-99 | under the invariant every entry but the last lies in [0, 1] and the last is non-negative |
| Environment.Arrivals | environment.py:115-128 | the node state after a run of arrival events with the given actions, each step by `Transition`; it keeps one status and one occupancy per node |
| Environment.ArrivalsConcat | environment.py:115-128 | running two runs of arrivals one after the other is running their concatenation |
| Environment.FillNode | environment.py:119-123 | k arrivals to an active node with room for k more all deploy: its occupancy and the agent count grow by k, nothing else changes |
| Environment.ThreeNodesFilled | environment.py:61-74 | from the reset state, c arrivals to each of three nodes of capacity c fill every node, with 3c agents |
| Environment.AgentRatioCanExceedOne | environment.py:86-99 | whenever 3c > max_agents > 0 (with the defaults: 15 > 10), the state that successful arrivals reach from the reset state by filling three nodes of capacity c satisfies the invariant and has agent entry 3c / max_agents > 1 (1.5 with the defaults) |
| Environment.InitialObservation | environment.py:61-84 | the reset observation is the `no_event` one-hot, all-ones status, zero occupancy and zero agents |
| Environment.ServiceDeploymentEnv.NewNodeArrays | environment.py:64-71 | three fresh distinct arrays: all-ones status, zero occupancy, constant capacity |
| Environment.ServiceDeploymentEnv.GetObservation | environment.py:86-99 | the observation of the current event and node arrays, as defined by `Observation` |
| Environment.ServiceDeploymentEnv.constructor | environment.py:31-59 | stores the configuration, sets observation dimension 5 + 2·nodes + 1 and action count nodes + 1, and leaves the environment valid and in the reset state |
| Environment.ServiceDeploymentEnv.Reset | environment.py:61-84 | restores the reset state (fresh arrays, no agents, `no_event`, step 0) and returns the matching observation |
| Environment.ServiceDeploymentEnv.GenerateNextEvent | environment.py:176-180 | the current event becomes the one drawn for the given index; nothing else changes |
| Environment.ServiceDeploymentEnv.ApplyEvent | environment.py:111-164 | the new node state and the reward are exactly `Transition` of the current event, the old state, the action and the choice; only the agent count and the two node arrays change |
| Environment.ServiceDeploymentEnv.Step | environment.py:101-174 | the new node state and the reward are exactly `Transition` of the old state; the step count increases by one; terminated iff steps ≥ 100; never truncated; the observation is of the new state; the invariant is kept |
| Rollout.NextValue | buffer.py:78-81 | defines the bootstrapped value: the next value, or 0 at the last transition |
| Rollout.Delta | buffer.py:83 | defines the temporal-difference residual r_t + gamma·next value·(1 - done_t) - V_t |
| Rollout.Decay | buffer.py:84 | defines the factor gamma·lambda·(1 - done_t) by which the next advantage flows back |
| Rollout.Gae | buffer.py:76-85 | defines the backward recursion gae_t = delta_t + decay_t·gae_{t+1}, 0 past the end (closed form in `GaeClosedForm`) |
| Rollout.Advantage | buffer.py:76-85 | defines the advantage at t as that recursion over the buffer's residuals and decays |
| Rollout.Advantages | buffer.py:56-90 | one advantage per transition |
| Rollout.Deltas | buffer.py:83 | one temporal-difference residual per transition |
| Rollout.Decays | buffer.py:84 | one decay factor gamma·lambda·(1 - done) per transition |
| Rollout.ReturnsOf | buffer.py:88 | one return per transition, each its advantage plus its value |
| Rollout.AdvantageStep | buffer.py:77-85 | the advantage at t is the residual r_t + gamma·V_{t+1}·(1 - done_t) - V_t plus decay_t times the advantage at t + 1, where V_{t+1} is 0 at the last transition |
| Rollout.AdvantageAtEnd | buffer.py:76 | the advantage past the last transition (the loop's starting `gae`) is 0 |
| Rollout.DiscountedSumHead | buffer.py:83-84 | the discounted sum of residuals from t splits into its head plus the decayed sum from t + 1 |
| Rollout.GaeClosedForm | buffer.py:76-85 | the backward recursion over any residuals and decays equals the discounted sum of the residuals |
| Rollout.AdvantageClosedForm | buffer.py:73-88 | the GAE advantage at t equals the sum over k ≥ t of delta_k weighted by the product of gamma·lambda·(1 - done) over t..k-1 |
| Rollout.LastAdvantage | buffer.py:78-85 | the last transition's advantage is its reward minus its value, with nothing bootstrapped |
| Rollout.DoneAdvantage | buffer.py:83-85 | at a terminal transition the advantage is reward minus value |
| Rollout.GaeCut | buffer.py:84 | a zero decay at t makes the recursion at steps up to t independent of everything after t |
| Rollout.DoneCutsRecursion | buffer.py:83-85 | advantages at or before a terminal transition equal those of the trajectory truncated after it |
| Rollout.SingleDoneTransition | buffer.py:73-88 | a single terminal transition has advantage r - v and return r |
| Rollout.TwoTransitions | buffer.py:73-88 | the two-step case written out: the first advantage is its residual plus gamma·lambda times the second; the returns are adv_0 + v_0 and r_1 |
| Rollout.BackwardStep | buffer.py:80-85 | one iteration of the backward loop turns the advantage at t + 1 into the advantage at t |
| Rollout.ReturnStep | buffer.py:83-88 | the returns satisfy the lambda-return recursion G_t = r_t + gamma·(1 - done_t)·((1 - lambda)·V_{t+1} + lambda·G_{t+1}), and G_t = r_t at the last transition |
| Rollout.RolloutBuffer.constructor | buffer.py:14-20 | all six sequences start empty |
| Rollout.RolloutBuffer.Add | buffer.py:22-30 | appends each item to its own sequence; the length grows by one; nothing else changes |
| Rollout.RolloutBuffer.Clear | buffer.py:32-39 | all six sequences become empty |
| Rollout.RolloutBuffer.Len | buffer.py:92-94 | the number of stored transitions, the length of the state sequence |
| Rollout.RolloutBuffer.Get | buffer.py:41-54 | the batch has one entry per stored transition, each equal to the stored item |
| Rollout.RolloutBuffer.ComputeReturnsAndAdvantages | buffer.py:56-90 | the backward loop's advantages equal the GAE recursion; the returns are `ReturnsOf` them and the stored values |
| Trainer.Clamp | ppo_trainer.py:114 | the result lies in [lo, hi]; it is x inside the range, lo below it and hi above it |
| Trainer.Surrogate | ppo_trainer.py:113-115 | defines the clipped objective min(ratio·A, clip(ratio, 1 - ε, 1 + ε)·A) (its bounds are `SurrogateBounds`) |
| Trainer.SurrogateInsideRange | ppo_trainer.py:112-115 | inside the trust region the clipped objective is the plain ratio·advantage |
| Trainer.SurrogateBounds | ppo_trainer.py:113-115 | the clipped objective never exceeds ratio·advantage, nor (1+ε)·A for A ≥ 0, nor (1-ε)·A for A < 0 |
| Trainer.SurrogateClippedBranch | ppo_trainer.py:113-115 | past the trust region on the favoured side the objective is the clipped (1±ε)·A |
| Trainer.ClippedValue | ppo_trainer.py:118-122 | the clipped value is within ε of the old value, and equal to the new value when that one is |
| Trainer.SampleValueLoss | ppo_trainer.py:123-125 | defines the per-sample value loss max((v - R)², (v_clipped - R)²) (bounded by `SampleValueLossBounds`) |
| Trainer.TotalLoss | ppo_trainer.py:131 | defines the weighted total policy loss + value_coef·value loss + entropy_coef·entropy term |
| Trainer.SampleValueLossBounds | ppo_trainer.py:123-125 | the clipped value loss is at least the plain squared error and equals it inside the clip range |
| Trainer.HigherEntropyLowersLoss | ppo_trainer.py:128-131 | with a positive entropy coefficient, a higher mean entropy gives a strictly lower total loss |
| Trainer.SumMonotone | ppo_trainer.py:115 | termwise-smaller sequences have smaller sums |
| Trainer.SumBounds | ppo_trainer.py:146-150 | a sum of n terms in [lo, hi] lies in [n·lo, n·hi] |
| Trainer.MeanBounds | ppo_trainer.py:146-150 | a mean lies between any bounds of its terms |
| Trainer.MeanMonotone | ppo_trainer.py:115 | termwise-smaller sequences have smaller means |
| Trainer.BatchLosses | ppo_trainer.py:111-131 | defines one mini-batch's losses: the negated mean surrogate, the mean clipped value loss, the mean entropy and their total with entropy term -entropy |
| Trainer.BatchLossesPessimistic | ppo_trainer.py:111-125 | a mini-batch's policy loss is at least the negated mean unclipped objective; its value loss at least the mean plain squared error |
| Trainer.NumBatches | ppo_trainer.py:96 | defines the number of start indices of `range(0, n, batch_size)` as (n + batch_size - 1) / batch_size (characterised by `NumBatchesBounds` and `NumBatchesUnique`) |
| Trainer.NumBatchesBounds | ppo_trainer.py:96 | n ≤ batches·batch_size < n + batch_size |
| Trainer.NumBatchesUnique | ppo_trainer.py:96 | the batch count is the only q with n ≤ q·batch_size < n + batch_size |
| Trainer.Chunks | ppo_trainer.py:96-98 | defines an epoch's mini-batches: the slice of at most batch_size indices from the front, then the mini-batches of the rest (related to the source's slices by `ChunkAt`) |
| Trainer.ChunkCount | ppo_trainer.py:96-98 | there is one mini-batch per start index of `range(0, n, batch_size)`: ⌈n / batch_size⌉ of them |
| Trainer.ChunkAt | ppo_trainer.py:96-98 | the k-th mini-batch is `indices[k·batch_size : min(k·batch_size + batch_size, n)]`, and its start is below n |
| Trainer.ChunkSizes | ppo_trainer.py:96-98 | every mini-batch is non-empty and at most batch_size long, all but the last exactly batch_size |
| Trainer.ChunksPartition | ppo_trainer.py:93-98 | the mini-batches of an epoch concatenate to its index order, so each transition is used exactly once per epoch |
| Trainer.ChunksFrom | ppo_trainer.py:96-98 | from any start below n, the remaining mini-batches are the slice at start followed by those from min(start + batch_size, n) |
| Trainer.EpochStep | ppo_trainer.py:96-98 | each loop iteration takes exactly the next mini-batch of the epoch, and it holds valid indices |
| Trainer.Schedule | ppo_trainer.py:91-98 | defines every mini-batch of every epoch in processing order: each epoch's chunks after those of the earlier epochs |
| Trainer.ScheduleSnoc | ppo_trainer.py:91-98 | each epoch appends its mini-batches to the schedule |
| Trainer.ScheduleLength | ppo_trainer.py:91-98 | there are epochs × ⌈n / batch_size⌉ mini-batch steps |
| Trainer.ScheduleNonEmpty | ppo_trainer.py:143-150 | with at least one epoch and one transition the step count (the divisor of the statistics) is positive |
| Trainer.UpdateLosses | ppo_trainer.py:91-143 | one losses record per mini-batch step |
| Trainer.UpdateLossesSnoc | ppo_trainer.py:139-143 | adding a step adds its policy loss, value loss and entropy to the sums of the per-step statistics |
| Trainer.RunningTotals | ppo_trainer.py:139-143 | defines the running sums of the statistics as the loop accumulates them, step k evaluated after k optimiser steps (equal to the sums by `RunningTotalsAreSums`) |
| Trainer.RunningTotalsAreSums | ppo_trainer.py:139-143 | accumulating the statistics step by step gives the sums of the per-step statistics |
| Trainer.Average | ppo_trainer.py:146-150 | defines the reported statistics: the mean policy loss, value loss and entropy over all steps |
| Trainer.RunningAverage | ppo_trainer.py:146-150 | the totals divided by the number of steps are the averages of the per-step statistics |
| Trainer.AverageWithinBatchRange | ppo_trainer.py:146-150 | the reported policy loss lies between the smallest and largest per-batch policy loss |
| Trainer.AverageEntropyNonNegative | ppo_trainer.py:142-150 | the reported entropy is non-negative when every per-batch entropy is |
| Trainer.TrainingTargets | ppo_trainer.py:76-82 | the targets (returns, normalised advantages, collected values) have one entry per transition |
| Trainer.PPOTrainer.constructor | ppo_trainer.py:25-63 | stores the hyperparameters (defaults 3e-4, 0.99, 0.95, 0.2, 0.5, 0.01, 0.5, 4, 64) |
| Trainer.PPOTrainer.TrainBatch | ppo_trainer.py:100-143 | one mini-batch step adds exactly that batch's losses, evaluated after the steps so far, to the running totals |
| Trainer.PPOTrainer.RunEpoch | ppo_trainer.py:96-143 | one epoch processes exactly the mini-batches of its index order, in order, adding each step's statistics to the totals |
| Trainer.PPOTrainer.Update | ppo_trainer.py:65-152 | takes epochs × ⌈n / batch_size⌉ > 0 steps over valid batches and reports each statistic as the average over those steps of the per-batch losses, computed from the training targets: GAE advantages, returns = advantages + values, and the buffer's values |

## Left out

- The policy network (`policy.py`) is not part of this model. Its outputs enter as `evaluate(k, i)`: the probability ratio, the value estimate and the entropy of sample `i` after `k` optimiser steps.
- `torch.exp` of the log-probability difference is left out. The ratio is taken directly, because exponentiation is transcendental.
- The Adam optimiser step, `loss.backward()` and gradient-norm clipping are left out. They are numerical routines on network parameters. `lr` and `maxGradNorm` are stored but unused.
- Advantage normalisation by mean and standard deviation is left out, because it needs square roots. It is a caller-supplied, length-preserving `normalize`.
- Randomness is left out: the environment's node choices, event sampling with `event_probabilities` and seeding, and `np.random.shuffle`. They enter as the `choice`, `nextEventIndex` and `perms` parameters, so the probability distributions themselves are not modelled.
- The following are not part of this model: `save`/`load`, `render`, the `info` dictionary, and the training, evaluation and demo scripts (`train.py`, `evaluate.py`, `demo.py`).
- Float32 rounding is left out. Arithmetic is on mathematical reals and integers, and occupancy and capacity are integers.
- Environment.ServiceDeploymentEnv.constructor: requires `maxAgents != 0` and a positive integral capacity. The source would divide by zero when building the observation otherwise, and its capacity comparison is only meaningful for integral capacities.
- Environment.ServiceDeploymentEnv.Step: takes the action as a natural number. Numpy's wrap-around for negative node indices is not modelled.
- Trainer.PPOTrainer.Update: requires a non-empty buffer, at least one epoch and a positive batch size. The source divides by `num_updates = 0` in the first two cases. A zero batch size makes `range` fail, and a negative one makes `range(0, n, batch_size)` empty, so no step runs and the statistics again divide by `num_updates = 0`.
