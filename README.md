# Risk-constrained grid world, in Dafny

This project models the discrete core of a mean-Lp risk-constrained
reinforcement-learning study on a 5x5 grid world. The grid has start (0,0),
goal (4,0) and one hazard cell (2,0). The model has three parts, one per
source file:

- `environment.dfy` (module `Environment`) models the transition function
  `step_env` and the grid constants. It is a pure function. The value of
  `random.random()` is passed in as a `Draw`, and an unknown action is the
  `Failure` of a `Result`.
- `dp_algorithm.dfy` (module `CandidateSearch`) models `solve_constrained_MDP`:
  - the Monte-Carlo rollout loop of `evaluate_policy` (a `while` loop);
  - the construction of the two candidate policies by a `for` loop and
    successive item assignments on a local `map`;
  - the final selection rule.

  The rollouts draw from an explicit stream `nat -> Draw`, read at a bare
  position `pos`. A draw is used exactly when the step's target cell is the
  in-bounds hazard cell: entering (2,0) from a neighbour, or an unknown action
  taken on (2,0), which the inline model aims at the cell it stands on. An
  off-grid move from (2,0) stays there without a draw (`SimDraws`). The model proves the exact
  costs of both routes:
  - The straight route takes 4 steps and costs 3, or 12 when the hazard fires.
  - The detour takes 6 steps and always costs 5.

  From this, the choice `SolveConstrainedMDP` returns is stated outright in
  terms of the hazard draws.
- `pd_algorithm.dfy` (module `PrimalDual`) models the class `PrimalDualPG`:
  - its fields, including the `GRID_H*GRID_W x 4` logit table and the
    Lagrange multiplier;
  - the state-to-row index of `select_action`;
  - the `run_episode` loop;
  - the batch loop of `train`, its three history lists, the descent step on
    the logits and the projected dual ascent on lambda.

  Each method is proved equal to a specification function (`Episode`,
  `Collect`, `Iteration`, `Training`). The properties are lemmas about those
  functions: step bounds, cost bounds, one history entry per iteration, the
  lambda recurrence, and lambda staying non-negative.

`results.dfy` holds `Option`/`Result`. `statistics.dfy` holds the exact sample
mean `Mean` and the type of the mean-Lp statistic.

Foreign computations become parameters:

- **action sampling:** `torch.distributions.Categorical` becomes a sampler
  from a logit row and a sample number to an action;
- **the RNG of `step_env`:** becomes a stream of draws;
- **the mean-Lp statistic:** its powers and roots become a function of the
  costs and p;
- **autograd:** the gradient of the REINFORCE loss becomes a function of the
  logits, lambda, the recorded log-probabilities, the costs and p.

These four are bundled in `PrimalDual.Oracles`. In `PrimalDual` the positions
in both streams are threaded through every call (`Streams`), so successive
episodes consume successive samples and draws; `CandidateSearch` threads its
one draw position the same way as a `nat`.

Points where the code behaves in a way that is easy to misread:

- **The straight route's cost.** `step_env` and the inline model of
  `evaluate_policy` charge nothing for the step into the goal, so the 4-step
  straight route costs 3, or 12 when the hazard fires (`HazardRouteRollout`).
  The example returns in plots.py:6 agree: -3.9 = -(3 + 0.1 * 9).
- **`run_episode`'s step count.** `run_episode` breaks on `step_count > 100`,
  so an episode that never reaches the goal takes 101 steps (`StepLimit + 1`).
  The rollout of `evaluate_policy` instead stops at 100 steps
  (`while ... step < 100`). Both bounds are modelled as written.
- **`step_env` from the goal.** An off-grid move from the goal itself returns
  `done = False`, because `step_env` tests the target cell and not the state
  it returns (`Environment.OffGridAtGoal`). No caller steps from the goal.

## Model

| member | source | states |
|---|---|---|
| Environment.StepEnv | environment.py:18-53 | Fails exactly on an action outside 0..3. Otherwise: an off-grid move stays put at reward -1, not done. An in-bounds move goes to the target cell, and in-bounds states stay in bounds. `done` holds exactly when the target is the goal, with reward 0. Hazard entry never ends the episode and pays -10 iff the draw is below 0.1, else -1. Any other in-bounds move goes to the target at reward -1, not done. The reward is always 0, -1 or -10. |
| Environment.DoneIffGoal | environment.py:36-41 | Away from the goal, `done` holds exactly when the next state is the goal. |
| Environment.OffGridAtGoal | environment.py:31-35 | From the goal, the off-grid moves down and left return the goal with reward -1 and done false. |
| Environment.MoveIsUnitStep | environment.py:24-27 | An in-bounds move changes exactly one coordinate by one, in the direction its action names. |
| Environment.CostBounds | environment.py:31-52 | The per-step cost (-reward) lies in [0, 10]. |
| Environment.DrawOnlyAtHazard | environment.py:42-47 | Outside hazard entry the result does not depend on the draw. |
| Statistics.Mean | pd_algorithm.py:57 | The mean of a non-empty sample times its size is the sample's sum. |
| Statistics.MeanBounds | pd_algorithm.py:57 | The mean of a non-empty sample of values in [lo, hi] lies in [lo, hi]. |
| Statistics.MeanConstant | dp_algorithm.py:55 | The mean of a sample whose values all equal c is c. |
| CandidateSearch.SimStep | dp_algorithm.py:29-50 | One step of the inline model, case by case. Off-grid: stay at cost 1. Into the goal: cost 0. Onto the hazard cell: cost 10 when the draw is below 0.1, else 1. Any other in-bounds move: cost 1. The cost is 0 exactly on entering the goal, and in-bounds states stay in bounds. |
| CandidateSearch.SimStepAgreesWithStepEnv | dp_algorithm.py:29-50 | On actions 0..3 the inline model agrees with step_env: same next state, cost equal to minus the reward, and a draw in the same case. |
| CandidateSearch.SimStepUnknownAction | dp_algorithm.py:34 | On any other action step_env raises, but the inline model stays in place. |
| CandidateSearch.RunFrom | dp_algorithm.py:23-53 | The rollout loop takes at most 100 steps and never moves back in the draw stream. It raises only on a state the policy lacks. |
| CandidateSearch.RunFromProperties | dp_algorithm.py:20-53 | A rollout takes at most 100 steps and adds 0 to 10 per step. It stops only at the goal, at the cap or on a None action. It fails only on a state the policy lacks. |
| CandidateSearch.RolloutStep | dp_algorithm.py:24-53 | One loop body: raises on a missing key, stops on None, or moves; each outcome agrees with the rollout function. |
| CandidateSearch.RolloutEpisode | dp_algorithm.py:20-54 | The inner rollout loop computes the rollout function from the start state; the cost lies in [0, 10 * steps] and there are at most 100 steps. |
| CandidateSearch.RolloutBounds | dp_algorithm.py:23-51 | A successful rollout from the start takes at most 100 steps and costs between 0 and 10 per step. |
| CandidateSearch.CostsOf | dp_algorithm.py:18-54 | A successful run of n episodes yields n costs. |
| CandidateSearch.CostsOfBounds | dp_algorithm.py:18-54 | Every episode cost of a policy lies in [0, 1000]. |
| CandidateSearch.AverageCostBounds | dp_algorithm.py:55 | The average cost of a policy over 10000 episodes lies in [0, 1000]. |
| CandidateSearch.CostsOfFailurePersists | dp_algorithm.py:19-24 | Once an episode raises, every longer run raises too. |
| CandidateSearch.EvaluatePolicy | dp_algorithm.py:16-57 | Succeeds iff all 10000 rollouts succeed. It then returns the mean of their costs, the mean-Lp statistic of those costs, and the stream position reached. |
| CandidateSearch.NonGoalStates | dp_algorithm.py:11-12 | The state list is exactly the in-bounds cells other than the goal. |
| CandidateSearch.DetourAvoidsHazards | dp_algorithm.py:64-72 | No cell the detour acts from or moves to is a hazard. |
| CandidateSearch.BuildHazardPolicy | dp_algorithm.py:61-63 | The hazard dict maps column 0, goal included, to down and every other cell to None. |
| CandidateSearch.BuildSafePolicy | dp_algorithm.py:65-72 | The safe dict maps the six detour cells to their actions and every other non-goal cell to None. |
| CandidateSearch.RoutesDistinct | dp_algorithm.py:61-72 | No dict is both candidate policies. |
| CandidateSearch.HazardRouteRollout | dp_algorithm.py:60-63 | The hazard route reaches the goal in 4 steps using one draw, at cost 3, or 12 when the draw is below 0.1. |
| CandidateSearch.SafeRouteRollout | dp_algorithm.py:64-72 | The detour reaches the goal in 6 steps using no draw, at cost exactly 5. |
| CandidateSearch.HazardEpisodeCost | dp_algorithm.py:41-50 | A hazard-route episode costs 3 or 12, and 12 exactly when the hazard draw is below 0.1. |
| CandidateSearch.HazardCosts | dp_algorithm.py:74 | The k-th hazard-route episode's cost is determined by the k-th draw. |
| CandidateSearch.OneDrawEpisodes | dp_algorithm.py:19-54 | Episodes that take one draw each and cost HazardEpisodeCost of it give the sample HazardCosts and advance the stream by n. |
| CandidateSearch.DrawFreeEpisodes | dp_algorithm.py:19-54 | Episodes that take no draw and cost c give n copies of c and leave the stream in place. |
| CandidateSearch.HazardRouteSample | dp_algorithm.py:74 | Evaluating the hazard route over n episodes yields HazardCosts and consumes n draws. |
| CandidateSearch.SafeRouteSample | dp_algorithm.py:75 | Evaluating the detour over n episodes yields n fives and consumes no draw. |
| CandidateSearch.SafeRouteAverage | dp_algorithm.py:55 | The detour's average cost is exactly 5. |
| CandidateSearch.Select | dp_algorithm.py:77-80 | Picks the hazard route iff its risk is within the threshold and its average cost is below the safe one's. The result carries the chosen route's negated average cost and its own risk. |
| CandidateSearch.SelectNoWorseThanSafe | dp_algorithm.py:77-80 | The chosen return is at least the safe route's, and the choice is feasible whenever the safe route is. |
| CandidateSearch.SelectRejectsRiskyHazard | dp_algorithm.py:77-80 | A cheaper hazard route whose risk exceeds the threshold loses to the detour. |
| CandidateSearch.SolveConstrainedMDP | dp_algorithm.py:5-80 | Returns one of the two routes. It is the hazard route iff the mean-Lp of its 10000 draw-determined costs is within the threshold and their mean is below 5, with return -mean and that risk; otherwise the detour, with return -5 and the risk of 10000 fives. It consumes exactly 10000 draws. |
| PrimalDual.ZeroTable | pd_algorithm.py:10 | A 25 x 4 table of zeros. |
| PrimalDual.StateIndex | pd_algorithm.py:18 | The index of an in-bounds state lies in [0, 25). |
| PrimalDual.StateIndexInverse | pd_algorithm.py:18 | The row index gives the state back through division and remainder by GRID_W. |
| PrimalDual.StateIndexInjective | pd_algorithm.py:18 | Distinct in-bounds states get distinct logit rows. |
| PrimalDual.NonGoalStateRow | pd_algorithm.py:18 | A cell other than the goal has a logit row other than the goal's. |
| PrimalDual.Descend | pd_algorithm.py:77-78 | Every entry becomes the logit minus lr times its gradient. |
| PrimalDual.EpisodeFrom | pd_algorithm.py:31-40 | The episode loop records at least one more log-probability, and no more than the steps left before the break. |
| PrimalDual.Episode | pd_algorithm.py:24-41 | run_episode records between 1 and 101 log-probabilities. |
| PrimalDual.EpisodeFromSteps | pd_algorithm.py:31-40 | The episode loop takes at least one and at most the remaining number of steps, and records one log-probability and one action sample per step. It keeps what was recorded earlier and ends at the goal unless the cap cut it off. |
| PrimalDual.EpisodeFromPrefix | pd_algorithm.py:32-34 | The episode loop keeps what was recorded earlier and takes one action sample per recorded step. |
| PrimalDual.EpisodeFromEnd | pd_algorithm.py:39-40 | The episode loop ends at the goal unless it used every remaining step. |
| PrimalDual.EpisodeFromCost | pd_algorithm.py:35-36 | Each step adds between 0 and 10 to the total cost. |
| PrimalDual.EpisodeFromRows | pd_algorithm.py:31-34 | Every recorded log-probability belongs to the row of a non-goal cell. |
| PrimalDual.EpisodeProperties | pd_algorithm.py:24-41 | run_episode takes 1 to 101 steps, with one log-probability per step, and its cost lies in [0, 10 * steps]. It ends at the goal unless it took 101 steps, and it never acts from the goal. |
| PrimalDual.Collect | pd_algorithm.py:52-55 | A batch of n episodes has n costs and n log-probability lists. |
| PrimalDual.SimulatorOfBounded | pd_algorithm.py:24-41 | Under any logits, an episode costs between 0 and 1010. |
| PrimalDual.CollectBounds | pd_algorithm.py:52-55 | Every cost in a batch of bounded episodes lies in [0, 1010]. |
| PrimalDual.DualUpdate | pd_algorithm.py:81-84 | The new lambda is non-negative and at least the unclamped step, and is either 0 or that step. |
| PrimalDual.DualUpdateIsProjection | pd_algorithm.py:82-84 | No non-negative value is closer to the unclamped step than the clamped one. |
| PrimalDual.Iteration | pd_algorithm.py:56-84 | One iteration adds one entry to each history, leaves lambda non-negative, and leaves the streams where the batch ended. |
| PrimalDual.IterationRecords | pd_algorithm.py:56-84 | One iteration appends the batch mean, the batch's mean-Lp risk, and lambda before its update, and sets lambda to the dual update on that recorded risk. |
| PrimalDual.Training | pd_algorithm.py:48-85 | k iterations add k entries to each of the three histories. |
| PrimalDual.TrainingDual | pd_algorithm.py:45-84 | After k iterations from empty histories, the risk and lambda histories have k entries. The lambda history starts with the initial lambda, and each entry and the final lambda are the dual update of the entry before on that iteration's risk. |
| PrimalDual.TrainingLambdaNonNegative | pd_algorithm.py:80-84 | From a non-negative lambda, every recorded lambda and the final one are non-negative. |
| PrimalDual.TrainingCosts | pd_algorithm.py:57-60 | With bounded episodes, the cost history has k entries, each in [0, 1010]. |
| PrimalDual.TrainingProperties | pd_algorithm.py:43-85 | train returns three histories of num_iterations entries each, with the initial lambda first on the lambda history. Every recorded lambda and the final one are non-negative, and every recorded average cost lies in [0, 1010]. |
| PrimalDual.PrimalDualPG.constructor | pd_algorithm.py:7-14 | Zero logits, lambda 0, and the given rates and gamma. |
| PrimalDual.PrimalDualPG.SelectAction | pd_algorithm.py:16-22 | Samples from the state's own logit row, records that row and action, and uses one sample; the row is a non-goal row iff the state is not the goal. |
| PrimalDual.PrimalDualPG.StepOnce | pd_algorithm.py:32-40 | One loop body agrees with the episode function, both when it breaks and when it continues. |
| PrimalDual.PrimalDualPG.RunEpisode | pd_algorithm.py:24-41 | Returns the episode function's log-probabilities, cost and stream positions: 1 to 101 entries and a cost in [0, 10 * entries]. |
| PrimalDual.PrimalDualPG.CollectBatch | pd_algorithm.py:49-55 | The batch loop computes the batch of batch_size episodes under the current logits. |
| PrimalDual.PrimalDualPG.Update | pd_algorithm.py:56-84 | The new logits, lambda and histories are one iteration of the specification on the batch. |
| PrimalDual.PrimalDualPG.Iterate | pd_algorithm.py:49-84 | From the state after k iterations of the specification, one pass of the outer loop reaches the state after k + 1. That includes the batch collected under the current logits, and lambda stays non-negative. |
| PrimalDual.PrimalDualPG.DualStep | pd_algorithm.py:81-84 | lambda becomes the dual update: the step along the constraint violation, clamped at zero. |
| PrimalDual.PrimalDualPG.Train | pd_algorithm.py:43-85 | Keeps lambda non-negative. The returned histories and the new logits and lambda are those of num_iterations iterations of the specification from empty histories. |

## Left out

- Softmax, `Categorical` sampling and the value `log(probs[action] + 1e-8)` (pd_algorithm.py:19-21) are not modelled. The action comes from a sampler parameter, and a log-probability is recorded as its (row, action) pair.
- The REINFORCE loss, the baseline and `loss.backward()` (pd_algorithm.py:62-79) are a gradient parameter. The model keeps the descent step `logits - lr_pi * grad` and what the gradient depends on, but not its value.
- The powers and roots of the mean-Lp risk are a parameter `(costs, p) -> real`. This covers both the `avg_cost_p > 0` guard and the Lp formula (pd_algorithm.py:58-59, dp_algorithm.py:56). The parameter always returns a real, so the model has no error path for p = 0, where the source raises ZeroDivisionError on `1.0/p`; `SolveConstrainedMDP` and `Train` return a result there instead.
- Floating point is not modelled. Costs are exact integers and means are exact reals.
- `random.random()`, `np.random.rand()` and torch's generator are explicit streams, not stateful RNGs.
- `gamma` is stored but never used, here as in the source.
- PrimalDual.PrimalDualPG.SelectAction: requires an in-bounds state. Every caller passes one; an off-grid index would address a wrong row or fail in torch.
- PrimalDual.PrimalDualPG.Train: requires `batch_size > 0` when at least one iteration runs. With an empty batch the source divides the loss by zero and raises, after computing the mean of an empty list; that error path is not modelled.
- PrimalDual.PrimalDualPG.Train: takes `numIterations` and `batchSize` as `nat`. The source also accepts negative values; `range` of a negative number is empty, so a negative `num_iterations` gives three empty histories, the same as 0. A negative `batch_size` gives an empty batch, as 0 does. Then `loss` stays the float 0.0, and the source raises at pd_algorithm.py:74-76 once an iteration runs. This is the error path excluded by Train's `batch_size > 0` requirement above.
- `train.py`, `evaluate.py` and `plots.py` (experiment driver, evaluation wrapper and plotting) are not part of this model.
- The methods of `PrimalDual.PrimalDualPG` that change fields state their new state with `old`. Their properties are also stated as lemmas about the specification functions (`EpisodeProperties`, `TrainingProperties`, `TrainingDual`).
