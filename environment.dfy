/** The 5x5 grid world: its constants and the transition function `step_env`. */
module Environment {
  import opened Results

  /** A grid cell (row, col); the source calls the coordinates (x, y). */
  datatype State = State(row: int, col: int)

  const GridH: int := 5
  const GridW: int := 5
  const Start: State := State(0, 0)
  const Goal: State := State(4, 0)
  const Hazards: set<State> := {State(2, 0)}

  // Rewards. The source writes them as floats (-1.0, -10.0, 0.0); they are
  // small integers, so integer rewards and their sums are exact.
  const StepReward: int := -1
  const HazardPenalty: int := -10
  const GoalReward: int := 0

  /** Probability that entering a hazard cell inflicts the penalty. */
  const HazardFailProb: real := 0.1

  const Up: int := 0
  const Right: int := 1
  const Down: int := 2
  const Left: int := 3

  /** An action symbol step_env accepts. */
  type Action = a: int | Up <= a <= Left

  /** One value of `random.random()`: a real in [0, 1). */
  type Draw = r: real | 0.0 <= r < 1.0

  datatype Transition = Transition(next: State, reward: int, done: bool)

  datatype EnvError = InvalidAction(action: int)

  predicate InBounds(s: State)
  {
    0 <= s.row < GridH && 0 <= s.col < GridW
  }

  /** The cell an action aims at, before the bounds check. */
  function Target(s: State, a: Action): State
  {
    if a == Up then State(s.row - 1, s.col)
    else if a == Right then State(s.row, s.col + 1)
    else if a == Down then State(s.row + 1, s.col)
    else State(s.row, s.col - 1)
  }

  /** True when step_env enters a hazard cell and so calls `random.random()`. */
  predicate EntersHazard(s: State, a: Action)
  {
    var t := Target(s, a);
    InBounds(t) && t != Goal && t in Hazards
  }

  /** step_env(state, action) with the value `random.random()` would return
      passed in as `draw` (consulted only on hazard entry). */
  function StepEnv(s: State, action: int, draw: Draw): (r: Result<Transition, EnvError>)
    // an unknown action raises instead of producing a transition
    ensures r.Failure? <==> !(Up <= action <= Left)
    ensures r.Failure? ==> r.error == InvalidAction(action)
    // an off-grid move stays in place at step cost, whichever boundary is hit
    ensures r.Success? && !InBounds(Target(s, action)) ==>
              r.value == Transition(s, StepReward, false)
    // an in-bounds move goes to the target cell
    ensures r.Success? && InBounds(Target(s, action)) ==> r.value.next == Target(s, action)
    // cells stay in bounds
    ensures r.Success? && InBounds(s) ==> InBounds(r.value.next)
    // the episode ends exactly on entering the goal, with reward 0
    ensures r.Success? ==> (r.value.done <==> InBounds(Target(s, action)) && Target(s, action) == Goal)
    ensures r.Success? && r.value.done ==> r.value.next == Goal && r.value.reward == GoalReward
    // entering a hazard never ends the episode; the draw decides the penalty
    ensures r.Success? && EntersHazard(s, action) ==>
              !r.value.done &&
              r.value.reward == (if draw < HazardFailProb then HazardPenalty else StepReward)
    // an ordinary in-bounds move (not to the goal, not into a hazard) costs one step
    ensures r.Success? && InBounds(Target(s, action)) && Target(s, action) != Goal && !EntersHazard(s, action) ==>
              r.value == Transition(Target(s, action), StepReward, false)
    // every reward is 0, -1 or -10
    ensures r.Success? ==> r.value.reward in {GoalReward, StepReward, HazardPenalty}
  {
    if !(Up <= action <= Left) then Failure(InvalidAction(action))
    else
      var t := Target(s, action);
      if !InBounds(t) then Success(Transition(s, StepReward, false))
      else if t == Goal then Success(Transition(t, GoalReward, true))
      else if t in Hazards then
        Success(Transition(t, if draw < HazardFailProb then HazardPenalty else StepReward, false))
      else Success(Transition(t, StepReward, false))
  }

  /** Away from the goal, `done` holds exactly when the next state is the goal. */
  lemma DoneIffGoal(s: State, a: Action, draw: Draw)
    requires s != Goal
    ensures StepEnv(s, a, draw).value.done <==> StepEnv(s, a, draw).value.next == Goal
  {
  }

  /** From the goal itself an off-grid move does not report `done`: the source
      tests the target cell, not the resulting state. */
  lemma OffGridAtGoal(draw: Draw)
    ensures StepEnv(Goal, Down, draw) == Success(Transition(Goal, StepReward, false))
    ensures StepEnv(Goal, Left, draw) == Success(Transition(Goal, StepReward, false))
  {
  }

  /** An in-bounds move changes exactly one coordinate by one, in the
      direction its action names. */
  lemma MoveIsUnitStep(s: State, a: Action, draw: Draw)
    requires InBounds(Target(s, a))
    ensures var n := StepEnv(s, a, draw).value.next;
      (a == Up ==> n.row == s.row - 1 && n.col == s.col) &&
      (a == Right ==> n.row == s.row && n.col == s.col + 1) &&
      (a == Down ==> n.row == s.row + 1 && n.col == s.col) &&
      (a == Left ==> n.row == s.row && n.col == s.col - 1)
  {
  }

  /** The per-step cost -reward is one of 0, 1, 10, hence non-negative and at most 10. */
  lemma CostBounds(s: State, a: Action, draw: Draw)
    ensures 0 <= -StepEnv(s, a, draw).value.reward <= 10
  {
  }

  /** Outside hazard entry the draw is not consulted, so the stream of draws
      advances only when EntersHazard holds. */
  lemma DrawOnlyAtHazard(s: State, a: Action, d1: Draw, d2: Draw)
    requires !EntersHazard(s, a)
    ensures StepEnv(s, a, d1) == StepEnv(s, a, d2)
  {
  }
}
