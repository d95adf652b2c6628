/** solve_constrained_MDP: Monte-Carlo evaluation of two hand-built
    deterministic routes and the risk-constrained choice between them. */
module CandidateSearch {
  import opened Results
  import opened Statistics
  import opened Environment

  /** Episodes simulated per candidate policy. */
  const Episodes: nat := 10000
  /** Step bound of one rollout. */
  const RolloutCap: nat := 100

  /** A deterministic policy: the source's dict from state to action or None. */
  type Policy = map<State, Option<int>>

  /** `policy[state]` on a state the dict lacks raises KeyError. */
  datatype SearchError = MissingState(state: State)

  /** What one rollout leaves behind: its total cost, the steps taken, the
      state it stopped in and the position reached in the stream of draws. */
  datatype Rollout = Rollout(cost: int, steps: nat, last: State, pos: nat)

  /** Average cost and mean-Lp risk of a policy. */
  datatype Evaluation = Evaluation(avgCost: real, risk: real)

  // ---------------------------------------------------------------------
  // The inline copy of the transition model inside evaluate_policy

  /** The cell the inline model aims at; an unknown action stays put. */
  function SimTarget(s: State, a: int): State
  {
    if a == Up then State(s.row - 1, s.col)
    else if a == Right then State(s.row, s.col + 1)
    else if a == Down then State(s.row + 1, s.col)
    else if a == Left then State(s.row, s.col - 1)
    else s
  }

  /** True when the inline model calls `np.random.rand()`. */
  predicate SimDraws(s: State, a: int)
  {
    var t := SimTarget(s, a);
    InBounds(t) && t != Goal && t in Hazards
  }

  /** One inline step: the next state and its (positive) cost. */
  function SimStep(s: State, a: int, draw: Draw): (r: (State, int))
    // off-grid: stay in place at cost 1
    ensures !InBounds(SimTarget(s, a)) ==> r == (s, 1)
    // entering the goal costs nothing
    ensures InBounds(SimTarget(s, a)) && SimTarget(s, a) == Goal ==> r == (Goal, 0)
    // entering a hazard costs 10 when the draw is below HazardFailProb, else 1
    ensures SimDraws(s, a) ==> r == (SimTarget(s, a), if draw < HazardFailProb then 10 else 1)
    // any other in-bounds move costs 1
    ensures InBounds(SimTarget(s, a)) && SimTarget(s, a) != Goal && !SimDraws(s, a) ==> r == (SimTarget(s, a), 1)
    ensures r.1 in {0, 1, 10}
    ensures InBounds(s) ==> InBounds(r.0)
    ensures r.1 == 0 <==> InBounds(SimTarget(s, a)) && SimTarget(s, a) == Goal
  {
    var t := SimTarget(s, a);
    if !InBounds(t) then (s, 1)
    else if t == Goal then (t, 0)
    else if t in Hazards then (t, if draw < HazardFailProb then 10 else 1)
    else (t, 1)
  }

  /** On the four actions the inline copy agrees with step_env: same next
      state, cost equal to minus the reward, and a draw taken in the same case. */
  lemma SimStepAgreesWithStepEnv(s: State, a: Action, draw: Draw)
    ensures StepEnv(s, a, draw).Success?
    ensures SimStep(s, a, draw).0 == StepEnv(s, a, draw).value.next
    ensures SimStep(s, a, draw).1 == -StepEnv(s, a, draw).value.reward
    ensures SimDraws(s, a) <==> EntersHazard(s, a)
  {
  }

  /** Where step_env raises on an unknown action, the inline copy stays put. */
  lemma SimStepUnknownAction(s: State, a: int, draw: Draw)
    requires !(Up <= a <= Left)
    ensures StepEnv(s, a, draw).Failure?
    ensures SimStep(s, a, draw).0 == s
  {
  }

  // ---------------------------------------------------------------------
  // The rollout loop of evaluate_policy

  /** The rollout from state `s` after `step` steps with `total` cost so far
      and the draw stream at `pos`. */
  function RunFrom(policy: Policy, draw: nat -> Draw, s: State, step: nat, total: int, pos: nat)
    : (r: Result<Rollout, SearchError>)
    requires step <= RolloutCap
    decreases RolloutCap - step
    // the loop runs at most RolloutCap steps and only moves forward in the draws
    ensures r.Success? ==> step <= r.value.steps <= RolloutCap && pos <= r.value.pos
    // it raises only on a state the policy lacks
    ensures r.Failure? ==> r.error.state !in policy
  {
    if s == Goal || step >= RolloutCap then Success(Rollout(total, step, s, pos))
    else if s !in policy then Failure(MissingState(s))
    else match policy[s]
      case None => Success(Rollout(total, step, s, pos))
      case Some(a) =>
        var (next, cost) := SimStep(s, a, draw(pos));
        RunFrom(policy, draw, next, step + 1, total + cost,
                if SimDraws(s, a) then pos + 1 else pos)
  }

  /** A rollout stays within the step bound, adds between 0 and 10 per step,
      and stops only at the goal, at the step bound or on a None action; it
      raises only on a state the policy lacks. */
  lemma {:induction false} RunFromProperties(policy: Policy, draw: nat -> Draw, s: State, step: nat, total: int, pos: nat)
    requires step <= RolloutCap
    decreases RolloutCap - step
    ensures var r := RunFrom(policy, draw, s, step, total, pos);
      && (r.Success? ==> step <= r.value.steps <= RolloutCap)
      && (r.Success? ==> total <= r.value.cost <= total + 10 * (r.value.steps - step))
      && (r.Success? ==> pos <= r.value.pos)
      && (r.Success? ==>
            r.value.last == Goal || r.value.steps == RolloutCap ||
            (r.value.last in policy && policy[r.value.last] == None))
      && (r.Failure? ==> r.error.state !in policy)
  {
    if s != Goal && step < RolloutCap && s in policy && policy[s].Some? {
      var a := policy[s].value;
      var (next, cost) := SimStep(s, a, draw(pos));
      RunFromProperties(policy, draw, next, step + 1, total + cost, if SimDraws(s, a) then pos + 1 else pos);
    }
  }

  /** What one pass of the rollout loop body does: raise on a state the
      policy lacks, stop on a None action, or move. */
  datatype Advance = Raise | Halt | Moved(next: State, cost: int, pos: nat)

  /** One pass of the rollout loop body from s, related to the rollout it continues. */
  method RolloutStep(policy: Policy, draw: nat -> Draw, s: State, step: nat, total: int, pos: nat)
    returns (adv: Advance)
    requires s != Goal && step < RolloutCap
    ensures adv.Raise? ==> RunFrom(policy, draw, s, step, total, pos) == Failure(MissingState(s))
    ensures adv.Halt? ==> RunFrom(policy, draw, s, step, total, pos) == Success(Rollout(total, step, s, pos))
    ensures adv.Moved? ==>
              RunFrom(policy, draw, s, step, total, pos) == RunFrom(policy, draw, adv.next, step + 1, total + adv.cost, adv.pos)
  {
    if s !in policy {
      return Raise;
    }
    var a := policy[s];
    if a.None? {
      return Halt;
    }
    var (next, cost) := SimStep(s, a.value, draw(pos));
    var pos' := pos;
    if SimDraws(s, a.value) {
      pos' := pos + 1;
    }
    adv := Moved(next, cost, pos');
  }

  /** The inner `while` loop of evaluate_policy: one episode from the start. */
  method RolloutEpisode(policy: Policy, draw: nat -> Draw, pos0: nat)
    returns (r: Result<Rollout, SearchError>)
    ensures r == RunFrom(policy, draw, Start, 0, 0, pos0)
    ensures r.Success? ==> r.value.steps <= RolloutCap
    ensures r.Success? ==> 0 <= r.value.cost <= 10 * r.value.steps
  {
    var state := Start;
    var totalCost := 0;
    var step := 0;
    var pos := pos0;
    while state != Goal && step < RolloutCap
      invariant step <= RolloutCap
      invariant RunFrom(policy, draw, state, step, totalCost, pos) == RunFrom(policy, draw, Start, 0, 0, pos0)
    {
      var adv := RolloutStep(policy, draw, state, step, totalCost, pos);
      if adv.Raise? {
        r := Failure(MissingState(state));
        return;
      }
      if adv.Halt? {
        break;
      }
      totalCost := totalCost + adv.cost;
      state := adv.next;
      step := step + 1;
      pos := adv.pos;
    }
    r := Success(Rollout(totalCost, step, state, pos));
    RolloutBounds(policy, draw, pos0);
  }

  /** An episode takes at most RolloutCap steps and costs between 0 and 10 per step. */
  lemma RolloutBounds(policy: Policy, draw: nat -> Draw, pos0: nat)
    ensures var r := RunFrom(policy, draw, Start, 0, 0, pos0);
            r.Success? ==> r.value.steps <= RolloutCap && 0 <= r.value.cost <= 10 * r.value.steps
  {
    RunFromProperties(policy, draw, Start, 0, 0, pos0);
  }

  /** The costs of a run of episodes and the stream position after them. */
  datatype Sample = Sample(costs: seq<int>, pos: nat)

  /** One episode of evaluate_policy, as a function of the stream position it starts at. */
  type EpisodeRun = nat -> Result<Rollout, SearchError>

  function EpisodeOf(policy: Policy, draw: nat -> Draw): EpisodeRun
  {
    (q: nat) => RunFrom(policy, draw, Start, 0, 0, q)
  }

  /** The costs of `n` consecutive episodes from stream position `pos`;
      the first episode that raises ends the run. */
  function CostsOf(episode: EpisodeRun, n: nat, pos: nat): (r: Result<Sample, SearchError>)
    ensures r.Success? ==> |r.value.costs| == n
  {
    if n == 0 then Success(Sample([], pos))
    else
      var prev := CostsOf(episode, n - 1, pos);
      if prev.Failure? then prev
      else
        var ro := episode(prev.value.pos);
        if ro.Failure? then Failure(ro.error)
        else Success(Sample(prev.value.costs + [ro.value.cost], ro.value.pos))
  }

  /** Rollout costs lie in [0, 10 * RolloutCap]. */
  lemma {:induction false} CostsOfBounds(policy: Policy, draw: nat -> Draw, n: nat, pos: nat)
    requires CostsOf(EpisodeOf(policy, draw), n, pos).Success?
    ensures forall k :: 0 <= k < n ==> 0 <= CostsOf(EpisodeOf(policy, draw), n, pos).value.costs[k] <= 10 * RolloutCap
  {
    if n > 0 {
      CostsOfBounds(policy, draw, n - 1, pos);
      RunFromProperties(policy, draw, Start, 0, 0, CostsOf(EpisodeOf(policy, draw), n - 1, pos).value.pos);
    }
  }

  /** Hence the average cost of an evaluation lies in [0, 10 * RolloutCap]. */
  lemma AverageCostBounds(policy: Policy, draw: nat -> Draw, pos: nat)
    requires CostsOf(EpisodeOf(policy, draw), Episodes, pos).Success?
    ensures 0.0 <= Mean(CostsOf(EpisodeOf(policy, draw), Episodes, pos).value.costs) <= (10 * RolloutCap) as real
  {
    CostsOfBounds(policy, draw, Episodes, pos);
    MeanBounds(CostsOf(EpisodeOf(policy, draw), Episodes, pos).value.costs, 0, 10 * RolloutCap);
  }

  /** Once an episode raises, every longer run of episodes raises too. */
  lemma {:induction false} CostsOfFailurePersists(episode: EpisodeRun, n: nat, m: nat, pos: nat)
    requires n <= m && CostsOf(episode, n, pos).Failure?
    ensures CostsOf(episode, m, pos).Failure?
    decreases m - n
  {
    if n < m {
      CostsOfFailurePersists(episode, n + 1, m, pos);
    }
  }

  /** evaluate_policy: simulate Episodes rollouts, average their costs and
      hand them to the mean-Lp statistic. Also returns the stream position reached. */
  method EvaluatePolicy(policy: Policy, p: real, meanLp: MeanLp, draw: nat -> Draw, pos0: nat)
    returns (r: Result<(Evaluation, nat), SearchError>)
    ensures CostsOf(EpisodeOf(policy, draw), Episodes, pos0).Success? <==> r.Success?
    ensures r.Success? ==>
              var sample := CostsOf(EpisodeOf(policy, draw), Episodes, pos0).value;
              r.value == (Evaluation(Mean(sample.costs), meanLp(sample.costs, p)), sample.pos)
  {
    var costs: seq<int> := [];
    var pos := pos0;
    for k := 0 to Episodes
      invariant CostsOf(EpisodeOf(policy, draw), k, pos0) == Success(Sample(costs, pos))
    {
      var ro := RolloutEpisode(policy, draw, pos);
      if ro.Failure? {
        CostsOfFailurePersists(EpisodeOf(policy, draw), k + 1, Episodes, pos0);
        return Failure(ro.error);
      }
      costs := costs + [ro.value.cost];
      pos := ro.value.pos;
    }
    r := Success((Evaluation(Mean(costs), meanLp(costs, p)), pos));
  }

  // ---------------------------------------------------------------------
  // The two candidate policies

  /** Every grid cell but the goal: the keys of both dict comprehensions. */
  function NonGoalStates(): (r: set<State>)
    ensures forall s :: s in r <==> InBounds(s) && s != Goal
  {
    set i, j | 0 <= i < GridH && 0 <= j < GridW && State(i, j) != Goal :: State(i, j)
  }

  /** The route straight down column 0, through the hazard. The loop also
      assigns the goal cell, so the dict covers the whole grid. */
  ghost predicate IsHazardRoute(policy: Policy)
  {
    (forall s :: s in policy <==> InBounds(s)) &&
    (forall s :: s in policy ==> policy[s] == if s.col == 0 then Some(Down) else None)
  }

  /** The action of the detour (0,0)->(1,0)->(1,1)->(2,1)->(3,1)->(3,0)->(4,0). */
  function DetourAction(s: State): Option<int>
  {
    if s == State(0, 0) then Some(Down)
    else if s == State(1, 0) then Some(Right)
    else if s == State(1, 1) then Some(Down)
    else if s == State(2, 1) then Some(Down)
    else if s == State(3, 1) then Some(Left)
    else if s == State(3, 0) then Some(Down)
    else None
  }

  /** The detour around the hazard; every other non-goal cell maps to None. */
  ghost predicate IsSafeRoute(policy: Policy)
  {
    (forall s :: s in policy <==> InBounds(s) && s != Goal) &&
    (forall s :: s in policy ==> policy[s] == DetourAction(s))
  }

  /** No cell the detour acts from is a hazard cell, nor is any cell it moves to. */
  lemma DetourAvoidsHazards(s: State)
    requires DetourAction(s).Some?
    ensures s !in Hazards && SimTarget(s, DetourAction(s).value) !in Hazards
  {
  }

  /** policy_hazard: a dict comprehension of None, then column 0 set to down. */
  method BuildHazardPolicy() returns (policy: Policy)
    ensures IsHazardRoute(policy)
  {
    policy := map s | s in NonGoalStates() :: None;
    for i := 0 to GridH
      invariant forall s :: s in policy <==> (InBounds(s) && s != Goal) || (s.col == 0 && 0 <= s.row < i)
      invariant forall s :: s in policy ==> policy[s] == if s.col == 0 && s.row < i then Some(Down) else None
    {
      policy := policy[State(i, 0) := Some(Down)];
    }
  }

  /** policy_safe: a dict comprehension of None, then six item assignments. */
  method BuildSafePolicy() returns (policy: Policy)
    ensures IsSafeRoute(policy)
  {
    policy := map s | s in NonGoalStates() :: None;
    policy := policy[State(0, 0) := Some(Down)];
    policy := policy[State(1, 0) := Some(Right)];
    policy := policy[State(1, 1) := Some(Down)];
    policy := policy[State(2, 1) := Some(Down)];
    policy := policy[State(3, 1) := Some(Left)];
    policy := policy[State(3, 0) := Some(Down)];
  }

  /** The two route predicates never hold together: only the hazard dict has the goal as a key. */
  lemma RoutesDistinct(policy: Policy)
    ensures !(IsHazardRoute(policy) && IsSafeRoute(policy))
  {
    if IsHazardRoute(policy) {
      assert Goal in policy;
    }
  }

  // ---------------------------------------------------------------------
  // Exact costs of the two routes

  /** The hazard route reaches the goal in 4 steps taking one draw, at cost 3,
      or 12 when the hazard fires. */
  lemma HazardRouteRollout(policy: Policy, draw: nat -> Draw, pos: nat)
    requires IsHazardRoute(policy)
    ensures RunFrom(policy, draw, Start, 0, 0, pos) ==
              Success(Rollout(HazardEpisodeCost(draw(pos)), 4, Goal, pos + 1))
  {
    var c := if draw(pos) < HazardFailProb then 10 else 1;
    var done := Success(Rollout(2 + c, 4, Goal, pos + 1));
    assert policy[State(3, 0)] == Some(Down);
    assert RunFrom(policy, draw, State(3, 0), 3, 2 + c, pos + 1) == done;
    assert policy[State(2, 0)] == Some(Down);
    assert RunFrom(policy, draw, State(2, 0), 2, 1 + c, pos + 1) == done;
    assert policy[State(1, 0)] == Some(Down);
    assert RunFrom(policy, draw, State(1, 0), 1, 1, pos) == done;
    assert policy[State(0, 0)] == Some(Down);
  }

  /** The detour reaches the goal in 6 steps, takes no draw (it never enters
      a hazard cell) and costs exactly 5, whatever the draws. */
  lemma SafeRouteRollout(policy: Policy, draw: nat -> Draw, pos: nat)
    requires IsSafeRoute(policy)
    ensures RunFrom(policy, draw, Start, 0, 0, pos) == Success(Rollout(5, 6, Goal, pos))
  {
    assert policy[State(3, 0)] == Some(Down);
    assert RunFrom(policy, draw, State(3, 0), 5, 5, pos) == Success(Rollout(5, 6, Goal, pos));
    assert policy[State(3, 1)] == Some(Left);
    assert RunFrom(policy, draw, State(3, 1), 4, 4, pos) == Success(Rollout(5, 6, Goal, pos));
    assert policy[State(2, 1)] == Some(Down);
    assert RunFrom(policy, draw, State(2, 1), 3, 3, pos) == Success(Rollout(5, 6, Goal, pos));
    assert policy[State(1, 1)] == Some(Down);
    assert RunFrom(policy, draw, State(1, 1), 2, 2, pos) == Success(Rollout(5, 6, Goal, pos));
    assert policy[State(1, 0)] == Some(Right);
    assert RunFrom(policy, draw, State(1, 0), 1, 1, pos) == Success(Rollout(5, 6, Goal, pos));
    assert policy[State(0, 0)] == Some(Down);
  }

  /** The cost of one hazard-route episode whose hazard draw is `d`. */
  function HazardEpisodeCost(d: real): (c: int)
    ensures c in {3, 12}
    ensures c == 12 <==> d < HazardFailProb
  {
    if d < HazardFailProb then 12 else 3
  }

  /** The per-episode costs of `n` hazard-route episodes from stream position
      `pos`: episode k takes draw pos + k. */
  function HazardCosts(draw: nat -> Draw, pos: nat, n: nat): (r: seq<int>)
    ensures |r| == n
    ensures forall k :: 0 <= k < n ==> r[k] == HazardEpisodeCost(draw(pos + k))
  {
    if n == 0 then [] else HazardCosts(draw, pos, n - 1) + [HazardEpisodeCost(draw(pos + n - 1))]
  }

  /** If every episode, from any stream position q, succeeds, takes one draw
      and costs HazardEpisodeCost(draw(q)), then n episodes cost HazardCosts. */
  lemma {:induction false} OneDrawEpisodes(episode: EpisodeRun, draw: nat -> Draw, n: nat, pos: nat)
    requires forall q: nat :: episode(q).Success? &&
               episode(q).value.cost == HazardEpisodeCost(draw(q)) && episode(q).value.pos == q + 1
    ensures CostsOf(episode, n, pos) == Success(Sample(HazardCosts(draw, pos, n), pos + n))
  {
    if n > 0 {
      OneDrawEpisodes(episode, draw, n - 1, pos);
    }
  }

  /** n copies of c. */
  function Repeat(c: int, n: nat): (r: seq<int>)
    ensures |r| == n
    ensures forall k :: 0 <= k < n ==> r[k] == c
  {
    if n == 0 then [] else Repeat(c, n - 1) + [c]
  }

  /** If every episode succeeds, takes no draw and costs c, then so do n episodes. */
  lemma {:induction false} DrawFreeEpisodes(episode: EpisodeRun, c: int, n: nat, pos: nat)
    requires forall q: nat :: episode(q).Success? && episode(q).value.cost == c && episode(q).value.pos == q
    ensures CostsOf(episode, n, pos) == Success(Sample(Repeat(c, n), pos))
  {
    if n > 0 {
      DrawFreeEpisodes(episode, c, n - 1, pos);
    }
  }

  /** n hazard-route episodes: each takes one draw, and their costs are HazardCosts. */
  lemma HazardRouteSample(policy: Policy, draw: nat -> Draw, n: nat, pos: nat)
    requires IsHazardRoute(policy)
    ensures CostsOf(EpisodeOf(policy, draw), n, pos) == Success(Sample(HazardCosts(draw, pos, n), pos + n))
  {
    forall q: nat
      ensures EpisodeOf(policy, draw)(q) == Success(Rollout(HazardEpisodeCost(draw(q)), 4, Goal, q + 1))
    {
      HazardRouteRollout(policy, draw, q);
    }
    OneDrawEpisodes(EpisodeOf(policy, draw), draw, n, pos);
  }

  /** n detour episodes: no draw is taken and every cost is 5. */
  lemma SafeRouteSample(policy: Policy, draw: nat -> Draw, n: nat, pos: nat)
    requires IsSafeRoute(policy)
    ensures CostsOf(EpisodeOf(policy, draw), n, pos) == Success(Sample(Repeat(5, n), pos))
  {
    forall q: nat ensures EpisodeOf(policy, draw)(q) == Success(Rollout(5, 6, Goal, q)) {
      SafeRouteRollout(policy, draw, q);
    }
    DrawFreeEpisodes(EpisodeOf(policy, draw), 5, n, pos);
  }

  /** The mean of n detour costs, n fives, is exactly 5. */
  lemma SafeRouteAverage(n: nat)
    requires n > 0
    ensures Mean(Repeat(5, n)) == 5.0
  {
    MeanConstant(Repeat(5, n), 5);
  }

  // ---------------------------------------------------------------------
  // Selection

  datatype Route = HazardRoute | SafeRoute

  /** The chosen candidate, its return (negated average cost) and its risk. */
  datatype Choice = Choice(route: Route, ret: real, risk: real)

  /** The final conditional of solve_constrained_MDP. */
  function Select(riskThreshold: real, hazard: Evaluation, safe: Evaluation): (c: Choice)
    ensures c.route == HazardRoute <==> hazard.risk <= riskThreshold && hazard.avgCost < safe.avgCost
    ensures c.route == HazardRoute ==> c.ret == -hazard.avgCost && c.risk == hazard.risk
    ensures c.route == SafeRoute ==> c.ret == -safe.avgCost && c.risk == safe.risk
  {
    if hazard.risk <= riskThreshold && hazard.avgCost < safe.avgCost
    then Choice(HazardRoute, -hazard.avgCost, hazard.risk)
    else Choice(SafeRoute, -safe.avgCost, safe.risk)
  }

  /** The choice never returns less than the safe route, and it is feasible
      whenever the safe route is. */
  lemma SelectNoWorseThanSafe(riskThreshold: real, hazard: Evaluation, safe: Evaluation)
    ensures Select(riskThreshold, hazard, safe).ret >= -safe.avgCost
    ensures safe.risk <= riskThreshold ==> Select(riskThreshold, hazard, safe).risk <= riskThreshold
  {
  }

  /** A cheaper hazard route whose risk exceeds the threshold loses to the safe route. */
  lemma SelectRejectsRiskyHazard(riskThreshold: real, hazard: Evaluation, safe: Evaluation)
    requires hazard.avgCost < safe.avgCost && hazard.risk > riskThreshold
    ensures Select(riskThreshold, hazard, safe).route == SafeRoute
  {
  }

  /** solve_constrained_MDP(risk_threshold, p): build both routes, evaluate
      each over Episodes rollouts (hazard route first, sharing one stream of
      draws), and select. */
  method SolveConstrainedMDP(riskThreshold: real, p: real, meanLp: MeanLp, draw: nat -> Draw, pos0: nat)
    returns (policy: Policy, ret: real, risk: real, pos: nat)
    ensures var hc := HazardCosts(draw, pos0, Episodes);
            && (IsHazardRoute(policy) || IsSafeRoute(policy))
            && (IsHazardRoute(policy) <==> meanLp(hc, p) <= riskThreshold && Mean(hc) < 5.0)
            && (IsHazardRoute(policy) ==> ret == -Mean(hc) && risk == meanLp(hc, p))
            && (IsSafeRoute(policy) ==> ret == -5.0 && risk == meanLp(Repeat(5, Episodes), p))
    ensures pos == pos0 + Episodes
  {
    var policyHazard := BuildHazardPolicy();
    var policySafe := BuildSafePolicy();
    ghost var hc := HazardCosts(draw, pos0, Episodes);
    ghost var sc := Repeat(5, Episodes);
    HazardRouteSample(policyHazard, draw, Episodes, pos0);
    var rh := EvaluatePolicy(policyHazard, p, meanLp, draw, pos0);
    assert rh == Success((Evaluation(Mean(hc), meanLp(hc, p)), pos0 + Episodes));
    var (evalH, posH) := rh.value;
    SafeRouteSample(policySafe, draw, Episodes, posH);
    SafeRouteAverage(Episodes);
    var rs := EvaluatePolicy(policySafe, p, meanLp, draw, posH);
    assert rs == Success((Evaluation(5.0, meanLp(sc, p)), posH));
    var (evalS, posS) := rs.value;
    var choice := Select(riskThreshold, evalH, evalS);
    RoutesDistinct(policyHazard);
    RoutesDistinct(policySafe);
    if choice.route == HazardRoute {
      policy := policyHazard;
    } else {
      policy := policySafe;
    }
    ret, risk, pos := choice.ret, choice.risk, posS;
  }
}
