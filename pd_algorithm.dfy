/** PrimalDualPG: the bookkeeping of the primal-dual policy-gradient learner.
    Its episodes, its per-state logit table, its history lists and the
    projected dual ascent on the Lagrange multiplier. */
module PrimalDual {
  import opened Results
  import opened Statistics
  import opened Environment

  const NumStates: int := GridH * GridW
  const NumActions: int := 4
  /** run_episode breaks once the step counter exceeds this. */
  const StepLimit: nat := 100

  // ---------------------------------------------------------------------
  // The logit table and the state index

  predicate IsTable(m: seq<seq<real>>)
  {
    |m| == NumStates && forall i :: 0 <= i < |m| ==> |m[i]| == NumActions
  }

  function ZeroTable(): (m: seq<seq<real>>)
    ensures IsTable(m)
    ensures forall i, j :: 0 <= i < NumStates && 0 <= j < NumActions ==> m[i][j] == 0.0
  {
    seq(NumStates, _ => seq(NumActions, _ => 0.0))
  }

  /** One row of 4 logits per grid cell (a GRID_H*GRID_W x 4 tensor). */
  type Table = m: seq<seq<real>> | IsTable(m) witness ZeroTable()

  /** The logit row of a state: row * GRID_W + col. */
  function StateIndex(s: State): (i: int)
    ensures InBounds(s) ==> 0 <= i < NumStates
  {
    s.row * GridW + s.col
  }

  /** The row index gives the state back, so distinct cells get distinct rows. */
  lemma StateIndexInverse(s: State)
    requires InBounds(s)
    ensures StateIndex(s) / GridW == s.row && StateIndex(s) % GridW == s.col
  {
    var i := StateIndex(s);
    assert i == s.row * 5 + s.col;
    assert 0 <= s.col < 5;
  }

  lemma StateIndexInjective(s: State, t: State)
    requires InBounds(s) && InBounds(t) && StateIndex(s) == StateIndex(t)
    ensures s == t
  {
    StateIndexInverse(s);
    StateIndexInverse(t);
  }

  /** One gradient-descent step `logits - lr * grad`, entry by entry. */
  function Descend(logits: Table, lr: real, grad: Table): (r: Table)
    ensures forall i, j :: 0 <= i < NumStates && 0 <= j < NumActions ==>
              r[i][j] == logits[i][j] - lr * grad[i][j]
  {
    seq(NumStates, i requires 0 <= i < NumStates =>
      seq(NumActions, j requires 0 <= j < NumActions => logits[i][j] - lr * grad[i][j]))
  }

  // ---------------------------------------------------------------------
  // Sources of randomness and the parts computed by foreign code

  /** Categorical sampling from the softmax of one logit row: the action
      drawn as sample number k from that row. */
  type Sampler = (seq<real>, nat) -> Action

  /** The gradient autograd computes for the logits from the REINFORCE loss
      of a batch: a function of the logits, lambda, the batch's recorded
      log-probabilities, its costs and the order p. */
  type Gradient = (Table, real, seq<seq<LogProb>>, seq<int>, real) -> Table

  /** What the learner consumes but does not compute itself: the action
      sampler, the `random.random()` stream of step_env, the mean-Lp statistic
      and the loss gradient. */
  datatype Oracles = Oracles(sample: Sampler, draw: nat -> Draw, meanLp: MeanLp, gradient: Gradient)

  /** Positions reached in the action-sample stream and in the draw stream. */
  datatype Streams = Streams(samples: nat, draws: nat)

  /** A recorded log-probability: that of `action` under the softmax of logit row `row`. */
  datatype LogProb = LogProb(row: int, action: Action)

  /** What run_episode returns (its log-probability list and total cost),
      with the state it ended in and the stream positions reached. */
  datatype EpisodeResult = EpisodeResult(logProbs: seq<LogProb>, totalCost: int, last: State, rng: Streams)

  // ---------------------------------------------------------------------
  // run_episode

  /** The episode loop from state s after `count` steps, having recorded
      `logProbs` and accumulated `cost`. */
  function EpisodeFrom(logits: Table, o: Oracles, s: State, count: nat, logProbs: seq<LogProb>, cost: int, rng: Streams)
    : (r: EpisodeResult)
    requires InBounds(s) && s != Goal && count <= StepLimit
    decreases StepLimit - count
    // at least one more step, and never more than the cap leaves
    ensures |logProbs| < |r.logProbs| <= |logProbs| + StepLimit + 1 - count
  {
    var row := StateIndex(s);
    var a := o.sample(logits[row], rng.samples);
    var t := StepEnv(s, a, o.draw(rng.draws)).value;
    var rng' := Streams(rng.samples + 1, if EntersHazard(s, a) then rng.draws + 1 else rng.draws);
    var logProbs' := logProbs + [LogProb(row, a)];
    var cost' := cost + -t.reward;
    if t.done || count + 1 > StepLimit then EpisodeResult(logProbs', cost', t.next, rng')
    else EpisodeFrom(logits, o, t.next, count + 1, logProbs', cost', rng')
  }

  /** One episode from the start state. */
  function Episode(logits: Table, o: Oracles, rng: Streams): (r: EpisodeResult)
    ensures 1 <= |r.logProbs| <= StepLimit + 1
  {
    EpisodeFrom(logits, o, Start, 0, [], 0, rng)
  }

  /** Is `r` a logit row of a grid cell other than the goal? */
  predicate NonGoalRow(r: int)
  {
    0 <= r < NumStates && r != StateIndex(Goal)
  }

  /** The episode from s takes between 1 and the remaining number of steps,
      extends the recorded log-probabilities, draws one action sample per
      step, and ends at the goal unless the step cap cut it off. */
  lemma EpisodeFromSteps(logits: Table, o: Oracles, s: State, count: nat,
                         logProbs: seq<LogProb>, cost: int, rng: Streams)
    requires InBounds(s) && s != Goal && count <= StepLimit
    ensures var e := EpisodeFrom(logits, o, s, count, logProbs, cost, rng);
      var taken := |e.logProbs| - |logProbs|;
      && 1 <= taken <= StepLimit + 1 - count
      && e.logProbs[..|logProbs|] == logProbs
      && e.rng.samples == rng.samples + taken
      && (e.last == Goal || taken == StepLimit + 1 - count)
  {
    EpisodeFromPrefix(logits, o, s, count, logProbs, cost, rng);
    EpisodeFromEnd(logits, o, s, count, logProbs, cost, rng);
  }

  /** The episode from s extends the recorded log-probabilities and draws
      one action sample per step. */
  lemma {:induction false} EpisodeFromPrefix(logits: Table, o: Oracles, s: State, count: nat,
                                             logProbs: seq<LogProb>, cost: int, rng: Streams)
    requires InBounds(s) && s != Goal && count <= StepLimit
    decreases StepLimit - count
    ensures var e := EpisodeFrom(logits, o, s, count, logProbs, cost, rng);
      && e.logProbs[..|logProbs|] == logProbs
      && e.rng.samples == rng.samples + (|e.logProbs| - |logProbs|)
  {
    var row := StateIndex(s);
    var a := o.sample(logits[row], rng.samples);
    var t := StepEnv(s, a, o.draw(rng.draws)).value;
    var rng' := Streams(rng.samples + 1, if EntersHazard(s, a) then rng.draws + 1 else rng.draws);
    var logProbs' := logProbs + [LogProb(row, a)];
    if !(t.done || count + 1 > StepLimit) {
      EpisodeFromPrefix(logits, o, t.next, count + 1, logProbs', cost + -t.reward, rng');
      var e := EpisodeFrom(logits, o, t.next, count + 1, logProbs', cost + -t.reward, rng');
      assert EpisodeFrom(logits, o, s, count, logProbs, cost, rng) == e;
      assert e.logProbs[..|logProbs'|] == logProbs';
      assert e.logProbs[..|logProbs|] == logProbs'[..|logProbs|];
    }
  }

  /** The episode from s ends at the goal unless it used every remaining step. */
  lemma {:induction false} EpisodeFromEnd(logits: Table, o: Oracles, s: State, count: nat,
                                          logProbs: seq<LogProb>, cost: int, rng: Streams)
    requires InBounds(s) && s != Goal && count <= StepLimit
    decreases StepLimit - count
    ensures var e := EpisodeFrom(logits, o, s, count, logProbs, cost, rng);
      e.last == Goal || |e.logProbs| - |logProbs| == StepLimit + 1 - count
  {
    var row := StateIndex(s);
    var a := o.sample(logits[row], rng.samples);
    var t := StepEnv(s, a, o.draw(rng.draws)).value;
    var rng' := Streams(rng.samples + 1, if EntersHazard(s, a) then rng.draws + 1 else rng.draws);
    if !(t.done || count + 1 > StepLimit) {
      EpisodeFromEnd(logits, o, t.next, count + 1, logProbs + [LogProb(row, a)], cost + -t.reward, rng');
      assert EpisodeFrom(logits, o, s, count, logProbs, cost, rng) ==
             EpisodeFrom(logits, o, t.next, count + 1, logProbs + [LogProb(row, a)], cost + -t.reward, rng');
    }
  }

  /** Each step adds between 0 and 10 to the episode's cost. */
  lemma {:induction false} EpisodeFromCost(logits: Table, o: Oracles, s: State, count: nat,
                                           logProbs: seq<LogProb>, cost: int, rng: Streams)
    requires InBounds(s) && s != Goal && count <= StepLimit
    decreases StepLimit - count
    ensures var e := EpisodeFrom(logits, o, s, count, logProbs, cost, rng);
      cost <= e.totalCost <= cost + 10 * (|e.logProbs| - |logProbs|)
  {
    var row := StateIndex(s);
    var a := o.sample(logits[row], rng.samples);
    var t := StepEnv(s, a, o.draw(rng.draws)).value;
    var rng' := Streams(rng.samples + 1, if EntersHazard(s, a) then rng.draws + 1 else rng.draws);
    var logProbs' := logProbs + [LogProb(row, a)];
    CostBounds(s, a, o.draw(rng.draws));
    if !(t.done || count + 1 > StepLimit) {
      EpisodeFromCost(logits, o, t.next, count + 1, logProbs', cost + -t.reward, rng');
      assert EpisodeFrom(logits, o, s, count, logProbs, cost, rng) ==
             EpisodeFrom(logits, o, t.next, count + 1, logProbs', cost + -t.reward, rng');
    }
  }

  /** Every log-probability the episode records is for a row of a non-goal cell. */
  lemma {:induction false} EpisodeFromRows(logits: Table, o: Oracles, s: State, count: nat,
                                           logProbs: seq<LogProb>, cost: int, rng: Streams)
    requires InBounds(s) && s != Goal && count <= StepLimit
    decreases StepLimit - count
    ensures var e := EpisodeFrom(logits, o, s, count, logProbs, cost, rng);
      forall i :: |logProbs| <= i < |e.logProbs| ==> NonGoalRow(e.logProbs[i].row)
  {
    var row := StateIndex(s);
    var a := o.sample(logits[row], rng.samples);
    var t := StepEnv(s, a, o.draw(rng.draws)).value;
    var rng' := Streams(rng.samples + 1, if EntersHazard(s, a) then rng.draws + 1 else rng.draws);
    var logProbs' := logProbs + [LogProb(row, a)];
    NonGoalStateRow(s);
    if !(t.done || count + 1 > StepLimit) {
      EpisodeFromRows(logits, o, t.next, count + 1, logProbs', cost + -t.reward, rng');
      EpisodeFromPrefix(logits, o, t.next, count + 1, logProbs', cost + -t.reward, rng');
      var e := EpisodeFrom(logits, o, t.next, count + 1, logProbs', cost + -t.reward, rng');
      assert e.logProbs[|logProbs|] == e.logProbs[..|logProbs'|][|logProbs|] == LogProb(row, a);
      assert EpisodeFrom(logits, o, s, count, logProbs, cost, rng) == e;
      forall i | |logProbs| <= i < |e.logProbs|
        ensures NonGoalRow(e.logProbs[i].row)
      {
      }
    }
  }

  /** A cell other than the goal has a logit row other than the goal's. */
  lemma NonGoalStateRow(s: State)
    requires InBounds(s) && s != Goal
    ensures NonGoalRow(StateIndex(s))
  {
    if StateIndex(s) == StateIndex(Goal) {
      StateIndexInjective(s, Goal);
    }
  }

  /** run_episode takes between 1 and 101 steps, records one log-probability
      per step, never acts from the goal, ends at the goal unless the step
      cap cut it off, and its total cost lies in [0, 10 * steps]. */
  lemma EpisodeProperties(logits: Table, o: Oracles, rng: Streams)
    ensures var e := Episode(logits, o, rng);
      && 1 <= |e.logProbs| <= StepLimit + 1
      && 0 <= e.totalCost <= 10 * |e.logProbs|
      && e.rng.samples == rng.samples + |e.logProbs|
      && (e.last == Goal || |e.logProbs| == StepLimit + 1)
      && forall i :: 0 <= i < |e.logProbs| ==> NonGoalRow(e.logProbs[i].row)
  {
    EpisodeFromSteps(logits, o, Start, 0, [], 0, rng);
    EpisodeFromCost(logits, o, Start, 0, [], 0, rng);
    EpisodeFromRows(logits, o, Start, 0, [], 0, rng);
  }

  // ---------------------------------------------------------------------
  // One training iteration

  /** The episodes of one batch: their costs, their log-probability lists
      and the stream positions after them. */
  datatype Batch = Batch(costs: seq<int>, logProbs: seq<seq<LogProb>>, rng: Streams)

  /** The episodes of a batch as a function of the stream positions they start at. */
  type Runner = Streams -> EpisodeResult

  /** The episode runner under each logit table. */
  type Simulator = Table -> Runner

  function RunnerOf(logits: Table, o: Oracles): Runner
  {
    rng => Episode(logits, o, rng)
  }

  function SimulatorOf(o: Oracles): Simulator
  {
    logits => RunnerOf(logits, o)
  }

  /** n episodes run one after the other, each starting where the last one
      left the streams. */
  function Collect(run: Runner, n: nat, rng: Streams): (b: Batch)
    ensures |b.costs| == n && |b.logProbs| == n
  {
    if n == 0 then Batch([], [], rng)
    else
      var prev := Collect(run, n - 1, rng);
      var e := run(prev.rng);
      Batch(prev.costs + [e.totalCost], prev.logProbs + [e.logProbs], e.rng)
  }

  /** Every episode a runner produces costs between 0 and 10 * (StepLimit + 1). */
  ghost predicate BoundedRunner(run: Runner)
  {
    forall rng :: 0 <= run(rng).totalCost <= 10 * (StepLimit + 1)
  }

  lemma SimulatorOfBounded(o: Oracles)
    ensures forall logits :: BoundedRunner(SimulatorOf(o)(logits))
  {
    forall logits, rng ensures 0 <= SimulatorOf(o)(logits)(rng).totalCost <= 10 * (StepLimit + 1) {
      EpisodeProperties(logits, o, rng);
    }
  }

  lemma {:induction false} CollectBounds(run: Runner, n: nat, rng: Streams)
    requires BoundedRunner(run)
    ensures forall k :: 0 <= k < n ==> 0 <= Collect(run, n, rng).costs[k] <= 10 * (StepLimit + 1)
  {
    if n > 0 {
      CollectBounds(run, n - 1, rng);
      assert 0 <= run(Collect(run, n - 1, rng).rng).totalCost <= 10 * (StepLimit + 1);
    }
  }

  /** The train arguments an iteration needs. */
  datatype Hyper = Hyper(riskThreshold: real, p: real, batchSize: nat, lrPi: real, lrLambda: real)

  /** The learner's state between iterations: its parameters, its three
      history lists and the stream positions. */
  datatype Learner = Learner(logits: Table, lambda: real, costHistory: seq<real>, riskHistory: seq<real>,
                             lambdaHistory: seq<real>, rng: Streams)

  /** The projected dual ascent step on a constraint violation
      (risk - threshold): max(0, lambda + lr * violation). */
  function DualUpdate(lambda: real, lr: real, violation: real): (r: real)
    ensures r >= 0.0
    ensures r >= lambda + lr * violation
    ensures r == 0.0 || r == lambda + lr * violation
  {
    var l := lambda + lr * violation;
    if l < 0.0 then 0.0 else l
  }

  /** The update is the projection onto [0, inf): no non-negative value is
      closer to the unprojected step. */
  lemma DualUpdateIsProjection(lambda: real, lr: real, violation: real, mu: real)
    requires mu >= 0.0
    ensures var x := lambda + lr * violation;
            var r := DualUpdate(lambda, lr, violation);
            (if r >= x then r - x else x - r) <= (if mu >= x then mu - x else x - mu)
  {
  }

  /** What train does with a collected batch: record (average cost, risk,
      lambda before the update), take the gradient step and the dual step. */
  function Iteration(h: Hyper, o: Oracles, st: Learner, b: Batch): (r: Learner)
    requires |b.costs| > 0
    // one more entry on each history, a non-negative lambda, the streams where the batch left them
    ensures |r.costHistory| == |st.costHistory| + 1 && |r.riskHistory| == |st.riskHistory| + 1
    ensures |r.lambdaHistory| == |st.lambdaHistory| + 1
    ensures r.lambda >= 0.0 && r.rng == b.rng
  {
    var risk := o.meanLp(b.costs, h.p);
    Learner(Descend(st.logits, h.lrPi, o.gradient(st.logits, st.lambda, b.logProbs, b.costs, h.p)),
            DualUpdate(st.lambda, h.lrLambda, risk - h.riskThreshold),
            st.costHistory + [Mean(b.costs)],
            st.riskHistory + [risk],
            st.lambdaHistory + [st.lambda],
            b.rng)
  }

  /** The first k iterations of train, each collecting its batch with the
      runner `sim` gives for the current logits. */
  function Training(h: Hyper, sim: Simulator, o: Oracles, st: Learner, k: nat): (r: Learner)
    requires k > 0 ==> h.batchSize > 0
    // one entry per iteration on each history
    ensures |r.costHistory| == |st.costHistory| + k && |r.riskHistory| == |st.riskHistory| + k
    ensures |r.lambdaHistory| == |st.lambdaHistory| + k
  {
    if k == 0 then st
    else
      var prev := Training(h, sim, o, st, k - 1);
      Iteration(h, o, prev, Collect(sim(prev.logits), h.batchSize, prev.rng))
  }

  /** What one iteration records: one entry on each history, the lambda
      before its update on the lambda history, the batch's average cost,
      and the dual step taken on the recorded risk. */
  lemma IterationRecords(h: Hyper, o: Oracles, st: Learner, b: Batch)
    requires |b.costs| > 0
    ensures var r := Iteration(h, o, st, b);
      && r.costHistory == st.costHistory + [Mean(b.costs)]
      && r.riskHistory == st.riskHistory + [o.meanLp(b.costs, h.p)]
      && r.lambdaHistory == st.lambdaHistory + [st.lambda]
      && r.lambda == DualUpdate(st.lambda, h.lrLambda, o.meanLp(b.costs, h.p) - h.riskThreshold)
  {
  }

  /** Starting from empty histories, the lambda history starts with the
      initial lambda and each later entry is the dual update of the one
      before on that iteration's risk; the final lambda is the update of the
      last entry. */
  lemma {:induction false} TrainingDual(h: Hyper, sim: Simulator, o: Oracles, st: Learner, k: nat)
    requires k > 0 ==> h.batchSize > 0
    requires st.riskHistory == [] && st.lambdaHistory == []
    ensures var r := Training(h, sim, o, st, k);
      && |r.riskHistory| == k && |r.lambdaHistory| == k
      && (k == 0 ==> r.lambda == st.lambda)
      && (k > 0 ==> r.lambdaHistory[0] == st.lambda)
      && (forall i :: 0 <= i < k - 1 ==>
            r.lambdaHistory[i + 1] == DualUpdate(r.lambdaHistory[i], h.lrLambda, r.riskHistory[i] - h.riskThreshold))
      && (k > 0 ==> r.lambda == DualUpdate(r.lambdaHistory[k - 1], h.lrLambda, r.riskHistory[k - 1] - h.riskThreshold))
  {
    if k > 0 {
      TrainingDual(h, sim, o, st, k - 1);
      var prev := Training(h, sim, o, st, k - 1);
      var b := Collect(sim(prev.logits), h.batchSize, prev.rng);
      IterationRecords(h, o, prev, b);
      DualChainSnoc(h, prev.lambdaHistory, prev.riskHistory, prev.lambda, o.meanLp(b.costs, h.p));
    }
  }

  /** Recording lambda and the risk, then taking the dual step, extends a
      chain of dual steps by one. */
  lemma DualChainSnoc(h: Hyper, lambdas: seq<real>, risks: seq<real>, lambda: real, risk: real)
    requires |risks| == |lambdas|
    requires forall i :: 0 <= i < |lambdas| - 1 ==>
               lambdas[i + 1] == DualUpdate(lambdas[i], h.lrLambda, risks[i] - h.riskThreshold)
    requires |lambdas| > 0 ==> lambda == DualUpdate(lambdas[|lambdas| - 1], h.lrLambda, risks[|lambdas| - 1] - h.riskThreshold)
    ensures var ls, rs := lambdas + [lambda], risks + [risk];
      forall i :: 0 <= i < |ls| - 1 ==> ls[i + 1] == DualUpdate(ls[i], h.lrLambda, rs[i] - h.riskThreshold)
  {
    var ls, rs := lambdas + [lambda], risks + [risk];
    forall i | 0 <= i < |ls| - 1
      ensures ls[i + 1] == DualUpdate(ls[i], h.lrLambda, rs[i] - h.riskThreshold)
    {
      if i < |lambdas| - 1 {
        assert ls[i + 1] == lambdas[i + 1];
      }
    }
  }

  /** From a non-negative lambda, every lambda train records and the final
      one are non-negative. */
  lemma {:induction false} TrainingLambdaNonNegative(h: Hyper, sim: Simulator, o: Oracles, st: Learner, k: nat)
    requires k > 0 ==> h.batchSize > 0
    requires st.lambdaHistory == [] && st.lambda >= 0.0
    ensures var r := Training(h, sim, o, st, k);
      && |r.lambdaHistory| == k
      && r.lambda >= 0.0
      && forall i :: 0 <= i < k ==> r.lambdaHistory[i] >= 0.0
  {
    if k > 0 {
      TrainingLambdaNonNegative(h, sim, o, st, k - 1);
      var prev := Training(h, sim, o, st, k - 1);
      IterationRecords(h, o, prev, Collect(sim(prev.logits), h.batchSize, prev.rng));
    }
  }

  /** With episodes costing between 0 and 10 * (StepLimit + 1), every
      recorded average cost lies in that range too. */
  lemma {:induction false} TrainingCosts(h: Hyper, sim: Simulator, o: Oracles, st: Learner, k: nat)
    requires k > 0 ==> h.batchSize > 0
    requires st.costHistory == []
    requires forall logits :: BoundedRunner(sim(logits))
    ensures var r := Training(h, sim, o, st, k);
      && |r.costHistory| == k
      && forall i :: 0 <= i < k ==> 0.0 <= r.costHistory[i] <= (10 * (StepLimit + 1)) as real
  {
    if k > 0 {
      TrainingCosts(h, sim, o, st, k - 1);
      var prev := Training(h, sim, o, st, k - 1);
      var b := Collect(sim(prev.logits), h.batchSize, prev.rng);
      IterationRecords(h, o, prev, b);
      CollectBounds(sim(prev.logits), h.batchSize, prev.rng);
      MeanBounds(b.costs, 0, 10 * (StepLimit + 1));
    }
  }

  /** What train returns, from empty histories and a non-negative lambda:
      one entry per iteration on each history, the initial lambda first on
      the lambda history, every recorded lambda non-negative, and every
      recorded average cost in [0, 10 * (StepLimit + 1)]. */
  lemma TrainingProperties(h: Hyper, o: Oracles, st: Learner, k: nat)
    requires k > 0 ==> h.batchSize > 0
    requires st.costHistory == [] && st.riskHistory == [] && st.lambdaHistory == [] && st.lambda >= 0.0
    ensures var r := Training(h, SimulatorOf(o), o, st, k);
      && |r.costHistory| == k && |r.riskHistory| == k && |r.lambdaHistory| == k
      && (k > 0 ==> r.lambdaHistory[0] == st.lambda)
      && r.lambda >= 0.0
      && (forall i :: 0 <= i < k ==> r.lambdaHistory[i] >= 0.0)
      && (forall i :: 0 <= i < k ==> 0.0 <= r.costHistory[i] <= (10 * (StepLimit + 1)) as real)
  {
    TrainingDual(h, SimulatorOf(o), o, st, k);
    TrainingLambdaNonNegative(h, SimulatorOf(o), o, st, k);
    SimulatorOfBounded(o);
    TrainingCosts(h, SimulatorOf(o), o, st, k);
  }

  // ---------------------------------------------------------------------
  // The learner object

  class PrimalDualPG {
    var gamma: real
    var logits: Table
    var lambda: real
    var lrPi: real
    var lrLambda: real

    /** The dual variable is never negative. */
    ghost predicate Valid()
      reads this
    {
      lambda >= 0.0
    }

    constructor (lrPi: real := 0.01, lrLambda: real := 0.005, gamma: real := 1.0)
      ensures Valid()
      ensures logits == ZeroTable() && lambda == 0.0
      ensures this.lrPi == lrPi && this.lrLambda == lrLambda && this.gamma == gamma
    {
      this.gamma := gamma;
      this.logits := ZeroTable();
      this.lambda := 0.0;
      this.lrPi := lrPi;
      this.lrLambda := lrLambda;
    }

    /** select_action: sample from the state's logit row and record which
        log-probability the sample contributes. */
    method SelectAction(s: State, o: Oracles, rng: Streams) returns (action: Action, logProb: LogProb, rng': Streams)
      requires InBounds(s)
      ensures action == o.sample(logits[StateIndex(s)], rng.samples)
      ensures logProb == LogProb(StateIndex(s), action) && NonGoalRow(logProb.row) == (s != Goal)
      ensures rng' == Streams(rng.samples + 1, rng.draws)
    {
      var stateIdx := s.row * GridW + s.col;
      action := o.sample(logits[stateIdx], rng.samples);
      logProb := LogProb(stateIdx, action);
      rng' := Streams(rng.samples + 1, rng.draws);
      if s != Goal && stateIdx == StateIndex(Goal) {
        StateIndexInjective(s, Goal);
      }
    }

    /** One pass of the run_episode loop body from s after `count` steps:
        select an action, step the environment, record the log-probability
        and the cost; `stop` is the loop's break condition. */
    method StepOnce(o: Oracles, s: State, count: nat, logProbs: seq<LogProb>, cost: int, rng: Streams)
      returns (logProbs': seq<LogProb>, cost': int, s': State, rng': Streams, stop: bool)
      requires InBounds(s) && s != Goal && count <= StepLimit
      ensures stop ==> EpisodeFrom(logits, o, s, count, logProbs, cost, rng) == EpisodeResult(logProbs', cost', s', rng')
      ensures !stop ==> InBounds(s') && s' != Goal && count + 1 <= StepLimit
      ensures !stop ==> EpisodeFrom(logits, o, s, count, logProbs, cost, rng) == EpisodeFrom(logits, o, s', count + 1, logProbs', cost', rng')
    {
      var action, logProb;
      action, logProb, rng' := SelectAction(s, o, rng);
      var t := StepEnv(s, action, o.draw(rng'.draws)).value;
      if EntersHazard(s, action) {
        rng' := Streams(rng'.samples, rng'.draws + 1);
      }
      logProbs' := logProbs + [logProb];
      cost' := cost + -t.reward;
      s' := t.next;
      stop := t.done || count + 1 > StepLimit;
    }

    /** run_episode: act and step until done or until more than StepLimit steps. */
    method RunEpisode(o: Oracles, rng0: Streams) returns (logProbs: seq<LogProb>, totalCost: int, rng: Streams)
      ensures var e := Episode(logits, o, rng0);
              logProbs == e.logProbs && totalCost == e.totalCost && rng == e.rng
      ensures 1 <= |logProbs| <= StepLimit + 1
      ensures 0 <= totalCost <= 10 * |logProbs|
    {
      var state := Start;
      logProbs := [];
      totalCost := 0;
      var stepCount := 0;
      rng := rng0;
      while true
        invariant InBounds(state) && state != Goal && stepCount <= StepLimit
        invariant EpisodeFrom(logits, o, state, stepCount, logProbs, totalCost, rng) == Episode(logits, o, rng0)
        decreases StepLimit - stepCount
      {
        var stop;
        logProbs, totalCost, state, rng, stop := StepOnce(o, state, stepCount, logProbs, totalCost, rng);
        stepCount := stepCount + 1;
        if stop {
          break;
        }
      }
      EpisodeProperties(logits, o, rng0);
    }

    /** The inner loop of train: batchSize episodes under the current logits. */
    method CollectBatch(o: Oracles, batchSize: nat, rng0: Streams) returns (batch: Batch)
      ensures batch == Collect(SimulatorOf(o)(logits), batchSize, rng0)
    {
      var batchLogProbs: seq<seq<LogProb>>, batchCosts: seq<int> := [], [];
      var rng := rng0;
      for b := 0 to batchSize
        invariant Batch(batchCosts, batchLogProbs, rng) == Collect(RunnerOf(logits, o), b, rng0)
      {
        var logProbs, totalCost;
        logProbs, totalCost, rng := RunEpisode(o, rng);
        batchLogProbs := batchLogProbs + [logProbs];
        batchCosts := batchCosts + [totalCost];
      }
      batch := Batch(batchCosts, batchLogProbs, rng);
      assert SimulatorOf(o)(logits) == RunnerOf(logits, o);
    }

    /** The rest of an outer pass of train, on a collected batch: append to
        the histories, step the logits along the loss gradient and take the
        projected dual step. `rng0` is where the batch's streams started. */
    method Update(riskThreshold: real, p: real, o: Oracles, batch: Batch,
                  costHistory: seq<real>, riskHistory: seq<real>, lambdaHistory: seq<real>, ghost rng0: Streams)
      returns (costHistory': seq<real>, riskHistory': seq<real>, lambdaHistory': seq<real>)
      requires |batch.costs| > 0
      modifies this`logits, this`lambda
      ensures Learner(logits, lambda, costHistory', riskHistory', lambdaHistory', batch.rng) ==
              Iteration(Hyper(riskThreshold, p, |batch.costs|, lrPi, lrLambda), o,
                        Learner(old(logits), old(lambda), costHistory, riskHistory, lambdaHistory, rng0), batch)
    {
      var avgCost := Mean(batch.costs);
      var risk := o.meanLp(batch.costs, p);
      costHistory', riskHistory', lambdaHistory' := costHistory + [avgCost], riskHistory + [risk], lambdaHistory + [lambda];
      logits := Descend(logits, lrPi, o.gradient(logits, lambda, batch.logProbs, batch.costs, p));
      var constraintViolation := risk - riskThreshold;
      DualStep(constraintViolation);
    }

    /** The dual step of train: move lambda along the constraint violation,
        then clamp it at zero. */
    method DualStep(constraintViolation: real)
      modifies this`lambda
      ensures lambda == DualUpdate(old(lambda), lrLambda, constraintViolation)
    {
      lambda := lambda + lrLambda * constraintViolation;
      if lambda < 0.0 {
        lambda := 0.0;
      }
    }

    /** The learner holds what the first k iterations of train produce from
        st0, with the histories and stream positions given. */
    ghost predicate Trained(h: Hyper, o: Oracles, st0: Learner, k: nat,
                            costHistory: seq<real>, riskHistory: seq<real>, lambdaHistory: seq<real>, rng: Streams)
      reads this
    {
      && (k > 0 ==> h.batchSize > 0)
      && Valid()
      && Learner(logits, lambda, costHistory, riskHistory, lambdaHistory, rng) == Training(h, SimulatorOf(o), o, st0, k)
    }

    /** One pass of the outer loop of train: collect a batch under the
        current logits, then update. */
    method Iterate(riskThreshold: real, p: real, batchSize: nat, o: Oracles,
                   costHistory: seq<real>, riskHistory: seq<real>, lambdaHistory: seq<real>, rng: Streams,
                   ghost h: Hyper, ghost st0: Learner, ghost it: nat)
      returns (costHistory': seq<real>, riskHistory': seq<real>, lambdaHistory': seq<real>, rng': Streams)
      requires h == Hyper(riskThreshold, p, batchSize, lrPi, lrLambda) && batchSize > 0
      requires Trained(h, o, st0, it, costHistory, riskHistory, lambdaHistory, rng)
      modifies this`logits, this`lambda
      ensures Trained(h, o, st0, it + 1, costHistory', riskHistory', lambdaHistory', rng')
    {
      var batch := CollectBatch(o, batchSize, rng);
      costHistory', riskHistory', lambdaHistory' :=
        Update(riskThreshold, p, o, batch, costHistory, riskHistory, lambdaHistory, rng);
      rng' := batch.rng;
    }

    /** train: numIterations iterations of batch collection, history
        recording, the primal step and the projected dual step. */
    method Train(riskThreshold: real, p: real, numIterations: nat := 1000, batchSize: nat := 50,
                 o: Oracles, rng0: Streams)
      returns (costHistory: seq<real>, riskHistory: seq<real>, lambdaHistory: seq<real>, rng: Streams)
      requires Valid() && (numIterations > 0 ==> batchSize > 0)
      modifies this`logits, this`lambda
      ensures Valid()
      ensures Learner(logits, lambda, costHistory, riskHistory, lambdaHistory, rng) ==
              Training(Hyper(riskThreshold, p, batchSize, lrPi, lrLambda), SimulatorOf(o), o,
                       Learner(old(logits), old(lambda), [], [], [], rng0), numIterations)
    {
      ghost var h := Hyper(riskThreshold, p, batchSize, lrPi, lrLambda);
      ghost var st0 := Learner(logits, lambda, [], [], [], rng0);
      costHistory, riskHistory, lambdaHistory := [], [], [];
      rng := rng0;
      var it := 0;
      while it < numIterations
        invariant it <= numIterations
        invariant Trained(h, o, st0, it, costHistory, riskHistory, lambdaHistory, rng)
      {
        costHistory, riskHistory, lambdaHistory, rng :=
          Iterate(riskThreshold, p, batchSize, o, costHistory, riskHistory, lambdaHistory, rng, h, st0, it);
        it := it + 1;
      }
    }
  }
}
