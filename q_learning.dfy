/** The tabular Q-learning agent of the grid-world demo: a table from free cells to one
    value per action, the update rule `Q + α(r + γ·next − Q)`, the greedy choice, the
    derived policy and the training loop with its epsilon decay. Values are reals; the
    floating-point rounding of the original is not modelled. */
module QLearning {
  import opened Wrappers
  import opened Ranking
  import opened GridWorld
  import Numbers

  /** A fresh row: one zero per action. */
  const ZeroRow: seq<real> := [0.0, 0.0, 0.0, 0.0]

  /** Every row holds one value per action. */
  predicate WellShaped(table: map<Pos, seq<real>>) {
    forall s :: s in table ==> |table[s]| == |Actions|
  }

  /** `np.argmax(row)`: the first index of a maximal value. */
  function ArgMax(row: seq<real>): (r: nat)
    requires |row| > 0
    ensures r < |row|
    ensures forall j :: 0 <= j < |row| ==> row[j] <= row[r]
    ensures forall j :: 0 <= j < r ==> row[j] < row[r]
  {
    FirstMax(row, x => x)
  }

  /** `np.max(row)`. */
  function MaxOf(row: seq<real>): (m: real)
    requires |row| > 0
    ensures m in row
    ensures forall j :: 0 <= j < |row| ==> row[j] <= m
  {
    row[ArgMax(row)]
  }

  /** The value of the next state in the update: none after the last step or for a state
      outside the table, the best value of its row otherwise. */
  function NextValue(table: map<Pos, seq<real>>, nextState: Pos, done: bool): (r: real)
    requires WellShaped(table)
    ensures done || nextState !in table ==> r == 0.0
    ensures !done && nextState in table ==> r in table[nextState] && forall a :: 0 <= a < |Actions| ==> table[nextState][a] <= r
  {
    if done then 0.0
    else if nextState !in table then 0.0
    else MaxOf(table[nextState])
  }

  /** The Q-learning rule: move the old value toward the target by the learning rate. */
  function Updated(q: real, learningRate: real, discountFactor: real, reward: real, next: real): real {
    q + learningRate * (reward + discountFactor * next - q)
  }

  /** With a learning rate in [0, 1] the new value lies between the old value and the
      target `reward + γ·next`; rate 1 gives the target, rate 0 the old value. */
  lemma UpdatedBetween(q: real, learningRate: real, discountFactor: real, reward: real, next: real)
    requires 0.0 <= learningRate <= 1.0
    ensures var target := reward + discountFactor * next;
      var u := Updated(q, learningRate, discountFactor, reward, next);
      (q <= target ==> q <= u <= target) && (target <= q ==> target <= u <= q)
    ensures learningRate == 1.0 ==> Updated(q, learningRate, discountFactor, reward, next) == reward + discountFactor * next
    ensures learningRate == 0.0 ==> Updated(q, learningRate, discountFactor, reward, next) == q
  {
    var target := reward + discountFactor * next;
    var d := target - q;
    assert Updated(q, learningRate, discountFactor, reward, next) == q + learningRate * d;
    if d >= 0.0 {
      assert 0.0 <= learningRate * d <= d;
    } else {
      assert d <= learningRate * d <= 0.0;
    }
  }

  /** The row of `state`, or a fresh one when the table has none. */
  function RowOf(table: map<Pos, seq<real>>, state: Pos): seq<real> {
    if state in table then table[state] else ZeroRow
  }

  /** Epsilon after one episode: multiplied by the decay only while above the minimum. */
  function DecayedOnce(epsilon: real, decay: real, epsilonMin: real): real {
    if epsilon > epsilonMin then epsilon * decay else epsilon
  }

  /** Epsilon after `n` episodes. */
  function Decayed(epsilon: real, decay: real, epsilonMin: real, n: nat): real {
    if n == 0 then epsilon else DecayedOnce(Decayed(epsilon, decay, epsilonMin, n - 1), decay, epsilonMin)
  }

  /** With a decay in [0, 1] a non-negative epsilon never grows and stays non-negative,
      and once at or below the minimum it no longer changes. */
  lemma {:induction false} DecayedNonIncreasing(epsilon: real, decay: real, epsilonMin: real, n: nat)
    requires 0.0 <= decay <= 1.0 && epsilon >= 0.0
    ensures 0.0 <= Decayed(epsilon, decay, epsilonMin, n + 1) <= Decayed(epsilon, decay, epsilonMin, n) <= epsilon
    ensures Decayed(epsilon, decay, epsilonMin, n) <= epsilonMin ==>
      Decayed(epsilon, decay, epsilonMin, n + 1) == Decayed(epsilon, decay, epsilonMin, n)
  {
    if n > 0 {
      DecayedNonIncreasing(epsilon, decay, epsilonMin, n - 1);
    }
    var e := Decayed(epsilon, decay, epsilonMin, n);
    assert Decayed(epsilon, decay, epsilonMin, n + 1) == DecayedOnce(e, decay, epsilonMin);
    assert 0.0 <= e <= epsilon;
    if e > epsilonMin && e > 0.0 {
      Numbers.SignOfProduct(decay, e);
      Numbers.SignOfProduct(1.0 - decay, e);
      assert e - e * decay == (1.0 - decay) * e;
      assert e * decay <= e;
    } else if e == 0.0 {
      assert e * decay == 0.0;
    }
  }

  /** The cells of the first `width` columns of a grid `height` high. */
  function Cells(width: nat, height: nat): set<Pos> {
    set x, y | 0 <= x < width && 0 <= y < height :: Pos(x, y)
  }

  /** Column `x` of a grid `height` high. */
  function Column(x: int, height: nat): set<Pos> {
    set y | 0 <= y < height :: Pos(x, y)
  }

  lemma {:induction false} ColumnSize(x: int, height: nat)
    ensures |Column(x, height)| == height
  {
    if height > 0 {
      ColumnSize(x, height - 1);
      assert Column(x, height) == Column(x, height - 1) + {Pos(x, height - 1)};
    } else {
      assert Column(x, height) == {};
    }
  }

  /** The cells of `width` columns are those of the first `width - 1` and the last
      column, which share none. */
  lemma CellsSplit(width: nat, height: nat)
    requires width > 0
    ensures Cells(width, height) == Cells(width - 1, height) + Column(width - 1, height)
    ensures Cells(width - 1, height) !! Column(width - 1, height)
  {
    forall p | p in Cells(width, height)
      ensures p in Cells(width - 1, height) || p in Column(width - 1, height)
    {
      if p.x < width - 1 {
        assert p in Cells(width - 1, height);
      } else {
        assert p in Column(width - 1, height);
      }
    }
    forall p | p in Column(width - 1, height) ensures p in Cells(width, height) {
      assert 0 <= p.x < width && 0 <= p.y < height;
    }
    forall p | p in Cells(width - 1, height) ensures p in Cells(width, height) && p !in Column(width - 1, height) {
      assert 0 <= p.x < width - 1 && 0 <= p.y < height;
    }
  }

  lemma {:induction false} CellsSize(width: nat, height: nat)
    ensures |Cells(width, height)| == width * height
  {
    if width > 0 {
      CellsSize(width - 1, height);
      ColumnSize(width - 1, height);
      CellsSplit(width, height);
      assert (width - 1) * height + height == width * height;
    } else {
      assert Cells(width, height) == {};
    }
  }

  /** The free cells of a grid are at most as many as its cells. */
  lemma FreeCellsBound(g: Grid, keys: set<Pos>)
    requires forall p :: p in keys <==> IsFree(g, p)
    requires g.width >= 0 && g.height >= 0
    ensures |keys| <= g.width * g.height
  {
    CellsSize(g.width, g.height);
    assert keys <= Cells(g.width, g.height) by {
      forall p | p in keys ensures p in Cells(g.width, g.height) {
        assert 0 <= p.x < g.width && 0 <= p.y < g.height;
      }
    }
    SubsetSize(keys, Cells(g.width, g.height));
  }

  lemma {:induction false} SubsetSize<T>(a: set<T>, b: set<T>)
    requires a <= b
    ensures |a| <= |b|
  {
    if a != {} {
      var e :| e in a;
      SubsetSize(a - {e}, b - {e});
    }
  }

  /** `get_state_space_size` counts the cells of the grid, and a table keyed by the free
      cells never has more states than that. */
  lemma StateSpaceCells(agent: QLearningAgent)
    requires agent.env.grid.width >= 0 && agent.env.grid.height >= 0
    requires agent.KeysAreFreeCells()
    ensures agent.env.StateSpaceSize() == |Cells(agent.env.grid.width, agent.env.grid.height)|
    ensures |agent.qTable| <= agent.env.StateSpaceSize()
  {
    CellsSize(agent.env.grid.width, agent.env.grid.height);
    FreeCellsBound(agent.env.grid, agent.qTable.Keys);
  }

  /** The total of a sequence of rewards, in the order they were received. */
  function RewardSum(rewards: seq<real>): real {
    if rewards == [] then 0.0 else RewardSum(rewards[..|rewards| - 1]) + rewards[|rewards| - 1]
  }

  /** A reward the environment can give: the goal, a blocked move or an ordinary move. */
  predicate StepReward(x: real) {
    x == 10.0 || x == -1.0 || x == -0.1
  }

  /** The loops of `_initialize_q_table`: a zero row for every free cell, column by
      column. */
  method ZeroTable(g: Grid) returns (table: map<Pos, seq<real>>)
    ensures forall p :: p in table <==> IsFree(g, p)
    ensures forall p :: p in table ==> table[p] == ZeroRow
  {
    table := map[];
    var x := 0;
    while x < g.width
      invariant x == 0 || x <= g.width
      invariant forall p :: p in table <==> IsFree(g, p) && p.x < x
      invariant forall p :: p in table ==> table[p] == ZeroRow
    {
      var y := 0;
      while y < g.height
        invariant y == 0 || y <= g.height
        invariant forall p :: p in table <==> IsFree(g, p) && (p.x < x || (p.x == x && p.y < y))
        invariant forall p :: p in table ==> table[p] == ZeroRow
      {
        var state := Pos(x, y);
        if state !in g.obstacles && state != g.goal {
          table := table[state := ZeroRow];
        }
        y := y + 1;
      }
      x := x + 1;
    }
  }

  class QLearningAgent {
    const env: GridWorldEnv
    const learningRate: real
    const discountFactor: real
    const epsilonDecay: real
    const epsilonMin: real
    var epsilon: real
    var qTable: map<Pos, seq<real>>

    predicate Valid()
      reads this
    {
      WellShaped(qTable)
    }

    /** The table holds exactly the free cells of the environment. */
    ghost predicate KeysAreFreeCells()
      reads this
    {
      forall p :: p in qTable <==> IsFree(env.grid, p)
    }

    /** `__init__`: the parameters, then the initial table. */
    constructor(env: GridWorldEnv, learningRate: real, discountFactor: real, epsilon: real, epsilonDecay: real, epsilonMin: real)
      ensures this.env == env && this.learningRate == learningRate && this.discountFactor == discountFactor
      ensures this.epsilon == epsilon && this.epsilonDecay == epsilonDecay && this.epsilonMin == epsilonMin
      ensures Valid() && KeysAreFreeCells()
      ensures forall p :: p in qTable ==> qTable[p] == ZeroRow
      ensures env.grid.width >= 0 && env.grid.height >= 0 ==> |qTable| <= env.StateSpaceSize()
    {
      this.env := env;
      this.learningRate := learningRate;
      this.discountFactor := discountFactor;
      this.epsilon := epsilon;
      this.epsilonDecay := epsilonDecay;
      this.epsilonMin := epsilonMin;
      this.qTable := map[];
      new;
      InitializeQTable();
    }

    /** `_initialize_q_table`: a zero row for every cell of the grid that is neither an
        obstacle nor the goal, scanning columns then rows. */
    method InitializeQTable()
      requires qTable == map[]
      modifies this
      ensures Valid() && KeysAreFreeCells()
      ensures forall p :: p in qTable ==> qTable[p] == ZeroRow
      ensures env.grid.width >= 0 && env.grid.height >= 0 ==> |qTable| <= env.StateSpaceSize()
      ensures epsilon == old(epsilon)
    {
      var g := env.grid;
      var table := ZeroTable(g);
      qTable := table;
      if g.width >= 0 && g.height >= 0 {
        FreeCellsBound(g, qTable.Keys);
      }
    }

    /** `_get_q_value`: zero for a state outside the table. */
    function GetQ(state: Pos, action: nat): (r: real)
      reads this
      requires Valid() && action < |Actions|
      ensures state !in qTable ==> r == 0.0
    {
      RowOf(qTable, state)[action]
    }

    /** `_set_q_value`: a missing row is created with zeros, then exactly the one entry
        changes. */
    method SetQ(state: Pos, action: nat, value: real)
      requires Valid() && action < |Actions|
      modifies this
      ensures Valid()
      ensures qTable == old(qTable)[state := RowOf(old(qTable), state)[action := value]]
      ensures GetQ(state, action) == value
      ensures forall s, a :: 0 <= a < |Actions| && (s != state || a != action) ==> GetQ(s, a) == old(GetQ(s, a))
      ensures epsilon == old(epsilon)
    {
      if state !in qTable {
        qTable := qTable[state := ZeroRow];
      }
      qTable := qTable[state := qTable[state][action := value]];
    }

    /** `_update_q_value`: the entry takes the Q-learning update of its old value, with
        the next state's value read before the write. */
    method UpdateQ(state: Pos, action: nat, reward: real, nextState: Pos, done: bool)
      requires Valid() && action < |Actions|
      modifies this
      ensures Valid()
      ensures GetQ(state, action) == Updated(old(GetQ(state, action)), learningRate, discountFactor, reward, old(NextValue(qTable, nextState, done)))
      ensures forall s, a :: 0 <= a < |Actions| && (s != state || a != action) ==> GetQ(s, a) == old(GetQ(s, a))
      ensures qTable.Keys == old(qTable.Keys) + {state}
      ensures epsilon == old(epsilon)
    {
      var currentQ := GetQ(state, action);
      var nextQ: real;
      if done {
        nextQ := 0.0;
      } else if nextState !in qTable {
        nextQ := 0.0;
      } else {
        nextQ := MaxOf(qTable[nextState]);
      }
      var newQ := currentQ + learningRate * (reward + discountFactor * nextQ - currentQ);
      SetQ(state, action, newQ);
    }

    /** `_choose_action`: exploring (a draw below epsilon) or a state outside the table
        gives a random action; otherwise the first action of maximal value. `draw` is
        the uniform random number. */
    method ChooseAction(state: Pos, explore: bool, draw: real) returns (action: nat)
      requires Valid()
      ensures action < |Actions|
      ensures !(explore && draw < epsilon) && state in qTable ==> action == ArgMax(qTable[state])
    {
      if explore && draw < epsilon {
        action :| action < |Actions|;
      } else if state !in qTable {
        action :| action < |Actions|;
      } else {
        action := ArgMax(qTable[state]);
      }
    }

    /** `get_policy`: for every state of the table, its greedy action. */
    method GetPolicy() returns (policy: map<Pos, nat>)
      requires Valid()
      ensures policy.Keys == qTable.Keys
      ensures forall s :: s in policy ==> policy[s] == ArgMax(qTable[s])
    {
      policy := map[];
      var remaining := qTable.Keys;
      while remaining != {}
        invariant remaining <= qTable.Keys
        invariant policy.Keys == qTable.Keys - remaining
        invariant forall s :: s in policy ==> policy[s] == ArgMax(qTable[s])
        decreases |remaining|
      {
        var state :| state in remaining;
        policy := policy[state := ArgMax(qTable[state])];
        remaining := remaining - {state};
      }
    }

    /** One pass of the loop of `run_episode`: choose an action with the draw, move,
        and learn from the move. */
    method Act(state: Pos, draw: real) returns (result: StepResult)
      requires Valid() && KeysAreFreeCells() && env.Valid()
      requires state == env.agentPosition && IsFree(env.grid, state)
      modifies this, env
      ensures Valid() && KeysAreFreeCells() && env.Valid()
      ensures epsilon == old(epsilon)
      ensures result.state == env.agentPosition && (result.done || IsFree(env.grid, result.state))
      ensures StepReward(result.reward) && (result.reward == 10.0 <==> result.done)
    {
      var action := ChooseAction(state, true, draw);
      var outcome := env.Step(action);
      result := outcome.value;
      UpdateQ(state, action, result.reward, result.state, result.done);
    }

    /** One episode of `train`: start from `reset`, then at most `maxSteps` steps of
        epsilon-greedy choice, move and update, stopping on the goal. The table keeps
        exactly the free cells because the agent only ever updates a free cell: the goal
        ends the episode. Random draws are nondeterministic choices. The ghost `rewards`
        are the step rewards in order: the total is their sum, only the last can be the
        goal's 10, and an episode shorter than the limit ended on the goal. */
    method RunEpisode(maxSteps: nat) returns (totalReward: real, steps: nat, ghost rewards: seq<real>)
      requires Valid() && KeysAreFreeCells() && env.Valid() && HasFreeCell(env.grid)
      modifies this, env
      ensures Valid() && KeysAreFreeCells() && env.Valid()
      ensures steps <= maxSteps
      ensures epsilon == old(epsilon)
      ensures |rewards| == steps && totalReward == RewardSum(rewards)
      ensures forall i :: 0 <= i < |rewards| ==> StepReward(rewards[i])
      ensures forall i :: 0 <= i < |rewards| - 1 ==> rewards[i] != 10.0
      ensures steps < maxSteps ==> steps > 0 && rewards[steps - 1] == 10.0
      ensures -(steps as real) <= totalReward <= 10.0
    {
      var state := env.Reset();
      totalReward := 0.0;
      steps := 0;
      rewards := [];
      var step := 0;
      while step < maxSteps
        invariant Valid() && KeysAreFreeCells() && env.Valid()
        invariant steps == step <= maxSteps
        invariant state == env.agentPosition && IsFree(env.grid, state)
        invariant epsilon == old(epsilon)
        invariant |rewards| == steps && totalReward == RewardSum(rewards)
        invariant forall i :: 0 <= i < |rewards| ==> StepReward(rewards[i]) && rewards[i] != 10.0
        invariant -(steps as real) <= totalReward <= 0.0
      {
        var draw: real :| true;
        var result := Act(state, draw);
        state := result.state;
        assert (rewards + [result.reward])[..|rewards|] == rewards;
        totalReward := totalReward + result.reward;
        rewards := rewards + [result.reward];
        steps := steps + 1;
        if result.done {
          break;
        }
        step := step + 1;
      }
    }

    /** `train`: one episode after another; after each, epsilon decays while above its
        minimum. The rewards and step counts are recorded per episode. */
    method Train(episodes: nat, maxSteps: nat) returns (episodeRewards: seq<real>, episodeSteps: seq<nat>)
      requires Valid() && KeysAreFreeCells() && env.Valid() && HasFreeCell(env.grid)
      modifies this, env
      ensures Valid() && KeysAreFreeCells() && env.Valid()
      ensures |episodeRewards| == episodes && |episodeSteps| == episodes
      ensures forall i :: 0 <= i < episodes ==> episodeSteps[i] <= maxSteps
      ensures epsilon == Decayed(old(epsilon), epsilonDecay, epsilonMin, episodes)
    {
      episodeRewards, episodeSteps := [], [];
      ghost var epsilon0 := epsilon;
      for episode := 0 to episodes
        invariant Valid() && KeysAreFreeCells() && env.Valid()
        invariant |episodeRewards| == episode && |episodeSteps| == episode
        invariant forall i :: 0 <= i < episode ==> episodeSteps[i] <= maxSteps
        invariant epsilon == Decayed(epsilon0, epsilonDecay, epsilonMin, episode)
      {
        var totalReward, steps, rewards := RunEpisode(maxSteps);
        if epsilon > epsilonMin {
          epsilon := epsilon * epsilonDecay;
        }
        episodeRewards := episodeRewards + [totalReward];
        episodeSteps := episodeSteps + [steps];
      }
    }
  }
}
