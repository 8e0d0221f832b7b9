/** The grid-world environment of the Q-learning demo: a `width` × `height` grid with
    a goal cell and obstacle cells; the agent moves up, right, down or left, stays put
    when the target cell is off the grid or an obstacle, and is rewarded 10 on the
    goal, -1 for a blocked move and -0.1 for any other move. */
module GridWorld {
  import opened Wrappers
  import opened Lists

  datatype Pos = Pos(x: int, y: int)

  /** The fixed layout of one environment. */
  datatype Grid = Grid(width: int, height: int, goal: Pos, obstacles: seq<Pos>)

  /** The outcome of one step: the new state, the reward and whether the goal is reached. */
  datatype StepResult = StepResult(state: Pos, reward: real, done: bool)

  /** The four actions: 0 up, 1 right, 2 down, 3 left. */
  const Actions: seq<int> := [0, 1, 2, 3]

  /** Obstacles used when none are given. */
  const DefaultObstacles: seq<Pos> := [Pos(2, 2), Pos(2, 3), Pos(2, 4), Pos(3, 4), Pos(4, 4), Pos(5, 4), Pos(6, 4), Pos(7, 4)]

  /** `goal_position if goal_position else (width-1, height-1)`: a given position is
      always a non-empty tuple, so it is always used. */
  function GoalFor(width: int, height: int, goalPosition: Option<Pos>): (r: Pos)
    ensures goalPosition.None? ==> r == Pos(width - 1, height - 1)
    ensures goalPosition.Some? ==> r == goalPosition.value
  {
    match goalPosition
    case Some(p) => p
    case None => Pos(width - 1, height - 1)
  }

  /** `obstacle_positions if obstacle_positions else [...]`, as written: an empty list
      counts as no list. */
  function ObstaclesAsWritten(obstaclePositions: seq<Pos>): (r: seq<Pos>)
    ensures obstaclePositions != [] ==> r == obstaclePositions
    ensures obstaclePositions == [] ==> r == DefaultObstacles
  {
    if obstaclePositions == [] then DefaultObstacles else obstaclePositions
  }

  function NotAt(goal: Pos): Pos -> bool {
    p => p != goal
  }

  /** The default obstacles without the goal cell; a given list is used unchanged. */
  function ObstaclesFor(goal: Pos, obstaclePositions: seq<Pos>): (r: seq<Pos>)
    ensures obstaclePositions != [] ==> r == obstaclePositions
    ensures obstaclePositions == [] ==> goal !in r
    ensures obstaclePositions == [] ==> forall p :: p in r <==> p in DefaultObstacles && p != goal
  {
    if obstaclePositions == [] then
      FilterMembers(DefaultObstacles, NotAt(goal));
      Filter(DefaultObstacles, NotAt(goal))
    else obstaclePositions
  }

  /** The cells of the grid, column by column. */
  function Cells(g: Grid): set<Pos> {
    set x, y | 0 <= x < g.width && 0 <= y < g.height :: Pos(x, y)
  }

  /** `_is_valid_position`: on the grid and not an obstacle. */
  predicate IsValidPosition(g: Grid, p: Pos)
    ensures IsValidPosition(g, p) ==> 0 < g.width && 0 < g.height
    ensures IsValidPosition(g, p) ==> p in Cells(g) && p !in g.obstacles
  {
    0 <= p.x < g.width && 0 <= p.y < g.height && p !in g.obstacles
  }

  /** A cell `reset` may start from. */
  predicate IsFree(g: Grid, p: Pos) {
    IsValidPosition(g, p) && p != g.goal
  }

  /** The target cell of an action; `None` for an unknown action. */
  function Move(p: Pos, action: int): (r: Option<Pos>)
    ensures r.Some? <==> action in Actions
  {
    if action == 0 then Some(Pos(p.x, p.y - 1))
    else if action == 1 then Some(Pos(p.x + 1, p.y))
    else if action == 2 then Some(Pos(p.x, p.y + 1))
    else if action == 3 then Some(Pos(p.x - 1, p.y))
    else None
  }

  /** `step` from `pos`. An unknown action is a `ValueError`. Otherwise the agent moves
      only onto a valid cell, the episode ends exactly on the goal with reward 10, and
      a blocked move costs 1 and an ordinary move 0.1. */
  function StepFrom(g: Grid, pos: Pos, action: int): (r: Result<StepResult>)
    ensures r.Err? <==> action !in Actions
    ensures r.Ok? ==> r.value.state == (if IsValidPosition(g, Move(pos, action).value) then Move(pos, action).value else pos)
    ensures r.Ok? ==> (r.value.done <==> r.value.state == g.goal)
    ensures r.Ok? && r.value.done ==> r.value.reward == 10.0
    ensures r.Ok? && !r.value.done ==> r.value.reward == (if IsValidPosition(g, Move(pos, action).value) then -0.1 else -1.0)
  {
    match Move(pos, action)
    case None => Err("Invalid action")
    case Some(target) =>
      var next := if IsValidPosition(g, target) then target else pos;
      if next == g.goal then Ok(StepResult(next, 10.0, true))
      else if !IsValidPosition(g, target) then Ok(StepResult(next, -1.0, false))
      else Ok(StepResult(next, -0.1, false))
  }

  /** The agent never leaves the grid and never stands on an obstacle. */
  lemma StepKeepsValid(g: Grid, pos: Pos, action: int)
    requires IsValidPosition(g, pos)
    ensures StepFrom(g, pos, action).Ok? ==> IsValidPosition(g, StepFrom(g, pos, action).value.state)
  {
  }

  /** A goal that is also an obstacle is never reached: from any valid cell no step
      ends the episode. */
  lemma {:induction false} BlockedGoalNeverReached(g: Grid, pos: Pos, action: int)
    requires g.goal in g.obstacles && IsValidPosition(g, pos)
    ensures StepFrom(g, pos, action).Ok? ==> !StepFrom(g, pos, action).value.done
  {
    StepKeepsValid(g, pos, action);
  }

  /** With the defaults of the 5 × 5 world (`create_simple_grid_world`), the goal (4, 4)
      is one of the default obstacles. */
  lemma SimpleWorldGoalBlocked()
    ensures GoalFor(5, 5, None) == Pos(4, 4)
    ensures GoalFor(5, 5, None) in ObstaclesAsWritten([])
  {
    assert DefaultObstacles[4] == Pos(4, 4);
  }

  /** With the goal kept off the default obstacles, a goal on the grid with its left
      neighbour free is reached by moving right. */
  lemma DefaultGoalReachable(width: int, height: int, goalPosition: Option<Pos>)
    requires var goal := GoalFor(width, height, goalPosition);
      1 <= goal.x < width && 0 <= goal.y < height && Pos(goal.x - 1, goal.y) !in DefaultObstacles
    ensures var g := Grid(width, height, GoalFor(width, height, goalPosition), ObstaclesFor(GoalFor(width, height, goalPosition), []));
      StepFrom(g, Pos(g.goal.x - 1, g.goal.y), 1) == Ok(StepResult(g.goal, 10.0, true))
  {
    var goal := GoalFor(width, height, goalPosition);
    var g := Grid(width, height, goal, ObstaclesFor(goal, []));
    assert Move(Pos(goal.x - 1, goal.y), 1) == Some(goal);
    assert IsValidPosition(g, goal);
  }

  /** Some cell is free, so `reset`'s drawing loop can stop. */
  predicate HasFreeCell(g: Grid) {
    exists x, y :: 0 <= x < g.width && 0 <= y < g.height && IsFree(g, Pos(x, y))
  }

  /** The environment: the layout is fixed at construction, the agent's position
      changes. */
  class GridWorldEnv {
    const grid: Grid
    var agentPosition: Pos

    /** The agent is on the grid and off the obstacles. */
    predicate Valid()
      reads this
    {
      IsValidPosition(grid, agentPosition)
    }

    /** `__init__` followed by `reset`. */
    constructor(width: int, height: int, goalPosition: Option<Pos>, obstaclePositions: seq<Pos>)
      requires HasFreeCell(Grid(width, height, GoalFor(width, height, goalPosition), ObstaclesFor(GoalFor(width, height, goalPosition), obstaclePositions)))
      ensures grid == Grid(width, height, GoalFor(width, height, goalPosition), ObstaclesFor(GoalFor(width, height, goalPosition), obstaclePositions))
      ensures IsFree(grid, agentPosition) && Valid()
    {
      var goal := GoalFor(width, height, goalPosition);
      grid := Grid(width, height, goal, ObstaclesFor(goal, obstaclePositions));
      new;
      var x, y :| 0 <= x < width && 0 <= y < height && IsFree(grid, Pos(x, y));
      agentPosition := Pos(x, y);
    }

    /** `reset`: the agent starts on a free cell, neither the goal nor an obstacle; the
        random draws are a nondeterministic choice. */
    method Reset() returns (state: Pos)
      requires HasFreeCell(grid)
      modifies this
      ensures IsFree(grid, agentPosition) && state == agentPosition && Valid()
    {
      var x, y :| 0 <= x < grid.width && 0 <= y < grid.height && IsFree(grid, Pos(x, y));
      agentPosition := Pos(x, y);
      state := agentPosition;
    }

    /** `step`: an unknown action raises and changes nothing; otherwise the agent takes
        the outcome's state. */
    method Step(action: int) returns (r: Result<StepResult>)
      modifies this
      ensures r == StepFrom(grid, old(agentPosition), action)
      ensures r.Ok? ==> agentPosition == r.value.state
      ensures r.Err? ==> agentPosition == old(agentPosition)
      ensures old(Valid()) ==> Valid()
    {
      var x, y := agentPosition.x, agentPosition.y;
      var newPosition: Pos;
      if action == 0 {
        newPosition := Pos(x, y - 1);
      } else if action == 1 {
        newPosition := Pos(x + 1, y);
      } else if action == 2 {
        newPosition := Pos(x, y + 1);
      } else if action == 3 {
        newPosition := Pos(x - 1, y);
      } else {
        return Err("Invalid action");
      }
      if IsValidPosition(grid, newPosition) {
        agentPosition := newPosition;
      }
      var reward: real;
      var done: bool;
      if agentPosition == grid.goal {
        reward, done := 10.0, true;
      } else if !IsValidPosition(grid, newPosition) {
        reward, done := -1.0, false;
      } else {
        reward, done := -0.1, false;
      }
      r := Ok(StepResult(agentPosition, reward, done));
    }

    /** `get_state_space_size`: one state per cell. */
    function StateSpaceSize(): (r: int)
      ensures grid.width >= 0 && grid.height >= 0 ==> r >= 0
      ensures r == grid.width * grid.height
    {
      grid.width * grid.height
    }
  }
}
