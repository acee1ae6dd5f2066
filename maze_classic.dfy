/**
 * The classic five-level maze (maze.js): a square grid carved by the
 * depth-first walk, the exit always in the far corner, and a player that
 * moves through open walls until the fifth maze is solved. Every
 * `Math.random()` the walk makes is a caller-supplied draw.
 */
module MazeClassic {
  import opened Chance
  import opened MazeGrid
  import opened MazeWalk

  /** The sizes in the LEVELS table (colours are drawing only). */
  const Sizes: seq<nat> := [10, 12, 14, 16, 18]

  /**
   * `removeWalls(a, b)` as written: on a.x - b.x, then on a.y - b.y, one
   * chain of tests, the first that matches clearing one wall in each cell.
   */
  function RemoveWalls(g: Grid, a: Pos, b: Pos): (r: Grid)
    requires Holds(g, a) && Holds(g, b)
    ensures |r| == |g| && forall y :: 0 <= y < |g| ==> |r[y]| == |g[y]|
  {
    var dx := a.x - b.x;
    var dy := a.y - b.y;
    if dx == 1 then Clear(Clear(g, a, Left), b, Right)
    else if dx == -1 then Clear(Clear(g, a, Right), b, Left)
    else if dy == 1 then Clear(Clear(g, a, Top), b, Bottom)
    else if dy == -1 then Clear(Clear(g, a, Bottom), b, Top)
    else g
  }

  /** On neighbouring cells `removeWalls` opens exactly the wall they share. */
  lemma RemoveWallsOpens(g: Grid, a: Pos, b: Pos)
    requires Holds(g, a) && Holds(g, b) && Adjacent(a, b)
    ensures RemoveWalls(g, a, b) == Opened(g, a, b)
  {
  }

  /** The neighbours `generateMaze` tests, in its order: top, right, bottom, left. */
  function Neighbours(cols: int, rows: int, p: Pos): (r: seq<Pos>)
    requires InGrid(p, cols, rows)
    ensures forall q :: q in r <==> InGrid(q, cols, rows) && Adjacent(p, q)
    ensures forall i :: 0 <= i < |r| ==> InGrid(r[i], cols, rows)
  {
    var top, right := Pos(p.x, p.y - 1), Pos(p.x + 1, p.y);
    var bottom, left := Pos(p.x, p.y + 1), Pos(p.x - 1, p.y);
    (if p.y > 0 then [top] else []) +
    (if p.x < cols - 1 then [right] else []) +
    (if p.y < rows - 1 then [bottom] else []) +
    (if p.x > 0 then [left] else [])
  }

  /**
   * The `neighbors` list of one step of `generateMaze`: exactly the
   * unvisited cells of the grid next to `p`.
   */
  function Candidates(g: Grid, cols: int, rows: int, p: Pos): (r: seq<Pos>)
    requires Shaped(g, cols, rows) && InGrid(p, cols, rows)
    ensures forall q :: q in r <==> InGrid(q, cols, rows) && Adjacent(p, q) && !At(g, q).visited
    ensures r == [] ==> Boxed(g, cols, rows, p)
  {
    Unvisited(g, cols, rows, Neighbours(cols, rows, p))
  }

  /** Carving with `removeWalls` into a candidate keeps the walk going. */
  lemma CarveStep(g: Grid, cols: nat, rows: nat, seen: set<Pos>, stack: seq<Pos>, current: Pos, next: Pos,
                  carves: seq<(Pos, Pos)>)
    requires Walk(g, cols, rows, seen, stack, current) && Record(g, cols, rows, seen, carves)
    requires next in Candidates(g, cols, rows, current)
    ensures next !in seen
    ensures Holds(g, current) && Holds(g, next) && Holds(RemoveWalls(g, current, next), next)
    ensures Walk(Mark(RemoveWalls(g, current, next), next), cols, rows, seen + {next}, stack + [current], next)
    ensures Record(Mark(RemoveWalls(g, current, next), next), cols, rows, seen + {next}, carves + [(current, next)])
  {
    RemoveWallsOpens(g, current, next);
    CarveInto(g, cols, rows, seen, stack, current, next);
    RecordCarve(g, cols, rows, seen, carves, current, next);
  }

  /**
   * `generateMaze(cols, rows)`: the depth-first walk over a fresh grid
   * until all cols * rows cells are visited. `draws[k]` chooses the
   * neighbour of the k-th carving step; there are cols * rows - 1 of them.
   * The loop always ends, and the result is a maze with intact border,
   * agreeing wall copies, every cell visited and reachable from the
   * corner. Its walls are those of the fresh grid with exactly the
   * `carves` taken down: cols * rows - 1 passages between neighbours, each
   * entering a cell other than the corner that no earlier one entered, so
   * the passages form a spanning tree.
   */
  method GenerateMaze(cols: nat, rows: nat, draws: seq<real>) returns (grid: Grid, ghost carves: seq<(Pos, Pos)>)
    requires cols >= 1 && rows >= 1 && |draws| + 1 >= cols * rows && AllDraws(draws)
    ensures WellFormed(grid, cols, rows)
    ensures AllVisited(grid, cols, rows)
    ensures AllConnected(grid, cols, rows)
    ensures Passages(carves, cols, rows) && |carves| == cols * rows - 1
    ensures forall i :: 0 <= i < |carves| ==> carves[i].1 != Origin
    ensures forall i, j :: 0 <= i < j < |carves| ==> carves[i].1 != carves[j].1
    ensures CarvedAlong(grid, cols, rows, carves)
  {
    grid := CreateGrid(cols, rows);
    var stack: seq<Pos> := [];
    var current := Origin;
    grid := Mark(grid, current);
    var visited := 1;
    var total := cols * rows;
    ghost var seen: set<Pos> := {Origin};
    carves := [];
    WalkStarts(cols, rows);
    RecordStarts(cols, rows);
    while visited < total
      invariant Walk(grid, cols, rows, seen, stack, current)
      invariant 1 <= visited <= total && |seen| == visited
      invariant Record(grid, cols, rows, seen, carves) && |carves| == visited - 1
      decreases total - visited, |stack|
    {
      var carved;
      grid, stack, current, carved, seen, carves := WalkStep(grid, cols, rows, stack, current, draws[visited - 1], seen, carves);
      if carved {
        visited := visited + 1;
      }
    }
    Filled(seen, cols, rows);
  }

  /**
   * One turn of the walk's loop while cells remain unvisited. With
   * unvisited neighbours, carve into the one `u` picks: take the wall down,
   * mark the cell, push the current cell and move on. With none, pop the
   * stack into the current cell, the grid untouched. The third case, an
   * empty stack with nothing to carve, cannot arise. A carving step adds
   * its passage to the record `carves`.
   */
  method WalkStep(grid: Grid, cols: nat, rows: nat, stack: seq<Pos>, current: Pos, u: real,
                  ghost seen: set<Pos>, ghost carves: seq<(Pos, Pos)>)
    returns (grid': Grid, stack': seq<Pos>, current': Pos, carved: bool,
             ghost seen': set<Pos>, ghost carves': seq<(Pos, Pos)>)
    requires Walk(grid, cols, rows, seen, stack, current) && IsDraw(u) && |seen| < cols * rows
    requires Record(grid, cols, rows, seen, carves)
    ensures Walk(grid', cols, rows, seen', stack', current')
    ensures Record(grid', cols, rows, seen', carves')
    ensures carves' == if carved then carves + [(current, current')] else carves
    ensures var c := Candidates(grid, cols, rows, current); carved <==> c != []
    ensures carved ==>
      var c := Candidates(grid, cols, rows, current);
      current' == c[Pick(u, |c|)] && current' !in seen && seen' == seen + {current'} &&
      stack' == stack + [current] && grid' == Mark(RemoveWalls(grid, current, current'), current')
    ensures !carved ==>
      stack != [] && current' == stack[|stack| - 1] && stack' == stack[..|stack| - 1] &&
      grid' == grid && seen' == seen
    ensures carved ==> |seen'| == |seen| + 1
    ensures !carved ==> |stack'| < |stack|
  {
    var neighbors := Candidates(grid, cols, rows, current);
    if |neighbors| > 0 {
      var next := neighbors[Pick(u, |neighbors|)];
      CarveStep(grid, cols, rows, seen, stack, current, next, carves);
      stack' := stack + [current];
      grid' := Mark(RemoveWalls(grid, current, next), next);
      current' := next;
      seen' := seen + {next};
      carves' := carves + [(current, next)];
      carved := true;
    } else if |stack| > 0 {
      BackStep(grid, cols, rows, seen, stack, current);
      current' := stack[|stack| - 1];
      stack' := stack[..|stack| - 1];
      grid', seen', carves', carved := grid, seen, carves, false;
    } else {
      Stuck(grid, cols, rows, seen, current);
      assert false;
    }
  }

  /** Enough draws to carve a `size` x `size` maze. */
  predicate Fits(draws: seq<real>, size: nat) {
    |draws| + 1 >= size * size && AllDraws(draws)
  }

  /** The size of the maze on the board: after the win the last maze stays. */
  function BoardSize(level: int): nat {
    if 0 <= level < |Sizes| then Sizes[level] else Sizes[|Sizes| - 1]
  }

  /** The far corner, where `checkWin` looks for the player. */
  function Corner(size: nat): Pos {
    Pos(size - 1, size - 1)
  }

  /** The game's globals: `level`, `maze`, `player` and `win`. */
  class Game {
    var level: int
    var maze: Grid
    var player: Pos
    var win: bool

    /**
     * The level index never passes 5 and reaches it exactly when the game
     * is won; the maze is well formed with every cell reachable from the
     * corner, and the player is on it.
     */
    ghost predicate Valid()
      reads this
    {
      0 <= level <= |Sizes| && (win <==> level == |Sizes|) &&
      WellFormed(maze, BoardSize(level), BoardSize(level)) &&
      AllConnected(maze, BoardSize(level), BoardSize(level)) &&
      InGrid(player, BoardSize(level), BoardSize(level))
    }

    /** The page load: `startLevel()` at level 0. */
    constructor(draws: seq<real>)
      requires Fits(draws, Sizes[0])
      ensures Valid() && level == 0 && !win && player == Origin
    {
      level := 0;
      win := false;
      new;
      StartLevel(draws);
    }

    /** `startLevel()`: a fresh maze of this level's size and the player in the corner. */
    method StartLevel(draws: seq<real>)
      requires 0 <= level < |Sizes| && !win && Fits(draws, Sizes[level])
      modifies this
      ensures Valid() && level == old(level) && win == old(win) && player == Origin
    {
      ghost var carves;
      maze, carves := GenerateMaze(Sizes[level], Sizes[level], draws);
      player := Origin;
    }

    /**
     * A key press, `move(dx, dy)`: step through open walls and, on
     * reaching the far corner, go up a level with a new maze from `draws`,
     * or, after the fifth, win. Once won, the key listener is gone and
     * nothing changes.
     */
    method Move(dx: int, dy: int, draws: seq<real>)
      requires Valid()
      requires level + 1 < |Sizes| ==> Fits(draws, Sizes[level + 1])
      modifies this
      ensures Valid()
      ensures var p := Step(old(maze), old(player), dx, dy);
        if old(win) then
          level == old(level) && win && maze == old(maze) && player == old(player)
        else if p != Corner(BoardSize(old(level))) then
          level == old(level) && !win && maze == old(maze) && player == p
        else if old(level) + 1 == |Sizes| then
          level == |Sizes| && win && maze == old(maze) && player == p
        else
          level == old(level) + 1 && !win && player == Origin
    {
      if win {
        return;
      }
      StepInGrid(maze, BoardSize(level), BoardSize(level), player, dx, dy);
      player := Step(maze, player, dx, dy);
      if player == Corner(BoardSize(level)) {
        level := level + 1;
        if level >= |Sizes| {
          win := true;
        } else {
          StartLevel(draws);
        }
      }
    }
  }

  /** Every maze the game shows can be solved: from wherever the player stands, the far corner can be reached. */
  lemma CornerInReach(game: Game)
    requires game.Valid()
    ensures Connected(game.maze, BoardSize(game.level), BoardSize(game.level), game.player, Corner(BoardSize(game.level)))
  {
    var size := BoardSize(game.level);
    Reachable(game.maze, size, size, game.player, Corner(size));
  }
}
