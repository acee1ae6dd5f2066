/**
 * The five-level maze with fog (games/maze/maze.js): a square grid carved
 * by a depth-first walk with an explicit stack, with extra passages
 * knocked through at random, an exit that is fixed in the far corner
 * except on the last level, and a player that moves through open walls.
 * Every `Math.random()` the game makes is a caller-supplied draw.
 */
module MazeLevels {
  import opened Chance
  import opened MazeGrid
  import opened MazeWalk

  datatype Level = Level(size: nat, fog: bool)

  /** The LEVELS table (colours are drawing only). */
  const Levels: seq<Level> := [
    Level(20, false), Level(25, false), Level(30, false), Level(35, true), Level(40, true)
  ]

  /** `addLoops(maze, 0.3)`. */
  const LoopChance := 0.3

  /**
   * `removeWalls(a, b)` as written: two independent tests on b.x - a.x
   * and b.y - a.y, each clearing one wall in each cell.
   */
  function RemoveWalls(g: Grid, a: Pos, b: Pos): (r: Grid)
    requires Holds(g, a) && Holds(g, b)
    ensures |r| == |g| && forall y :: 0 <= y < |g| ==> |r[y]| == |g[y]|
  {
    var dx := b.x - a.x;
    var g1 :=
      if dx == 1 then Clear(Clear(g, a, Right), b, Left)
      else if dx == -1 then Clear(Clear(g, a, Left), b, Right)
      else g;
    var dy := b.y - a.y;
    if dy == 1 then Clear(Clear(g1, a, Bottom), b, Top)
    else if dy == -1 then Clear(Clear(g1, a, Top), b, Bottom)
    else g1
  }

  /** On neighbouring cells `removeWalls` opens exactly the wall they share. */
  lemma RemoveWallsOpens(g: Grid, a: Pos, b: Pos)
    requires Holds(g, a) && Holds(g, b) && Adjacent(a, b)
    ensures RemoveWalls(g, a, b) == Opened(g, a, b)
  {
  }

  /**
   * The unvisited neighbours `generateMaze` collects: the same four tests
   * in the same order as `addLoops` (left, right, up, down), each also
   * requiring the neighbour to be unvisited. They are exactly the
   * unvisited cells next to `p`.
   */
  function Candidates(g: Grid, size: int, p: Pos): (r: seq<Pos>)
    requires Shaped(g, size, size) && InGrid(p, size, size)
    ensures forall q :: q in r <==> InGrid(q, size, size) && Adjacent(p, q) && !At(g, q).visited
    ensures r == [] ==> Boxed(g, size, size, p)
  {
    Unvisited(g, size, size, LoopNeighbours(size, p))
  }

  /** Carving with `removeWalls` into a candidate keeps the walk going. */
  lemma CarveStep(g: Grid, size: nat, seen: set<Pos>, stack: seq<Pos>, current: Pos, next: Pos, carves: seq<(Pos, Pos)>)
    requires Walk(g, size, size, seen, stack, current) && Record(g, size, size, seen, carves)
    requires next in Candidates(g, size, current)
    ensures next !in seen
    ensures Holds(g, current) && Holds(g, next) && Holds(RemoveWalls(g, current, next), next)
    ensures Walk(Mark(RemoveWalls(g, current, next), next), size, size, seen + {next}, stack + [current], next)
    ensures Record(Mark(RemoveWalls(g, current, next), next), size, size, seen + {next}, carves + [(current, next)])
  {
    RemoveWallsOpens(g, current, next);
    CarveInto(g, size, size, seen, stack, current, next);
    RecordCarve(g, size, size, seen, carves, current, next);
  }

  /**
   * `generateMaze(size)`: the depth-first walk. Each step either carves
   * into a random unvisited neighbour of the current cell (pushing the
   * current cell) or backs up by popping the stack, until all
   * size * size cells are visited. `draws[k]` chooses the neighbour of the
   * k-th carving step; there are exactly size * size - 1 of them.
   *
   * The loop always ends: a cell off the stack with an unvisited neighbour
   * cannot exist, so with an empty stack and no neighbour left every cell
   * has been reached. The result is a maze with intact border, agreeing
   * wall copies, every cell visited and reachable from the corner. Its
   * walls are those of the fresh grid with exactly the `carves` taken
   * down: size * size - 1 passages between neighbours, each entering a
   * cell other than the corner that no earlier one entered, so the
   * passages form a spanning tree.
   */
  method GenerateMaze(size: nat, draws: seq<real>) returns (grid: Grid, ghost carves: seq<(Pos, Pos)>)
    requires size >= 1 && |draws| + 1 >= size * size && AllDraws(draws)
    ensures WellFormed(grid, size, size)
    ensures AllVisited(grid, size, size)
    ensures AllConnected(grid, size, size)
    ensures Passages(carves, size, size) && |carves| == size * size - 1
    ensures forall i :: 0 <= i < |carves| ==> carves[i].1 != Origin
    ensures forall i, j :: 0 <= i < j < |carves| ==> carves[i].1 != carves[j].1
    ensures CarvedAlong(grid, size, size, carves)
  {
    grid := CreateGrid(size, size);
    var stack: seq<Pos> := [];
    var current := Origin;
    grid := Mark(grid, current);
    var visited := 1;
    var total := size * size;
    ghost var seen: set<Pos> := {Origin};
    carves := [];
    WalkStarts(size, size);
    RecordStarts(size, size);
    while visited < total
      invariant Walk(grid, size, size, seen, stack, current)
      invariant 1 <= visited <= total && |seen| == visited
      invariant Record(grid, size, size, seen, carves) && |carves| == visited - 1
      decreases total - visited, |stack|
    {
      var carved;
      grid, stack, current, carved, seen, carves := WalkStep(grid, size, stack, current, draws[visited - 1], seen, carves);
      if carved {
        visited := visited + 1;
      }
    }
    Filled(seen, size, size);
  }

  /**
   * One turn of the walk's loop while cells remain unvisited. With
   * unvisited neighbours, carve into the one `u` picks: take the wall down,
   * mark the cell, push the current cell and move on. With none, back up:
   * pop the stack into the current cell, the grid untouched. The third
   * case, an empty stack with nothing to carve, cannot arise. A carving
   * step adds its passage to the record `carves`.
   */
  method WalkStep(grid: Grid, size: nat, stack: seq<Pos>, current: Pos, u: real,
                  ghost seen: set<Pos>, ghost carves: seq<(Pos, Pos)>)
    returns (grid': Grid, stack': seq<Pos>, current': Pos, carved: bool,
             ghost seen': set<Pos>, ghost carves': seq<(Pos, Pos)>)
    requires Walk(grid, size, size, seen, stack, current) && IsDraw(u) && |seen| < size * size
    requires Record(grid, size, size, seen, carves)
    ensures Walk(grid', size, size, seen', stack', current')
    ensures Record(grid', size, size, seen', carves')
    ensures carves' == if carved then carves + [(current, current')] else carves
    ensures var c := Candidates(grid, size, current); carved <==> c != []
    ensures carved ==>
      var c := Candidates(grid, size, current);
      current' == c[Pick(u, |c|)] && current' !in seen && seen' == seen + {current'} &&
      stack' == stack + [current] && grid' == Mark(RemoveWalls(grid, current, current'), current')
    ensures !carved ==>
      stack != [] && current' == stack[|stack| - 1] && stack' == stack[..|stack| - 1] &&
      grid' == grid && seen' == seen
    ensures carved ==> |seen'| == |seen| + 1
    ensures !carved ==> |stack'| < |stack|
  {
    var neighbors := Candidates(grid, size, current);
    if |neighbors| > 0 {
      var next := neighbors[Pick(u, |neighbors|)];
      CarveStep(grid, size, seen, stack, current, next, carves);
      stack' := stack + [current];
      grid' := Mark(RemoveWalls(grid, current, next), next);
      current' := next;
      seen' := seen + {next};
      carves' := carves + [(current, next)];
      carved := true;
    } else if |stack| > 0 {
      BackStep(grid, size, size, seen, stack, current);
      current' := stack[|stack| - 1];
      stack' := stack[..|stack| - 1];
      grid', seen', carves', carved := grid, seen, carves, false;
    } else {
      Stuck(grid, size, size, seen, current);
      assert false;
    }
  }

  /** The in-grid neighbours `addLoops` chooses from, in its order: left, right, up, down. */
  function LoopNeighbours(size: int, p: Pos): (r: seq<Pos>)
    requires InGrid(p, size, size)
    ensures forall q :: q in r <==> InGrid(q, size, size) && Adjacent(p, q)
    ensures forall i :: 0 <= i < |r| ==> InGrid(r[i], size, size)
  {
    var left, right := Pos(p.x - 1, p.y), Pos(p.x + 1, p.y);
    var up, down := Pos(p.x, p.y - 1), Pos(p.x, p.y + 1);
    (if p.x > 0 then [left] else []) +
    (if p.x < size - 1 then [right] else []) +
    (if p.y > 0 then [up] else []) +
    (if p.y < size - 1 then [down] else [])
  }

  /** One draw per cell, row by row. */
  predicate DrawnPerCell(us: seq<seq<real>>, size: int) {
    |us| == size && forall y :: 0 <= y < size ==> |us[y]| == size && AllDraws(us[y])
  }

  /**
   * The passage `addLoops` knocks through at cell `p`: to the neighbour
   * its pick chooses, when its coin is below `probability` and it has a
   * neighbour at all; otherwise none.
   */
  function Knock(size: nat, probability: real, coins: seq<seq<real>>, picks: seq<seq<real>>, p: Pos): (ps: seq<(Pos, Pos)>)
    requires DrawnPerCell(coins, size) && DrawnPerCell(picks, size) && InGrid(p, size, size)
    ensures Passages(ps, size, size) && |ps| <= 1
    ensures forall i :: 0 <= i < |ps| ==> ps[i].0 == p
  {
    var ns := LoopNeighbours(size, p);
    if coins[p.y][p.x] < probability && ns != [] then [(p, ns[Pick(picks[p.y][p.x], |ns|)])] else []
  }

  /** The wall on side `s` of `p` is one that `addLoops` knocks through, from either side. */
  predicate Knocked(size: nat, probability: real, coins: seq<seq<real>>, picks: seq<seq<real>>, p: Pos, s: Side)
    requires DrawnPerCell(coins, size) && DrawnPerCell(picks, size)
  {
    var q := Toward(p, s);
    (InGrid(p, size, size) && Knock(size, probability, coins, picks, p) == [(p, q)]) ||
    (InGrid(q, size, size) && Knock(size, probability, coins, picks, q) == [(q, p)])
  }

  /** `ks` holds exactly the knocks of the cells before (x, y), row by row. */
  ghost predicate KnockedBefore(size: nat, probability: real, coins: seq<seq<real>>, picks: seq<seq<real>>,
                                y: int, x: int, ks: seq<(Pos, Pos)>)
    requires DrawnPerCell(coins, size) && DrawnPerCell(picks, size)
  {
    Passages(ks, size, size) &&
    forall p, q :: (p, q) in ks <==>
      InGrid(p, size, size) && (p.y < y || (p.y == y && p.x < x)) &&
      Knock(size, probability, coins, picks, p) == [(p, q)]
  }

  /** The end of a row is the start of the next. */
  lemma NextRow(size: nat, probability: real, coins: seq<seq<real>>, picks: seq<seq<real>>, y: int, ks: seq<(Pos, Pos)>)
    requires DrawnPerCell(coins, size) && DrawnPerCell(picks, size)
    requires KnockedBefore(size, probability, coins, picks, y, size, ks)
    ensures KnockedBefore(size, probability, coins, picks, y + 1, 0, ks)
  {
  }

  /** The knock of cell (x, y) follows those of the cells before it. */
  lemma NextCell(size: nat, probability: real, coins: seq<seq<real>>, picks: seq<seq<real>>, y: int, x: int, ks: seq<(Pos, Pos)>)
    requires DrawnPerCell(coins, size) && DrawnPerCell(picks, size) && 0 <= y < size && 0 <= x < size
    requires KnockedBefore(size, probability, coins, picks, y, x, ks)
    ensures KnockedBefore(size, probability, coins, picks, y, x + 1, ks + Knock(size, probability, coins, picks, Pos(x, y)))
  {
    var c := Pos(x, y);
    var last := Knock(size, probability, coins, picks, c);
    assert Passages(ks + last, size, size) by {
      forall i | 0 <= i < |ks + last|
        ensures (ks + last)[i] == if i < |ks| then ks[i] else last[i - |ks|]
      {
      }
    }
    forall p, q
      ensures (p, q) in ks + last <==>
        InGrid(p, size, size) && (p.y < y || (p.y == y && p.x < x + 1)) &&
        Knock(size, probability, coins, picks, p) == [(p, q)]
    {
      assert (p, q) in ks + last <==> (p, q) in ks || (p, q) in last;
      assert (p, q) in last <==> p == c && last == [(p, q)];
    }
  }

  /** A list holding every knock of the grid crosses exactly the walls `Knocked` names. */
  lemma KnockedAll(size: nat, probability: real, coins: seq<seq<real>>, picks: seq<seq<real>>, ks: seq<(Pos, Pos)>)
    requires DrawnPerCell(coins, size) && DrawnPerCell(picks, size)
    requires KnockedBefore(size, probability, coins, picks, size, 0, ks)
    ensures forall p, s :: InGrid(p, size, size) ==>
      (Crossed(ks, p, s) <==> Knocked(size, probability, coins, picks, p, s))
  {
  }

  /** One cell's knock keeps the grid well formed and extends the list of knocks. */
  lemma KnockStep(grid: Grid, r: Grid, k: seq<(Pos, Pos)>, done: seq<(Pos, Pos)>)
    requires WellFormed(r, |grid|, |grid|) && SameVisits(grid, r, |grid|, |grid|)
    requires OpenedAlong(grid, r, |grid|, |grid|, done) && Passages(k, |grid|, |grid|) && |k| <= 1
    ensures var r' := if k == [] then r else Opened(r, k[0].0, k[0].1);
      WellFormed(r', |grid|, |grid|) && SameVisits(grid, r', |grid|, |grid|) &&
      OpenedAlong(grid, r', |grid|, |grid|, done + k)
  {
    var size := |grid|;
    if k == [] {
      assert done + k == done;
    } else {
      var a, b := k[0].0, k[0].1;
      assert k == [(a, b)];
      OpenedRules(r, size, size, a, b);
      SameVisitsChain(grid, r, Opened(r, a, b), size, size);
      OpenedAlongStep(grid, r, size, size, done, a, b);
    }
  }

  /**
   * The body of `addLoops` for one cell: when its coin is below
   * `probability`, knock through the wall to the neighbour its pick
   * chooses, if the cell has any neighbour; otherwise leave the grid as
   * it is. With `removeWalls` as written this opens exactly that wall.
   */
  method KnockThrough(r: Grid, size: nat, p: Pos, probability: real, coin: real, pick: real) returns (r': Grid)
    requires Shaped(r, size, size) && InGrid(p, size, size) && IsDraw(pick)
    ensures var ns := LoopNeighbours(size, p);
      r' == if coin < probability && ns != [] then Opened(r, p, ns[Pick(pick, |ns|)]) else r
  {
    r' := r;
    if coin < probability {
      var neighbors := LoopNeighbours(size, p);
      if |neighbors| > 0 {
        var neighbor := neighbors[Pick(pick, |neighbors|)];
        RemoveWallsOpens(r, p, neighbor);
        r' := RemoveWalls(r, p, neighbor);
      }
    }
  }

  /**
   * `addLoops(grid, probability)`: for each cell, row by row, when its
   * first draw `coins[y][x]` is below `probability`, knock through the
   * wall to the neighbour its second draw `picks[y][x]` chooses. A wall of
   * the result is down exactly when it was down in `grid` or some cell
   * knocked through it; visited flags are untouched, so the maze stays
   * well formed and every cell stays reachable.
   */
  method AddLoops(grid: Grid, probability: real, coins: seq<seq<real>>, picks: seq<seq<real>>)
    returns (r: Grid)
    requires WellFormed(grid, |grid|, |grid|)
    requires DrawnPerCell(coins, |grid|) && DrawnPerCell(picks, |grid|)
    ensures WellFormed(r, |grid|, |grid|)
    ensures SameVisits(grid, r, |grid|, |grid|)
    ensures NoNewWalls(grid, r, |grid|, |grid|)
    ensures forall p, s {:trigger Knocked(|grid|, probability, coins, picks, p, s)} :: InGrid(p, |grid|, |grid|) ==>
      (Wall(At(r, p).walls, s) <==> Wall(At(grid, p).walls, s) && !Knocked(|grid|, probability, coins, picks, p, s))
  {
    var size := |grid|;
    r := grid;
    ghost var done: seq<(Pos, Pos)> := [];
    assert OpenedAlong(grid, r, size, size, done);
    var y := 0;
    while y < size
      invariant 0 <= y <= size
      invariant WellFormed(r, size, size) && SameVisits(grid, r, size, size)
      invariant OpenedAlong(grid, r, size, size, done) && KnockedBefore(size, probability, coins, picks, y, 0, done)
    {
      var x := 0;
      while x < size
        invariant 0 <= x <= size
        invariant WellFormed(r, size, size) && SameVisits(grid, r, size, size)
        invariant OpenedAlong(grid, r, size, size, done) && KnockedBefore(size, probability, coins, picks, y, x, done)
      {
        ghost var before := r;
        ghost var k := Knock(size, probability, coins, picks, Pos(x, y));
        r := KnockThrough(r, size, Pos(x, y), probability, coins[y][x], picks[y][x]);
        KnockStep(grid, before, k, done);
        NextCell(size, probability, coins, picks, y, x, done);
        done := done + k;
        x := x + 1;
      }
      NextRow(size, probability, coins, picks, y, done);
      y := y + 1;
    }
    OpenedAlongLowers(grid, r, size, size, done);
    KnockedAll(size, probability, coins, picks, done);
  }

  /**
   * After `addLoops`, every cell whose coin came up leads to the
   * neighbour its pick chose.
   */
  lemma LoopsOpen(grid: Grid, r: Grid, probability: real, coins: seq<seq<real>>, picks: seq<seq<real>>, p: Pos)
    requires Shaped(grid, |grid|, |grid|) && Shaped(r, |grid|, |grid|)
    requires DrawnPerCell(coins, |grid|) && DrawnPerCell(picks, |grid|)
    requires forall p, s {:trigger Knocked(|grid|, probability, coins, picks, p, s)} :: InGrid(p, |grid|, |grid|) ==>
      (Wall(At(r, p).walls, s) <==> Wall(At(grid, p).walls, s) && !Knocked(|grid|, probability, coins, picks, p, s))
    requires InGrid(p, |grid|, |grid|) && coins[p.y][p.x] < probability && LoopNeighbours(|grid|, p) != []
    ensures Linked(r, |grid|, |grid|, p, LoopNeighbours(|grid|, p)[Pick(picks[p.y][p.x], |LoopNeighbours(|grid|, p)|)])
  {
    var ns := LoopNeighbours(|grid|, p);
    var q := ns[Pick(picks[p.y][p.x], |ns|)];
    assert Knocked(|grid|, probability, coins, picks, p, Facing(p, q));
  }

  /**
   * The exit `startLevel` places: the far corner, except on level index 4,
   * where each coordinate is floor(0.6 * size) plus a random offset below
   * size - floor(0.6 * size).
   */
  function ExitFor(level: int, size: nat, u: real, v: real): Pos
    requires size >= 1 && IsDraw(u) && IsDraw(v)
  {
    if level == 4 then
      var least := Floor(size as real * 0.6);
      Pos(least + Pick(u, size - least), least + Pick(v, size - least))
    else
      Pos(size - 1, size - 1)
  }

  lemma ExitRules(level: int, size: nat, u: real, v: real)
    requires size >= 1 && IsDraw(u) && IsDraw(v)
    ensures InGrid(ExitFor(level, size, u, v), size, size)
    ensures level != 4 ==> ExitFor(level, size, u, v) == Pos(size - 1, size - 1)
    ensures level == 4 ==> (
      var least := Floor(size as real * 0.6);
      least <= ExitFor(level, size, u, v).x < size && least <= ExitFor(level, size, u, v).y < size)
  {
  }

  /** On the last level (size 40) the exit lies in the square [24, 40) x [24, 40). */
  lemma LastLevelExit(u: real, v: real)
    requires IsDraw(u) && IsDraw(v)
    ensures 24 <= ExitFor(4, Levels[4].size, u, v).x < 40
    ensures 24 <= ExitFor(4, Levels[4].size, u, v).y < 40
  {
    assert Floor(40.0 * 0.6) == 24;
  }

  /** The fog map `startLevel` sets up: only the starting corner seen. */
  function FirstSight(size: nat): (v: seq<seq<bool>>)
    ensures |v| == size && forall y :: 0 <= y < size ==> |v[y]| == size
  {
    Sight(seq(size, y => seq(size, x => false)), Origin)
  }

  /** `visited[p.y][p.x] = true` (nothing when `p` is off the map). */
  function Sight(v: seq<seq<bool>>, p: Pos): (r: seq<seq<bool>>)
    ensures |r| == |v| && forall y :: 0 <= y < |v| ==> |r[y]| == |v[y]|
  {
    if 0 <= p.y < |v| && 0 <= p.x < |v[p.y]| then v[p.y := v[p.y][p.x := true]] else v
  }

  lemma FirstSightRules(size: nat)
    ensures forall p :: InGrid(p, size, size) ==> (FirstSight(size)[p.y][p.x] <==> p == Origin)
  {
  }

  lemma SightRules(v: seq<seq<bool>>, p: Pos)
    requires 0 <= p.y < |v| && 0 <= p.x < |v[p.y]|
    ensures forall q: Pos :: 0 <= q.y < |v| && 0 <= q.x < |v[q.y]| ==>
      Sight(v, p)[q.y][q.x] == (q == p || v[q.y][q.x])
  {
  }

  /** All the draws one `startLevel` of a `size` x `size` level uses. */
  datatype LevelDraws = LevelDraws(
    carve: seq<real>, coins: seq<seq<real>>, picks: seq<seq<real>>, exitX: real, exitY: real)

  predicate Fits(d: LevelDraws, size: nat) {
    |d.carve| + 1 >= size * size && AllDraws(d.carve) &&
    DrawnPerCell(d.coins, size) && DrawnPerCell(d.picks, size) &&
    IsDraw(d.exitX) && IsDraw(d.exitY)
  }

  /** The size of the maze on the board: after the last level the last maze stays. */
  function BoardSize(level: int): nat {
    if 0 <= level < |Levels| then Levels[level].size else Levels[|Levels| - 1].size
  }

  /** The game's globals: `level`, `maze`, `player`, `visited` and `exit`. */
  class Game {
    var level: int
    var maze: Grid
    var player: Pos
    var visited: seq<seq<bool>>
    var exit: Pos

    /**
     * The level index never passes 5; the maze is well formed with every
     * cell reachable from the corner; player and exit are on the board.
     */
    ghost predicate Valid()
      reads this
    {
      0 <= level <= |Levels| &&
      WellFormed(maze, BoardSize(level), BoardSize(level)) &&
      AllConnected(maze, BoardSize(level), BoardSize(level)) &&
      InGrid(player, BoardSize(level), BoardSize(level)) &&
      InGrid(exit, BoardSize(level), BoardSize(level)) &&
      |visited| == BoardSize(level) &&
      (forall y :: 0 <= y < BoardSize(level) ==> |visited[y]| == BoardSize(level))
    }

    /** The page load: `startLevel()` at level 0. */
    constructor(d: LevelDraws)
      requires Fits(d, Levels[0].size)
      ensures Valid() && level == 0 && player == Origin
      ensures visited == FirstSight(Levels[0].size)
      ensures exit == Pos(Levels[0].size - 1, Levels[0].size - 1)
    {
      level := 0;
      new;
      StartLevel(d);
      ExitRules(0, Levels[0].size, d.exitX, d.exitY);
    }

    /**
     * `startLevel()`: a fresh maze of this level's size with extra loops,
     * the fog lifted only at the corner, the player in the corner and the
     * exit placed by ExitFor.
     */
    method StartLevel(d: LevelDraws)
      requires 0 <= level < |Levels| && Fits(d, Levels[level].size)
      modifies this
      ensures Valid() && level == old(level)
      ensures player == Origin && visited == FirstSight(Levels[level].size)
      ensures exit == ExitFor(level, Levels[level].size, d.exitX, d.exitY)
    {
      var size := Levels[level].size;
      var grid, carves := GenerateMaze(size, d.carve);
      var looped := AddLoops(grid, LoopChance, d.coins, d.picks);
      AllConnectedKept(grid, looped, size, size);
      maze := looped;
      visited := FirstSight(size);
      player := Origin;
      exit := ExitFor(level, size, d.exitX, d.exitY);
      ExitRules(level, size, d.exitX, d.exitY);
    }

    /**
     * `move(dx, dy)`: step through open walls, lift the fog where the
     * player now stands and, on reaching the exit, go up a level (a new
     * maze from `d`) or, after the fifth, stop. Once the fifth level is
     * done, `drawMaze` finds no level to draw and the move ends before the
     * exit test, so the level count stays at 5.
     */
    method Move(dx: int, dy: int, d: LevelDraws)
      requires Valid()
      requires level + 1 < |Levels| ==> Fits(d, Levels[level + 1].size)
      modifies this
      ensures Valid()
      ensures var p := Step(old(maze), old(player), dx, dy);
        if old(level) == |Levels| || p != old(exit) then
          level == old(level) && maze == old(maze) && exit == old(exit) &&
          player == p && visited == Sight(old(visited), p)
        else if old(level) + 1 == |Levels| then
          level == |Levels| && maze == old(maze) && exit == old(exit) && player == p
        else
          level == old(level) + 1 && player == Origin &&
          visited == FirstSight(Levels[level].size) &&
          exit == ExitFor(level, Levels[level].size, d.exitX, d.exitY)
    {
      StepInGrid(maze, BoardSize(level), BoardSize(level), player, dx, dy);
      player := Step(maze, player, dx, dy);
      visited := Sight(visited, player);
      if level == |Levels| {
        return;
      }
      if player == exit {
        level := level + 1;
        if level < |Levels| {
          StartLevel(d);
        }
      }
    }
  }

  /** Every maze the game shows can be solved: from wherever the player stands, the exit can be reached. */
  lemma ExitInReach(game: Game)
    requires game.Valid()
    ensures Connected(game.maze, BoardSize(game.level), BoardSize(game.level), game.player, game.exit)
  {
    var size := BoardSize(game.level);
    Reachable(game.maze, size, size, game.player, game.exit);
  }
}
