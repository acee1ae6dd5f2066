/**
 * The grid both maze games share (games/maze/maze.js:41-75 and
 * maze.js:19-26, 65-81): rows of cells, each with its own coordinates,
 * four wall flags and a visited flag. Walls are stored twice, once in
 * each of the two cells they separate, so the predicates here say when
 * the two copies agree (Symmetric) and when the outer border is intact
 * (Bordered). Positions stand for the cell objects the games hold on
 * their stacks; a wall change is a new grid value.
 */
module MazeGrid {
  datatype Side = Top | Right | Bottom | Left
  datatype Walls = Walls(top: bool, right: bool, bottom: bool, left: bool)
  datatype Cell = Cell(x: int, y: int, walls: Walls, visited: bool)
  datatype Pos = Pos(x: int, y: int)
  type Grid = seq<seq<Cell>>

  const Closed := Walls(true, true, true, true)
  const Origin := Pos(0, 0)

  function Opposite(s: Side): Side {
    match s
    case Top => Bottom
    case Right => Left
    case Bottom => Top
    case Left => Right
  }

  /** The position one cell away in direction `s` (y grows downwards). */
  function Toward(p: Pos, s: Side): (q: Pos)
    ensures Adjacent(p, q)
  {
    match s
    case Top => Pos(p.x, p.y - 1)
    case Right => Pos(p.x + 1, p.y)
    case Bottom => Pos(p.x, p.y + 1)
    case Left => Pos(p.x - 1, p.y)
  }

  /** Orthogonal neighbours. */
  predicate Adjacent(p: Pos, q: Pos) {
    (p.y == q.y && (q.x == p.x + 1 || q.x == p.x - 1)) ||
    (p.x == q.x && (q.y == p.y + 1 || q.y == p.y - 1))
  }

  /** The side of `p` that faces its neighbour `q`. */
  function Facing(p: Pos, q: Pos): (s: Side)
    requires Adjacent(p, q)
    ensures Toward(p, s) == q && Toward(q, Opposite(s)) == p
  {
    if q.x == p.x + 1 then Right
    else if q.x == p.x - 1 then Left
    else if q.y == p.y + 1 then Bottom
    else Top
  }

  lemma TowardFacing(p: Pos, s: Side)
    ensures Facing(p, Toward(p, s)) == s
    ensures Adjacent(Toward(p, s), p) && Facing(Toward(p, s), p) == Opposite(s)
  {
  }

  function Wall(w: Walls, s: Side): bool {
    match s
    case Top => w.top
    case Right => w.right
    case Bottom => w.bottom
    case Left => w.left
  }

  /** `w` with the wall on side `s` taken down and the other three as they were. */
  function Cleared(w: Walls, s: Side): (r: Walls)
    ensures forall t :: Wall(r, t) == (Wall(w, t) && t != s)
  {
    match s
    case Top => w.(top := false)
    case Right => w.(right := false)
    case Bottom => w.(bottom := false)
    case Left => w.(left := false)
  }

  // ---------------------------------------------------------------------
  // Cells of a grid

  /** `grid[p.y][p.x]` exists. */
  predicate Holds(g: Grid, p: Pos) {
    0 <= p.y < |g| && 0 <= p.x < |g[p.y]|
  }

  function At(g: Grid, p: Pos): Cell
    requires Holds(g, p)
  {
    g[p.y][p.x]
  }

  predicate InGrid(p: Pos, cols: int, rows: int) {
    0 <= p.x < cols && 0 <= p.y < rows
  }

  /** `rows` rows of `cols` cells each. */
  predicate Shaped(g: Grid, cols: int, rows: int) {
    |g| == rows && forall y :: 0 <= y < rows ==> |g[y]| == cols
  }

  /** The grid with the cell at `p` replaced and every other cell kept. */
  function With(g: Grid, p: Pos, c: Cell): (r: Grid)
    requires Holds(g, p)
    ensures |r| == |g| && forall y :: 0 <= y < |g| ==> |r[y]| == |g[y]|
    ensures forall q :: Holds(g, q) ==> At(r, q) == if q == p then c else At(g, q)
  {
    g[p.y := g[p.y][p.x := c]]
  }

  /** Takes down the wall on side `s` of the cell at `p` (one cell only). */
  function Clear(g: Grid, p: Pos, s: Side): (r: Grid)
    requires Holds(g, p)
    ensures |r| == |g| && forall y :: 0 <= y < |g| ==> |r[y]| == |g[y]|
  {
    With(g, p, At(g, p).(walls := Cleared(At(g, p).walls, s)))
  }

  /** Takes down the wall between `p` and its neighbour on side `s`, in both cells. */
  function OpenSide(g: Grid, p: Pos, s: Side): Grid
    requires Holds(g, p) && Holds(g, Toward(p, s))
  {
    Clear(Clear(g, p, s), Toward(p, s), Opposite(s))
  }

  /** The reference meaning of `removeWalls` on two neighbouring cells. */
  function Opened(g: Grid, a: Pos, b: Pos): Grid
    requires Adjacent(a, b) && Holds(g, a) && Holds(g, b)
  {
    OpenSide(g, a, Facing(a, b))
  }

  /** `cell.visited = true`. */
  function Mark(g: Grid, p: Pos): (r: Grid)
    requires Holds(g, p)
    ensures |r| == |g| && forall y :: 0 <= y < |g| ==> |r[y]| == |g[y]|
  {
    With(g, p, At(g, p).(visited := true))
  }

  // ---------------------------------------------------------------------
  // Grid invariants

  /** Every cell knows its own coordinates. */
  ghost predicate Placed(g: Grid, cols: int, rows: int) {
    Shaped(g, cols, rows) &&
    forall p :: InGrid(p, cols, rows) ==> At(g, p).x == p.x && At(g, p).y == p.y
  }

  /** The two copies of every inner wall agree. */
  ghost predicate Symmetric(g: Grid, cols: int, rows: int) {
    Shaped(g, cols, rows) &&
    forall p, s :: InGrid(p, cols, rows) && InGrid(Toward(p, s), cols, rows) ==>
      Wall(At(g, p).walls, s) == Wall(At(g, Toward(p, s)).walls, Opposite(s))
  }

  /** Every wall that faces out of the grid is standing. */
  ghost predicate Bordered(g: Grid, cols: int, rows: int) {
    Shaped(g, cols, rows) &&
    forall p, s :: InGrid(p, cols, rows) && !InGrid(Toward(p, s), cols, rows) ==>
      Wall(At(g, p).walls, s)
  }

  ghost predicate WellFormed(g: Grid, cols: int, rows: int) {
    Placed(g, cols, rows) && Symmetric(g, cols, rows) && Bordered(g, cols, rows)
  }

  /** `h` has the same visited flags as `g`. */
  ghost predicate SameVisits(g: Grid, h: Grid, cols: int, rows: int) {
    Shaped(g, cols, rows) && Shaped(h, cols, rows) &&
    forall p :: InGrid(p, cols, rows) ==> At(h, p).visited == At(g, p).visited
  }

  /** Every wall standing in `h` was standing in `g`: walls only come down. */
  ghost predicate NoNewWalls(g: Grid, h: Grid, cols: int, rows: int) {
    Shaped(g, cols, rows) && Shaped(h, cols, rows) &&
    forall p, s :: InGrid(p, cols, rows) && Wall(At(h, p).walls, s) ==> Wall(At(g, p).walls, s)
  }

  ghost predicate AllVisited(g: Grid, cols: int, rows: int) {
    Shaped(g, cols, rows) && forall p :: InGrid(p, cols, rows) ==> At(g, p).visited
  }

  // ---------------------------------------------------------------------
  // Building the grid

  /** The grid `createGrid` builds: every wall up, nothing visited. */
  function FreshGrid(cols: nat, rows: nat): Grid {
    seq(rows, y => seq(cols, x => Cell(x, y, Closed, false)))
  }

  lemma FreshGridRules(cols: nat, rows: nat)
    ensures WellFormed(FreshGrid(cols, rows), cols, rows)
    ensures forall p :: InGrid(p, cols, rows) ==>
      At(FreshGrid(cols, rows), p).walls == Closed && !At(FreshGrid(cols, rows), p).visited
  {
    var g := FreshGrid(cols, rows);
    forall p, s | InGrid(p, cols, rows)
      ensures At(g, p) == Cell(p.x, p.y, Closed, false) && Wall(At(g, p).walls, s)
    {
    }
  }

  /** The nested loops of `createGrid`: row y holds the cells (0, y) .. (cols - 1, y). */
  method CreateGrid(cols: nat, rows: nat) returns (grid: Grid)
    ensures grid == FreshGrid(cols, rows)
    ensures WellFormed(grid, cols, rows)
    ensures forall p :: InGrid(p, cols, rows) ==> At(grid, p).walls == Closed && !At(grid, p).visited
  {
    grid := [];
    var y := 0;
    while y < rows
      invariant 0 <= y <= rows
      invariant grid == FreshGrid(cols, y)
    {
      var row: seq<Cell> := [];
      var x := 0;
      while x < cols
        invariant 0 <= x <= cols
        invariant row == seq(x, i => Cell(i, y, Closed, false))
      {
        row := row + [Cell(x, y, Closed, false)];
        x := x + 1;
      }
      grid := grid + [row];
      y := y + 1;
    }
    FreshGridRules(cols, rows);
  }

  // ---------------------------------------------------------------------
  // Taking walls down

  /** The cell at `c` after opening the wall on side `s` of `p`. */
  lemma OpenSideAt(g: Grid, p: Pos, s: Side, c: Pos)
    requires Holds(g, p) && Holds(g, Toward(p, s)) && Holds(g, c)
    ensures Holds(OpenSide(g, p, s), c)
    ensures At(OpenSide(g, p, s), c).x == At(g, c).x && At(OpenSide(g, p, s), c).y == At(g, c).y
    ensures At(OpenSide(g, p, s), c).visited == At(g, c).visited
    ensures forall t :: (Wall(At(OpenSide(g, p, s), c).walls, t) ==
      (Wall(At(g, c).walls, t) && (c, t) != (p, s) && (c, t) != (Toward(p, s), Opposite(s))))
  {
    var q := Toward(p, s);
    var h := Clear(g, p, s);
    assert At(h, c) == if c == p then At(g, p).(walls := Cleared(At(g, p).walls, s)) else At(g, c);
    assert Holds(h, q);
    assert At(OpenSide(g, p, s), c) ==
      if c == q then At(h, q).(walls := Cleared(At(h, q).walls, Opposite(s))) else At(h, c);
  }

  /**
   * Opening the wall between two cells of a well-formed grid takes down
   * exactly the two copies of that wall and keeps the grid well formed:
   * the copies still agree and the border is untouched.
   */
  lemma OpenSideRules(g: Grid, cols: int, rows: int, p: Pos, s: Side)
    requires WellFormed(g, cols, rows) && InGrid(p, cols, rows) && InGrid(Toward(p, s), cols, rows)
    ensures WellFormed(OpenSide(g, p, s), cols, rows)
    ensures SameVisits(g, OpenSide(g, p, s), cols, rows)
    ensures NoNewWalls(g, OpenSide(g, p, s), cols, rows)
    ensures forall c, t :: InGrid(c, cols, rows) ==>
      (Wall(At(OpenSide(g, p, s), c).walls, t) <==>
        Wall(At(g, c).walls, t) && (c, t) != (p, s) && (c, t) != (Toward(p, s), Opposite(s)))
  {
    var h := OpenSide(g, p, s);
    forall c | InGrid(c, cols, rows)
      ensures At(h, c).x == At(g, c).x && At(h, c).y == At(g, c).y
      ensures At(h, c).visited == At(g, c).visited
      ensures forall t :: (Wall(At(h, c).walls, t) ==
        (Wall(At(g, c).walls, t) && (c, t) != (p, s) && (c, t) != (Toward(p, s), Opposite(s))))
    {
      OpenSideAt(g, p, s, c);
    }
    OpenSideSymmetric(g, cols, rows, p, s);
    OpenSideBordered(g, cols, rows, p, s);
  }

  lemma OpenSideSymmetric(g: Grid, cols: int, rows: int, p: Pos, s: Side)
    requires Symmetric(g, cols, rows) && InGrid(p, cols, rows) && InGrid(Toward(p, s), cols, rows)
    ensures Symmetric(OpenSide(g, p, s), cols, rows)
  {
    var h := OpenSide(g, p, s);
    forall c, t | InGrid(c, cols, rows) && InGrid(Toward(c, t), cols, rows)
      ensures Wall(At(h, c).walls, t) == Wall(At(h, Toward(c, t)).walls, Opposite(t))
    {
      OpenSideAt(g, p, s, c);
      OpenSideAt(g, p, s, Toward(c, t));
      PairedSides(p, s, c, t);
    }
  }

  lemma OpenSideBordered(g: Grid, cols: int, rows: int, p: Pos, s: Side)
    requires Bordered(g, cols, rows) && InGrid(p, cols, rows) && InGrid(Toward(p, s), cols, rows)
    ensures Bordered(OpenSide(g, p, s), cols, rows)
  {
    var h := OpenSide(g, p, s);
    forall c, t | InGrid(c, cols, rows) && !InGrid(Toward(c, t), cols, rows)
      ensures Wall(At(h, c).walls, t)
    {
      OpenSideAt(g, p, s, c);
      PairedSides(p, s, c, t);
    }
  }

  /** (c, t) names the wall (p, s) from one side exactly when its other copy names it from the other. */
  lemma PairedSides(p: Pos, s: Side, c: Pos, t: Side)
    ensures ((c, t) == (p, s)) == ((Toward(c, t), Opposite(t)) == (Toward(p, s), Opposite(s)))
    ensures ((c, t) == (Toward(p, s), Opposite(s))) == ((Toward(c, t), Opposite(t)) == (p, s))
  {
  }

  lemma OpenedRules(g: Grid, cols: int, rows: int, a: Pos, b: Pos)
    requires WellFormed(g, cols, rows) && InGrid(a, cols, rows) && InGrid(b, cols, rows) && Adjacent(a, b)
    ensures WellFormed(Opened(g, a, b), cols, rows)
    ensures SameVisits(g, Opened(g, a, b), cols, rows)
    ensures NoNewWalls(g, Opened(g, a, b), cols, rows)
    ensures Linked(Opened(g, a, b), cols, rows, a, b) && Linked(Opened(g, a, b), cols, rows, b, a)
  {
    var s := Facing(a, b);
    OpenSideRules(g, cols, rows, a, s);
    TowardFacing(a, s);
  }

  /** Marking a cell visited changes that flag and nothing else. */
  lemma MarkRules(g: Grid, cols: int, rows: int, p: Pos)
    requires WellFormed(g, cols, rows) && InGrid(p, cols, rows)
    ensures WellFormed(Mark(g, p), cols, rows)
    ensures NoNewWalls(g, Mark(g, p), cols, rows) && NoNewWalls(Mark(g, p), g, cols, rows)
    ensures forall q :: InGrid(q, cols, rows) ==> At(Mark(g, p), q).visited == (q == p || At(g, q).visited)
  {
    var h := Mark(g, p);
    forall q | InGrid(q, cols, rows)
      ensures At(h, q).walls == At(g, q).walls && At(h, q).x == At(g, q).x && At(h, q).y == At(g, q).y
    {
    }
  }

  /**
   * One carving step of the depth-first walk: take down the wall from `a`
   * to its neighbour `b`, then mark `b` visited. The grid stays well
   * formed, no wall goes up, `a` now leads to `b`, and exactly `b` joins
   * the visited cells.
   */
  lemma CarveRules(g: Grid, cols: int, rows: int, a: Pos, b: Pos)
    requires WellFormed(g, cols, rows) && InGrid(a, cols, rows) && InGrid(b, cols, rows) && Adjacent(a, b)
    ensures WellFormed(Mark(Opened(g, a, b), b), cols, rows)
    ensures NoNewWalls(g, Mark(Opened(g, a, b), b), cols, rows)
    ensures Linked(Mark(Opened(g, a, b), b), cols, rows, a, b)
    ensures forall q :: InGrid(q, cols, rows) ==>
      At(Mark(Opened(g, a, b), b), q).visited == (q == b || At(g, q).visited)
  {
    var h := Opened(g, a, b);
    OpenedRules(g, cols, rows, a, b);
    MarkRules(h, cols, rows, b);
    NoNewWallsChain(g, h, Mark(h, b), cols, rows);
  }

  lemma NoNewWallsChain(g: Grid, h: Grid, k: Grid, cols: int, rows: int)
    requires NoNewWalls(g, h, cols, rows) && NoNewWalls(h, k, cols, rows)
    ensures NoNewWalls(g, k, cols, rows)
  {
  }

  lemma SameVisitsChain(g: Grid, h: Grid, k: Grid, cols: int, rows: int)
    requires SameVisits(g, h, cols, rows) && SameVisits(h, k, cols, rows)
    ensures SameVisits(g, k, cols, rows)
  {
  }

  // ---------------------------------------------------------------------
  // Lists of passages

  /** Every pair joins two neighbouring cells of the grid. */
  predicate Passages(ps: seq<(Pos, Pos)>, cols: int, rows: int) {
    forall i :: 0 <= i < |ps| ==>
      InGrid(ps[i].0, cols, rows) && InGrid(ps[i].1, cols, rows) && Adjacent(ps[i].0, ps[i].1)
  }

  /** One of the passages `ps` goes through the wall on side `s` of `p`, in either direction. */
  predicate Crossed(ps: seq<(Pos, Pos)>, p: Pos, s: Side) {
    (p, Toward(p, s)) in ps || (Toward(p, s), p) in ps
  }

  /** A passage from `a` to `b` crosses exactly the two copies of the wall between them. */
  lemma CrossedExtend(ps: seq<(Pos, Pos)>, a: Pos, b: Pos, c: Pos, t: Side)
    requires Adjacent(a, b)
    ensures Crossed(ps + [(a, b)], c, t) <==>
      Crossed(ps, c, t) || (c, t) == (a, Facing(a, b)) || (c, t) == (b, Opposite(Facing(a, b)))
  {
    TowardFacing(c, t);
    TowardFacing(a, Facing(a, b));
  }

  /** The walls of `h` are those of `g` less every wall a passage of `ps` crosses. */
  ghost predicate OpenedAlong(g: Grid, h: Grid, cols: int, rows: int, ps: seq<(Pos, Pos)>) {
    Shaped(g, cols, rows) && Shaped(h, cols, rows) &&
    forall p, s {:trigger Crossed(ps, p, s)} :: InGrid(p, cols, rows) ==>
      (Wall(At(h, p).walls, s) <==> Wall(At(g, p).walls, s) && !Crossed(ps, p, s))
  }

  /** The walls standing in `g` are exactly those no passage of `ps` crosses. */
  ghost predicate CarvedAlong(g: Grid, cols: int, rows: int, ps: seq<(Pos, Pos)>) {
    Shaped(g, cols, rows) &&
    forall p, s {:trigger Crossed(ps, p, s)} :: InGrid(p, cols, rows) ==> (Wall(At(g, p).walls, s) <==> !Crossed(ps, p, s))
  }

  /** Opening one more wall extends the list of passages by that pair. */
  lemma OpenedAlongStep(g: Grid, h: Grid, cols: int, rows: int, ps: seq<(Pos, Pos)>, a: Pos, b: Pos)
    requires OpenedAlong(g, h, cols, rows, ps)
    requires InGrid(a, cols, rows) && InGrid(b, cols, rows) && Adjacent(a, b)
    ensures OpenedAlong(g, Opened(h, a, b), cols, rows, ps + [(a, b)])
  {
    var s := Facing(a, b);
    forall c, t | InGrid(c, cols, rows)
      ensures Wall(At(Opened(h, a, b), c).walls, t) <==> Wall(At(g, c).walls, t) && !Crossed(ps + [(a, b)], c, t)
    {
      OpenSideAt(h, a, s, c);
      CrossedExtend(ps, a, b, c, t);
    }
  }

  /** A carving step (open, then mark) extends the list of carved passages by that pair. */
  lemma CarvedAlongStep(h: Grid, cols: int, rows: int, ps: seq<(Pos, Pos)>, a: Pos, b: Pos)
    requires CarvedAlong(h, cols, rows, ps)
    requires InGrid(a, cols, rows) && InGrid(b, cols, rows) && Adjacent(a, b)
    ensures CarvedAlong(Mark(Opened(h, a, b), b), cols, rows, ps + [(a, b)])
  {
    var s := Facing(a, b);
    forall c, t | InGrid(c, cols, rows)
      ensures Wall(At(Mark(Opened(h, a, b), b), c).walls, t) <==> !Crossed(ps + [(a, b)], c, t)
    {
      OpenSideAt(h, a, s, c);
      CrossedExtend(ps, a, b, c, t);
    }
  }

  /** Opening walls along passages raises none. */
  lemma OpenedAlongLowers(g: Grid, h: Grid, cols: int, rows: int, ps: seq<(Pos, Pos)>)
    requires OpenedAlong(g, h, cols, rows, ps)
    ensures NoNewWalls(g, h, cols, rows)
  {
    forall p, s | InGrid(p, cols, rows) && Wall(At(h, p).walls, s)
      ensures Wall(At(g, p).walls, s)
    {
      assert !Crossed(ps, p, s) || Crossed(ps, p, s);
    }
  }

  /** Every passage of the list is open in both directions. */
  lemma OpenedAlongLinks(g: Grid, h: Grid, cols: int, rows: int, ps: seq<(Pos, Pos)>)
    requires OpenedAlong(g, h, cols, rows, ps) && Passages(ps, cols, rows)
    ensures forall i :: 0 <= i < |ps| ==>
      Linked(h, cols, rows, ps[i].0, ps[i].1) && Linked(h, cols, rows, ps[i].1, ps[i].0)
  {
    forall i | 0 <= i < |ps|
      ensures Linked(h, cols, rows, ps[i].0, ps[i].1) && Linked(h, cols, rows, ps[i].1, ps[i].0)
    {
      var p, q := ps[i].0, ps[i].1;
      assert Crossed(ps, p, Facing(p, q));
      TowardFacing(p, Facing(p, q));
      assert Crossed(ps, q, Facing(q, p));
    }
  }

  // ---------------------------------------------------------------------
  // Passages and paths

  /** One can walk from `p` to its neighbour `q`: the wall of `p` facing `q` is down. */
  predicate Linked(g: Grid, cols: int, rows: int, p: Pos, q: Pos) {
    Shaped(g, cols, rows) && InGrid(p, cols, rows) && InGrid(q, cols, rows) &&
    Adjacent(p, q) && !Wall(At(g, p).walls, Facing(p, q))
  }

  predicate IsPath(g: Grid, cols: int, rows: int, path: seq<Pos>) {
    |path| > 0 &&
    (forall i :: 0 <= i < |path| ==> InGrid(path[i], cols, rows)) &&
    forall i :: 0 <= i < |path| - 1 ==> Linked(g, cols, rows, path[i], path[i + 1])
  }

  /** `b` can be reached from `a` through open walls. */
  ghost predicate Connected(g: Grid, cols: int, rows: int, a: Pos, b: Pos) {
    exists path :: IsPath(g, cols, rows, path) && path[0] == a && path[|path| - 1] == b
  }

  lemma LinkedBack(g: Grid, cols: int, rows: int, p: Pos, q: Pos)
    requires Symmetric(g, cols, rows) && Linked(g, cols, rows, p, q)
    ensures Linked(g, cols, rows, q, p)
  {
    TowardFacing(p, Facing(p, q));
  }

  lemma ConnectedStart(g: Grid, cols: int, rows: int, a: Pos)
    requires Shaped(g, cols, rows) && InGrid(a, cols, rows)
    ensures Connected(g, cols, rows, a, a)
  {
    assert IsPath(g, cols, rows, [a]);
  }

  lemma ConnectedExtend(g: Grid, cols: int, rows: int, a: Pos, b: Pos, c: Pos)
    requires Connected(g, cols, rows, a, b) && Linked(g, cols, rows, b, c)
    ensures Connected(g, cols, rows, a, c)
  {
    var path :| IsPath(g, cols, rows, path) && path[0] == a && path[|path| - 1] == b;
    var longer := path + [c];
    assert forall i :: 0 <= i < |longer| - 1 ==> longer[i] == path[i];
    assert IsPath(g, cols, rows, longer);
  }

  /** Taking walls down never disconnects anything. */
  lemma ConnectedKept(g: Grid, h: Grid, cols: int, rows: int, a: Pos, b: Pos)
    requires NoNewWalls(g, h, cols, rows) && Connected(g, cols, rows, a, b)
    ensures Connected(h, cols, rows, a, b)
  {
    var path :| IsPath(g, cols, rows, path) && path[0] == a && path[|path| - 1] == b;
    assert IsPath(h, cols, rows, path);
  }

  /** With both copies of every wall in agreement, every path can be walked backwards. */
  lemma ConnectedBack(g: Grid, cols: int, rows: int, a: Pos, b: Pos)
    requires Symmetric(g, cols, rows) && Connected(g, cols, rows, a, b)
    ensures Connected(g, cols, rows, b, a)
  {
    var path :| IsPath(g, cols, rows, path) && path[0] == a && path[|path| - 1] == b;
    var n := |path|;
    var back := seq(n, i requires 0 <= i < n => path[n - 1 - i]);
    forall i | 0 <= i < n - 1
      ensures Linked(g, cols, rows, back[i], back[i + 1])
    {
      LinkedBack(g, cols, rows, path[n - 2 - i], path[n - 1 - i]);
    }
    assert IsPath(g, cols, rows, back);
  }

  lemma ConnectedJoin(g: Grid, cols: int, rows: int, a: Pos, b: Pos, c: Pos)
    requires Connected(g, cols, rows, a, b) && Connected(g, cols, rows, b, c)
    ensures Connected(g, cols, rows, a, c)
  {
    var first :| IsPath(g, cols, rows, first) && first[0] == a && first[|first| - 1] == b;
    var second :| IsPath(g, cols, rows, second) && second[0] == b && second[|second| - 1] == c;
    var joined := first + second[1..];
    var n := |first|;
    forall i | 0 <= i < |joined| - 1
      ensures Linked(g, cols, rows, joined[i], joined[i + 1])
    {
      if i < n - 1 {
        assert joined[i] == first[i] && joined[i + 1] == first[i + 1];
      } else {
        assert joined[i] == second[i - n + 1] && joined[i + 1] == second[i - n + 2];
      }
    }
    assert IsPath(g, cols, rows, joined);
  }

  /** Every cell is reachable from the top-left corner. */
  ghost predicate AllConnected(g: Grid, cols: int, rows: int) {
    forall p :: InGrid(p, cols, rows) ==> Connected(g, cols, rows, Origin, p)
  }

  lemma AllConnectedKept(g: Grid, h: Grid, cols: int, rows: int)
    requires NoNewWalls(g, h, cols, rows) && AllConnected(g, cols, rows)
    ensures AllConnected(h, cols, rows)
  {
    forall p | InGrid(p, cols, rows)
      ensures Connected(h, cols, rows, Origin, p)
    {
      ConnectedKept(g, h, cols, rows, Origin, p);
    }
  }

  /**
   * In a grid whose every cell is reachable from the corner and whose
   * walls agree on both sides, any cell can be reached from any other.
   */
  lemma Reachable(g: Grid, cols: int, rows: int, a: Pos, b: Pos)
    requires Symmetric(g, cols, rows) && AllConnected(g, cols, rows)
    requires InGrid(a, cols, rows) && InGrid(b, cols, rows)
    ensures Connected(g, cols, rows, a, b)
  {
    ConnectedBack(g, cols, rows, Origin, a);
    ConnectedJoin(g, cols, rows, a, Origin, b);
  }

  // ---------------------------------------------------------------------
  // Counting cells

  function Cells(cols: int, rows: int): set<Pos> {
    set x, y | 0 <= x < cols && 0 <= y < rows :: Pos(x, y)
  }

  function RowCells(cols: int, y: int): set<Pos> {
    set x | 0 <= x < cols :: Pos(x, y)
  }

  lemma {:induction false} RowCount(cols: nat, y: int)
    ensures |RowCells(cols, y)| == cols
  {
    if cols == 0 {
      assert RowCells(cols, y) == {};
    } else {
      RowCount(cols - 1, y);
      assert RowCells(cols, y) == RowCells(cols - 1, y) + {Pos(cols - 1, y)};
    }
  }

  /** A cols x rows grid has cols * rows cells. */
  lemma {:induction false} CellsCount(cols: nat, rows: nat)
    ensures |Cells(cols, rows)| == cols * rows
  {
    if rows == 0 {
      assert Cells(cols, rows) == {};
    } else {
      CellsCount(cols, rows - 1);
      RowCount(cols, rows - 1);
      var above, last := Cells(cols, rows - 1), RowCells(cols, rows - 1);
      assert Cells(cols, rows) == above + last;
      assert above * last == {};
      assert cols * rows == cols * (rows - 1) + cols;
    }
  }

  /** Cells reachable step by step from a member of a closed set are in it. */
  lemma {:induction false} Reach(seen: set<Pos>, cols: int, rows: int, p: Pos)
    requires Origin in seen
    requires forall c, q :: c in seen && InGrid(q, cols, rows) && Adjacent(c, q) ==> q in seen
    requires InGrid(p, cols, rows)
    ensures p in seen
    decreases p.x + p.y
  {
    if p.x > 0 {
      var c := Pos(p.x - 1, p.y);
      Reach(seen, cols, rows, c);
      assert Adjacent(c, p);
    } else if p.y > 0 {
      var c := Pos(p.x, p.y - 1);
      Reach(seen, cols, rows, c);
      assert Adjacent(c, p);
    }
  }

  /**
   * A set of cells that holds the corner and is closed under stepping to a
   * neighbour is the whole grid, so it has cols * rows members.
   */
  lemma Spread(seen: set<Pos>, cols: nat, rows: nat)
    requires Origin in seen
    requires forall c :: c in seen ==> InGrid(c, cols, rows)
    requires forall c, q :: c in seen && InGrid(q, cols, rows) && Adjacent(c, q) ==> q in seen
    ensures forall p :: InGrid(p, cols, rows) ==> p in seen
    ensures |seen| == cols * rows
  {
    forall p | InGrid(p, cols, rows)
      ensures p in seen
    {
      Reach(seen, cols, rows, p);
    }
    assert seen == Cells(cols, rows) by {
      forall p | p in Cells(cols, rows)
        ensures p in seen
      {
        Reach(seen, cols, rows, p);
      }
      forall p | p in seen
        ensures p in Cells(cols, rows)
      {
        assert p == Pos(p.x, p.y);
      }
    }
    CellsCount(cols, rows);
  }

  /** A subset of the grid's cells with cols * rows members is all of them. */
  lemma Filled(seen: set<Pos>, cols: nat, rows: nat)
    requires forall c :: c in seen ==> InGrid(c, cols, rows)
    requires |seen| >= cols * rows
    ensures forall p :: InGrid(p, cols, rows) ==> p in seen
  {
    var all := Cells(cols, rows);
    CellsCount(cols, rows);
    assert seen <= all by {
      forall p | p in seen
        ensures p in all
      {
        assert p == Pos(p.x, p.y);
      }
    }
    assert |all - seen| == |all| - |seen|;
    assert all - seen == {};
    forall p | InGrid(p, cols, rows)
      ensures p in seen
    {
      assert Pos(p.x, p.y) in all;
    }
  }

  // ---------------------------------------------------------------------
  // Moving the player

  /**
   * `move(dx, dy)`: four independent tests against the walls of the cell
   * the player started in, each moving one step along its axis.
   */
  function Step(g: Grid, p: Pos, dx: int, dy: int): Pos
    requires Holds(g, p)
  {
    var w := At(g, p).walls;
    var x := if dx == -1 && !w.left then p.x - 1 else p.x;
    var x' := if dx == 1 && !w.right then x + 1 else x;
    var y := if dy == -1 && !w.top then p.y - 1 else p.y;
    var y' := if dy == 1 && !w.bottom then y + 1 else y;
    Pos(x', y')
  }

  /** The key press for a direction. */
  function Dx(s: Side): int {
    match s
    case Left => -1
    case Right => 1
    case _ => 0
  }

  function Dy(s: Side): int {
    match s
    case Top => -1
    case Bottom => 1
    case _ => 0
  }

  /**
   * With an intact border, a move of any (dx, dy) keeps the player inside
   * the grid, moving at most one cell along each axis.
   */
  lemma StepInGrid(g: Grid, cols: int, rows: int, p: Pos, dx: int, dy: int)
    requires Bordered(g, cols, rows) && InGrid(p, cols, rows)
    ensures InGrid(Step(g, p, dx, dy), cols, rows)
    ensures -1 <= Step(g, p, dx, dy).x - p.x <= 1 && -1 <= Step(g, p, dx, dy).y - p.y <= 1
  {
    assert Toward(p, Left) == Pos(p.x - 1, p.y) && Toward(p, Right) == Pos(p.x + 1, p.y);
    assert Toward(p, Top) == Pos(p.x, p.y - 1) && Toward(p, Bottom) == Pos(p.x, p.y + 1);
  }

  /** An arrow key moves the player to the neighbour on that side when the wall is down, and not at all otherwise. */
  lemma ArrowStep(g: Grid, cols: int, rows: int, p: Pos, s: Side)
    requires Bordered(g, cols, rows) && InGrid(p, cols, rows)
    ensures Step(g, p, Dx(s), Dy(s)) == if Wall(At(g, p).walls, s) then p else Toward(p, s)
    ensures Step(g, p, Dx(s), Dy(s)) != p ==> Linked(g, cols, rows, p, Step(g, p, Dx(s), Dy(s)))
  {
    TowardFacing(p, s);
  }

  /** Because the two copies of every wall agree, the opposite key undoes a move. */
  lemma ArrowBack(g: Grid, cols: int, rows: int, p: Pos, s: Side)
    requires WellFormed(g, cols, rows) && InGrid(p, cols, rows)
    requires Step(g, p, Dx(s), Dy(s)) != p
    ensures InGrid(Step(g, p, Dx(s), Dy(s)), cols, rows)
    ensures Step(g, Step(g, p, Dx(s), Dy(s)), Dx(Opposite(s)), Dy(Opposite(s))) == p
  {
    ArrowStep(g, cols, rows, p, s);
    var q := Toward(p, s);
    ArrowStep(g, cols, rows, q, Opposite(s));
    TowardFacing(p, s);
  }
}
