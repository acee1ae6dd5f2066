/**
 * The depth-first walk both maze games carve their mazes with: from the
 * corner, repeatedly open the wall to an unvisited neighbour of the
 * current cell and move there (pushing the current cell), or, with no
 * unvisited neighbour, pop the stack. The invariant `Walk` kept between
 * steps shows the walk never gets stuck before every cell is visited and
 * that every visited cell is reachable from the corner.
 */
module MazeWalk {
  import opened MazeGrid

  /** The members of `qs` whose cell is not visited, in order. */
  function Unvisited(g: Grid, cols: int, rows: int, qs: seq<Pos>): (r: seq<Pos>)
    requires Shaped(g, cols, rows) && forall i :: 0 <= i < |qs| ==> InGrid(qs[i], cols, rows)
    ensures forall q :: q in r <==> (q in qs && InGrid(q, cols, rows) && !At(g, q).visited)
  {
    if qs == [] then []
    else
      assert InGrid(qs[0], cols, rows);
      (if At(g, qs[0]).visited then [] else [qs[0]]) + Unvisited(g, cols, rows, qs[1..])
  }

  /** Every neighbour of `p` on the grid is visited. */
  ghost predicate Boxed(g: Grid, cols: int, rows: int, p: Pos) {
    Shaped(g, cols, rows) && forall q :: InGrid(q, cols, rows) && Adjacent(p, q) ==> At(g, q).visited
  }

  /** `seen` is exactly the set of cells whose visited flag is set. */
  ghost predicate Tracks(g: Grid, cols: int, rows: int, seen: set<Pos>) {
    Shaped(g, cols, rows) &&
    (forall p :: p in seen ==> InGrid(p, cols, rows)) &&
    (forall p :: InGrid(p, cols, rows) ==> (At(g, p).visited <==> p in seen))
  }

  /** A visited cell that is neither current nor stacked has no unvisited neighbour. */
  ghost predicate Finished(cols: int, rows: int, seen: set<Pos>, stack: seq<Pos>, current: Pos) {
    forall c, q ::
      (c in seen && c !in stack && c != current && InGrid(q, cols, rows) && Adjacent(c, q)) ==> q in seen
  }

  /** Every visited cell can be reached from the corner. */
  ghost predicate Rooted(g: Grid, cols: int, rows: int, seen: set<Pos>) {
    forall p :: p in seen ==> Connected(g, cols, rows, Origin, p)
  }

  /**
   * What holds between steps of the walk: the grid is well formed, `seen`
   * tracks the visited flags, the current cell and the stacked ones are
   * visited, and the two predicates above hold.
   */
  ghost predicate Walk(g: Grid, cols: int, rows: int, seen: set<Pos>, stack: seq<Pos>, current: Pos) {
    WellFormed(g, cols, rows) && Tracks(g, cols, rows, seen) &&
    Origin in seen && current in seen &&
    (forall i :: 0 <= i < |stack| ==> stack[i] in seen) &&
    Finished(cols, rows, seen, stack, current) && Rooted(g, cols, rows, seen)
  }

  /** A fresh grid with the corner marked visited starts the walk. */
  lemma WalkStarts(cols: nat, rows: nat)
    requires cols >= 1 && rows >= 1
    ensures Walk(Mark(FreshGrid(cols, rows), Origin), cols, rows, {Origin}, [], Origin)
  {
    var g := FreshGrid(cols, rows);
    FreshGridRules(cols, rows);
    MarkRules(g, cols, rows, Origin);
    ConnectedStart(Mark(g, Origin), cols, rows, Origin);
  }

  /**
   * Carving into an unvisited neighbour (opening the wall between them and
   * marking it) adds exactly that cell to the visited ones and keeps the
   * walk's invariant, with the old current cell pushed.
   */
  lemma CarveInto(g: Grid, cols: int, rows: int, seen: set<Pos>, stack: seq<Pos>, current: Pos, next: Pos)
    requires Walk(g, cols, rows, seen, stack, current)
    requires InGrid(next, cols, rows) && Adjacent(current, next) && !At(g, next).visited
    ensures next !in seen
    ensures Walk(Mark(Opened(g, current, next), next), cols, rows, seen + {next}, stack + [current], next)
  {
    var h := Mark(Opened(g, current, next), next);
    CarveRules(g, cols, rows, current, next);
    CarveTracks(g, h, cols, rows, seen, next);
    CarveRooted(g, h, cols, rows, seen, current, next);
    CarveFinished(cols, rows, seen, stack, current, next);
    Pushed(seen, stack, current, next);
  }

  lemma Pushed(seen: set<Pos>, stack: seq<Pos>, current: Pos, next: Pos)
    requires current in seen && forall i :: 0 <= i < |stack| ==> stack[i] in seen
    ensures forall i :: 0 <= i < |stack| + 1 ==> (stack + [current])[i] in seen + {next}
  {
    forall i | 0 <= i < |stack| + 1
      ensures (stack + [current])[i] in seen + {next}
    {
      if i < |stack| {
        assert (stack + [current])[i] == stack[i];
      }
    }
  }

  lemma CarveRooted(g: Grid, h: Grid, cols: int, rows: int, seen: set<Pos>, current: Pos, next: Pos)
    requires Rooted(g, cols, rows, seen) && current in seen
    requires NoNewWalls(g, h, cols, rows) && Linked(h, cols, rows, current, next)
    ensures Rooted(h, cols, rows, seen + {next})
  {
    forall p | p in seen + {next}
      ensures Connected(h, cols, rows, Origin, p)
    {
      if p == next {
        ConnectedKept(g, h, cols, rows, Origin, current);
        ConnectedExtend(h, cols, rows, Origin, current, next);
      } else {
        ConnectedKept(g, h, cols, rows, Origin, p);
      }
    }
  }

  lemma CarveFinished(cols: int, rows: int, seen: set<Pos>, stack: seq<Pos>, current: Pos, next: Pos)
    requires Finished(cols, rows, seen, stack, current)
    ensures Finished(cols, rows, seen + {next}, stack + [current], next)
  {
    forall c, q | c in seen + {next} && c !in stack + [current] && c != next &&
        InGrid(q, cols, rows) && Adjacent(c, q)
      ensures q in seen + {next}
    {
      assert c in seen && c !in stack && c != current;
    }
  }

  lemma CarveTracks(g: Grid, h: Grid, cols: int, rows: int, seen: set<Pos>, next: Pos)
    requires Tracks(g, cols, rows, seen) && Shaped(h, cols, rows) && InGrid(next, cols, rows)
    requires forall q :: InGrid(q, cols, rows) ==> At(h, q).visited == (q == next || At(g, q).visited)
    ensures Tracks(h, cols, rows, seen + {next})
  {
  }

  /** With no unvisited neighbour left, popping the stack keeps the walk's invariant. */
  lemma BackStep(g: Grid, cols: int, rows: int, seen: set<Pos>, stack: seq<Pos>, current: Pos)
    requires Walk(g, cols, rows, seen, stack, current)
    requires Boxed(g, cols, rows, current) && stack != []
    ensures Walk(g, cols, rows, seen, stack[..|stack| - 1], stack[|stack| - 1])
  {
  }

  /** With no unvisited neighbour and an empty stack, every cell has been visited. */
  lemma Stuck(g: Grid, cols: nat, rows: nat, seen: set<Pos>, current: Pos)
    requires Walk(g, cols, rows, seen, [], current)
    requires Boxed(g, cols, rows, current)
    ensures |seen| == cols * rows
  {
    Spread(seen, cols, rows);
  }

  /**
   * The walk's record of its carving steps: passages between neighbours,
   * each entering a visited cell other than the corner that no earlier
   * passage entered; the walls down in `g` are exactly the ones they cross.
   */
  ghost predicate Record(g: Grid, cols: nat, rows: nat, seen: set<Pos>, carves: seq<(Pos, Pos)>) {
    Passages(carves, cols, rows) &&
    (forall i :: 0 <= i < |carves| ==> carves[i].1 in seen && carves[i].1 != Origin) &&
    (forall i, j :: 0 <= i < j < |carves| ==> carves[i].1 != carves[j].1) &&
    CarvedAlong(g, cols, rows, carves)
  }

  /** The corner marked in a fresh grid starts an empty record. */
  lemma RecordStarts(cols: nat, rows: nat)
    requires cols >= 1 && rows >= 1
    ensures Record(Mark(FreshGrid(cols, rows), Origin), cols, rows, {Origin}, [])
  {
    FreshGridRules(cols, rows);
    MarkRules(FreshGrid(cols, rows), cols, rows, Origin);
  }

  /** A carving step from `a` into the unvisited cell `b` extends the record by (a, b). */
  lemma RecordCarve(g: Grid, cols: nat, rows: nat, seen: set<Pos>, carves: seq<(Pos, Pos)>, a: Pos, b: Pos)
    requires Record(g, cols, rows, seen, carves) && Origin in seen && b !in seen
    requires InGrid(a, cols, rows) && InGrid(b, cols, rows) && Adjacent(a, b)
    ensures Record(Mark(Opened(g, a, b), b), cols, rows, seen + {b}, carves + [(a, b)])
  {
    RecordEntries(seen, carves, cols, rows, a, b);
    CarvedAlongStep(g, cols, rows, carves, a, b);
  }

  lemma RecordEntries(seen: set<Pos>, carves: seq<(Pos, Pos)>, cols: nat, rows: nat, a: Pos, b: Pos)
    requires Passages(carves, cols, rows) && Origin in seen && b !in seen
    requires forall i :: 0 <= i < |carves| ==> carves[i].1 in seen && carves[i].1 != Origin
    requires forall i, j :: 0 <= i < j < |carves| ==> carves[i].1 != carves[j].1
    requires InGrid(a, cols, rows) && InGrid(b, cols, rows) && Adjacent(a, b)
    ensures Passages(carves + [(a, b)], cols, rows)
    ensures forall i :: 0 <= i < |carves + [(a, b)]| ==>
      (carves + [(a, b)])[i].1 in seen + {b} && (carves + [(a, b)])[i].1 != Origin
    ensures forall i, j :: 0 <= i < j < |carves + [(a, b)]| ==> (carves + [(a, b)])[i].1 != (carves + [(a, b)])[j].1
  {
    var longer := carves + [(a, b)];
    forall i | 0 <= i < |carves|
      ensures longer[i] == carves[i]
    {
    }
  }
}
