/**
 * Mini-golf (games/golf/game.js), without the ball physics: obstacle spans
 * and their overlap test, the bounded-retry placement of obstacles, the
 * par of a hole, the surface classifier behind the friction, and the
 * bookkeeping of a round: strokes, hazard and overshoot penalties, the
 * bunker power latch, sinking the ball, the per-hole score and par lists
 * and the move from hole to hole.
 *
 * Every `Math.random()` is a caller-supplied draw in [0, 1). The ground
 * height `groundHeightAt` (a sum of sine bumps) is a function the caller
 * supplies, and the motion of a flying ball over one frame (gravity,
 * bounce, friction, slope and tree push-out) is an input `Flight`.
 */
module Golf {
  import opened Chance

  const TotalHoles := 18
  const BallRadius := 10.0
  const GroundThickness := 20.0
  const TeeX := 50.0
  const CupRadius := 12.0
  const CupDepth := 15.0
  const GreenRadius := 80.0
  const PixelsToYards := 0.3
  const MaxPower := 50.0
  const PowerScale := 0.5
  const Gravity := 0.4
  const FrictionNormal := 0.99
  const FrictionGreen := 0.995
  const FrictionBunker := 0.92
  const DanceDuration := 300
  const MaxAttempts := 100
  const TreeBaseWidth := 20.0
  const BunkerDepth := 12.0

  /* ------------------------------------------------------------ obstacles */

  /** The obstacle types `setupCourse` creates. */
  datatype Kind = Tree | Hill | Water | Bunker

  /**
   * An obstacle's type, left edge (centre for a tree) and width. Heights
   * and the bunker depth only shape the ground and the drawing.
   */
  datatype Obstacle = Obstacle(kind: Kind, x: real, width: real)

  /** A horizontal stretch `{left, right}`. */
  datatype Span = Span(left: real, right: real)

  /** `randomRange(min, max)` with `u` standing for `Math.random()`. */
  function RandomRange(u: real, lo: real, hi: real): (r: real)
    ensures u == 0.0 ==> r == lo
    ensures u == 1.0 ==> r == hi
    ensures IsDraw(u) && lo < hi ==> lo <= r < hi
  {
    Scale(u, hi - lo) + lo
  }

  /** A draw times a length: below the length when the draw is in [0, 1). */
  function Scale(u: real, d: real): (s: real)
    ensures u == 0.0 ==> s == 0.0
    ensures u == 1.0 ==> s == d
    ensures IsDraw(u) && d > 0.0 ==> 0.0 <= s < d
  {
    if IsDraw(u) && d > 0.0 then Below(u, d); u * d else u * d
  }

  lemma Below(u: real, d: real)
    requires IsDraw(u) && d > 0.0
    ensures 0.0 <= u * d < d
  {
  }

  /** `obstacleRange`: a tree is centred on its x, anything else starts there. */
  function ObstacleRange(o: Obstacle): (s: Span)
    ensures s.right - s.left == o.width
    ensures o.kind == Tree ==> s.left + s.right == 2.0 * o.x
    ensures o.kind != Tree ==> s.left == o.x
  {
    if o.kind == Tree then Span(o.x - o.width / 2.0, o.x + o.width / 2.0)
    else Span(o.x, o.x + o.width)
  }

  /** `rangesOverlap`: the open stretches share some ground. */
  predicate RangesOverlap(a: Span, b: Span) {
    a.left < b.right && a.right > b.left
  }

  /** `obstaclesOverlap`: the spans of the two obstacles overlap. */
  predicate ObstaclesOverlap(a: Obstacle, b: Obstacle) {
    RangesOverlap(ObstacleRange(a), ObstacleRange(b))
  }

  predicate Inside(p: real, s: Span) {
    s.left < p < s.right
  }

  lemma OverlapIsSymmetric(a: Span, b: Span)
    ensures RangesOverlap(a, b) == RangesOverlap(b, a)
  {
  }

  /** Stretches that only touch do not overlap. */
  lemma TouchingIsNoOverlap(a: Span, b: Span)
    requires a.right == b.left
    ensures !RangesOverlap(a, b) && !RangesOverlap(b, a)
  {
  }

  /**
   * For stretches of positive width, the overlap test holds exactly when
   * some point lies strictly inside both.
   */
  lemma OverlapMeansSharedGround(a: Span, b: Span)
    requires a.left < a.right && b.left < b.right
    ensures RangesOverlap(a, b) <==> exists p :: Inside(p, a) && Inside(p, b)
  {
    if RangesOverlap(a, b) {
      var lo := if a.left < b.left then b.left else a.left;
      var hi := if a.right < b.right then a.right else b.right;
      var mid := (lo + hi) / 2.0;
      assert Inside(mid, a) && Inside(mid, b);
    }
  }

  /** The cases game.test.js checks: trees 10 apart overlap, 100 apart do not. */
  lemma TreeOverlapCases()
    ensures RangesOverlap(Span(0.0, 5.0), Span(4.0, 10.0))
    ensures !RangesOverlap(Span(0.0, 5.0), Span(6.0, 10.0))
    ensures ObstaclesOverlap(Obstacle(Tree, 100.0, 20.0), Obstacle(Tree, 110.0, 20.0))
    ensures !ObstaclesOverlap(Obstacle(Tree, 100.0, 20.0), Obstacle(Tree, 200.0, 20.0))
  {
  }

  /* ------------------------------------------------------------ placement */

  /** The arguments of one `createObstacle` call: type, band and width. */
  datatype Request = Request(kind: Kind, lo: real, hi: real, width: real)

  /** One attempt: the obstacle at `randomRange(minX, maxX)`. */
  function Candidate(req: Request, u: real): (o: Obstacle)
    ensures o.kind == req.kind && o.width == req.width
    ensures IsDraw(u) && req.lo < req.hi ==> req.lo <= o.x < req.hi
  {
    Obstacle(req.kind, RandomRange(u, req.lo, req.hi), req.width)
  }

  /** A candidate overlaps no existing obstacle and no stretch to avoid. */
  predicate Free(existing: seq<Obstacle>, avoid: seq<Span>, o: Obstacle) {
    (forall e <- existing :: !ObstaclesOverlap(e, o)) &&
    (forall s <- avoid :: !RangesOverlap(ObstacleRange(o), s))
  }

  /**
   * The index, from `k` on, of the attempt `createObstacle` keeps: the
   * first free candidate, or the last one when none of the attempts is free.
   */
  function Kept(existing: seq<Obstacle>, avoid: seq<Span>, req: Request, draws: seq<real>, k: nat): (j: nat)
    requires k < MaxAttempts <= |draws|
    ensures k <= j < MaxAttempts
    decreases MaxAttempts - k
  {
    if Free(existing, avoid, Candidate(req, draws[k])) || k == MaxAttempts - 1 then k
    else Kept(existing, avoid, req, draws, k + 1)
  }

  /**
   * The attempt kept is free unless it is the last, and every attempt
   * before it overlapped something.
   */
  lemma {:induction false} KeptRules(existing: seq<Obstacle>, avoid: seq<Span>, req: Request, draws: seq<real>, k: nat)
    requires k < MaxAttempts <= |draws|
    ensures var j := Kept(existing, avoid, req, draws, k);
      (j < MaxAttempts - 1 ==> Free(existing, avoid, Candidate(req, draws[j]))) &&
      forall i :: k <= i < j ==> !Free(existing, avoid, Candidate(req, draws[i]))
    decreases MaxAttempts - k
  {
    if !Free(existing, avoid, Candidate(req, draws[k])) && k < MaxAttempts - 1 {
      KeptRules(existing, avoid, req, draws, k + 1);
    }
  }

  /** The obstacle `createObstacle` returns. */
  function Place(existing: seq<Obstacle>, avoid: seq<Span>, req: Request, draws: seq<real>): (o: Obstacle)
    requires MaxAttempts <= |draws|
    ensures o.kind == req.kind && o.width == req.width
    ensures AllDraws(draws) && req.lo < req.hi ==> req.lo <= o.x < req.hi
  {
    Candidate(req, draws[Kept(existing, avoid, req, draws, 0)])
  }

  /** The first free attempt at or after `k` is the one kept. */
  lemma {:induction false} KeptIsFirst(existing: seq<Obstacle>, avoid: seq<Span>, req: Request, draws: seq<real>, k: nat, j: nat)
    requires k <= j < MaxAttempts <= |draws|
    requires forall i :: k <= i < j ==> !Free(existing, avoid, Candidate(req, draws[i]))
    requires Free(existing, avoid, Candidate(req, draws[j])) || j == MaxAttempts - 1
    ensures Kept(existing, avoid, req, draws, k) == j
    decreases j - k
  {
    if k < j {
      KeptIsFirst(existing, avoid, req, draws, k + 1, j);
    }
  }

  /**
   * Placement succeeds whenever it can: if any of the hundred candidates
   * is free, the obstacle placed is free. Otherwise the last candidate is
   * placed anyway.
   */
  lemma PlaceFits(existing: seq<Obstacle>, avoid: seq<Span>, req: Request, draws: seq<real>, i: nat)
    requires i < MaxAttempts <= |draws|
    requires Free(existing, avoid, Candidate(req, draws[i]))
    ensures Free(existing, avoid, Place(existing, avoid, req, draws))
  {
    var j := Kept(existing, avoid, req, draws, 0);
    KeptRules(existing, avoid, req, draws, 0);
    assert Place(existing, avoid, req, draws) == Candidate(req, draws[j]);
    if j == MaxAttempts - 1 {
      assert i == j;
    }
  }

  /**
   * `createObstacle`: draw candidates until one is free, at most a hundred
   * times; the last is returned even when it overlaps.
   */
  method CreateObstacle(existing: seq<Obstacle>, avoid: seq<Span>, req: Request, draws: seq<real>)
    returns (ob: Obstacle)
    requires MaxAttempts <= |draws|
    ensures ob == Place(existing, avoid, req, draws)
  {
    ob := Candidate(req, draws[0]);
    var attempts := 1;
    while !Free(existing, avoid, ob) && attempts < MaxAttempts
      invariant 1 <= attempts <= MaxAttempts
      invariant ob == Candidate(req, draws[attempts - 1])
      invariant forall i :: 0 <= i < attempts - 1 ==> !Free(existing, avoid, Candidate(req, draws[i]))
      decreases MaxAttempts - attempts
    {
      ob := Candidate(req, draws[attempts]);
      attempts := attempts + 1;
    }
    KeptIsFirst(existing, avoid, req, draws, 0, attempts - 1);
  }

  /* --------------------------------------------------------------- course */

  /**
   * Par from the hole's length in yards: 3 from 75 to 225, 4 from 226 to
   * 420, and 5 otherwise, holes shorter than 75 yards included.
   */
  function Par(yards: int): (p: int)
    ensures p == 3 <==> 75 <= yards <= 225
    ensures p == 4 <==> 226 <= yards <= 420
    ensures p == 5 <==> yards < 75 || yards > 420
  {
    if 75 <= yards <= 225 then 3
    else if 226 <= yards <= 420 then 4
    else 5
  }

  /** From 75 yards on, a longer hole never has a smaller par. */
  lemma ParGrows(a: int, b: int)
    requires 75 <= a <= b
    ensures Par(a) <= Par(b)
  {
  }

  /** The pin of one hole: its x, the overshoot limit, its length and par. */
  datatype Hole = Hole(x: real, maxDistance: real, yards: int, par: int)

  /** The pin `setupCourse` draws on a canvas `width` wide. */
  function PinHole(width: real, u: real, v: real): Hole {
    var x := RandomRange(u, width * 0.7, width - 80.0);
    var overshoot := RandomRange(v, width * 0.2, width * 0.4);
    var yards := Round((x - TeeX) * PixelsToYards);
    Hole(x, x + overshoot, yards, Par(yards))
  }

  /**
   * On a canvas at least 300 wide, the pin lies between 70% of the width
   * and 80 short of the edge, the overshoot limit 20% to 40% of the width
   * beyond it, and the par matches the rounded yardage from the tee.
   */
  lemma PinHoleRules(width: real, u: real, v: real)
    requires width >= 300.0 && IsDraw(u) && IsDraw(v)
    ensures var h := PinHole(width, u, v);
      width * 0.7 <= h.x < width - 80.0 &&
      width * 0.2 <= h.maxDistance - h.x < width * 0.4 &&
      (h.x - TeeX) * PixelsToYards - 0.5 < h.yards as real <= (h.x - TeeX) * PixelsToYards + 0.5 &&
      h.par == Par(h.yards)
  {
  }

  /** The green's protected stretch. */
  function GreenSpan(h: Hole): Span {
    Span(h.x - GreenRadius, h.x + GreenRadius)
  }

  /** All the draws one `setupCourse` makes, by use. */
  datatype CourseDraws = CourseDraws(
    pin: real, overshoot: real, trees: real, scales: seq<real>, places: seq<seq<real>>)

  /** Three scale draws and six rounds of a hundred placement draws. */
  predicate Fits(d: CourseDraws) {
    IsDraw(d.pin) && IsDraw(d.overshoot) && IsDraw(d.trees) &&
    |d.scales| == 3 && AllDraws(d.scales) &&
    |d.places| == 6 && forall i :: 0 <= i < 6 ==> |d.places[i]| >= MaxAttempts && AllDraws(d.places[i])
  }

  /** `Math.floor(randomRange(1, 4))`: one to three trees. */
  function TreeCount(u: real): (n: int)
    ensures IsDraw(u) ==> 1 <= n <= 3
  {
    Floor(RandomRange(u, 1.0, 4.0))
  }

  /**
   * The requests of `setupCourse`: trees, then hill, water and bunker. A
   * tree's scale is `randomRange(1.5, 3)` on its own draw `u`.
   */
  function TreeRequest(width: real, u: real): (req: Request)
    ensures req.kind == Tree && req.lo == width * 0.2 && req.hi == width * 0.4
    ensures IsDraw(u) ==> 1.5 * TreeBaseWidth <= req.width < 3.0 * TreeBaseWidth
  {
    Request(Tree, width * 0.2, width * 0.4, TreeBaseWidth * RandomRange(u, 1.5, 3.0))
  }

  function HillRequest(width: real): Request {
    Request(Hill, width * 0.5, width * 0.7, 100.0)
  }

  function WaterRequest(width: real): Request {
    Request(Water, width * 0.4, width * 0.6, 60.0)
  }

  function BunkerRequest(width: real): Request {
    Request(Bunker, width * 0.6, width * 0.8, 80.0)
  }

  /** The requests of one `setupCourse` with `n` trees, in the order they are placed. */
  function Requests(width: real, d: CourseDraws, n: nat): (reqs: seq<Request>)
    requires n <= |d.scales|
    ensures |reqs| == n + 3
    ensures forall i :: 0 <= i < n ==> reqs[i] == TreeRequest(width, d.scales[i])
    ensures reqs[n] == HillRequest(width) && reqs[n + 1] == WaterRequest(width)
    ensures reqs[n + 2] == BunkerRequest(width)
    ensures width > 0.0 ==> forall i :: 0 <= i < |reqs| ==> reqs[i].lo < reqs[i].hi
    ensures AllDraws(d.scales) ==>
      forall i :: 0 <= i < n ==> 1.5 * TreeBaseWidth <= reqs[i].width < 3.0 * TreeBaseWidth
  {
    seq(n, i requires 0 <= i < n => TreeRequest(width, d.scales[i])) +
    [HillRequest(width), WaterRequest(width), BunkerRequest(width)]
  }

  /** Enough draws for every request. */
  predicate Drawn(places: seq<seq<real>>, n: nat) {
    n <= |places| && forall i :: 0 <= i < n ==> |places[i]| >= MaxAttempts
  }

  /**
   * The obstacles after placing `reqs` in order, each with `createObstacle`
   * against those placed before it and the stretches to avoid.
   */
  function Placed(avoid: seq<Span>, reqs: seq<Request>, places: seq<seq<real>>): (obs: seq<Obstacle>)
    requires Drawn(places, |reqs|)
    ensures |obs| == |reqs|
    decreases |reqs|
  {
    if reqs == [] then []
    else
      var n := |reqs| - 1;
      var prior := Placed(avoid, reqs[..n], places);
      prior + [Place(prior, avoid, reqs[n], places[n])]
  }

  /** The obstacles after `setupCourse`: the trees, then a hill, water and a bunker. */
  function Layout(width: real, h: Hole, d: CourseDraws): seq<Obstacle>
    requires Fits(d)
  {
    var n := TreeCount(d.trees);
    Placed([GreenSpan(h)], Requests(width, d, n), d.places)
  }

  /** Each obstacle is the one `createObstacle` places for its request, given those before it. */
  lemma {:induction false} PlacedRules(avoid: seq<Span>, reqs: seq<Request>, places: seq<seq<real>>)
    requires Drawn(places, |reqs|)
    ensures var obs := Placed(avoid, reqs, places);
      forall i :: 0 <= i < |reqs| ==> obs[i] == Place(obs[..i], avoid, reqs[i], places[i])
    decreases |reqs|
  {
    if reqs != [] {
      var n := |reqs| - 1;
      PlacedRules(avoid, reqs[..n], places);
      var prior := Placed(avoid, reqs[..n], places);
      var obs := Placed(avoid, reqs, places);
      assert obs[..n] == prior;
      forall i | 0 <= i < |reqs|
        ensures obs[i] == Place(obs[..i], avoid, reqs[i], places[i])
      {
        if i < n {
          assert obs[..i] == prior[..i];
        }
      }
    }
  }

  /**
   * The layout holds one to three trees, each 30 to 60 wide, then a hill,
   * water and a bunker of widths 100, 60 and 80, each obstacle the one
   * `createObstacle` places for its request given the obstacles before it
   * and the green, and lying within its band.
   */
  lemma LayoutRules(width: real, h: Hole, d: CourseDraws)
    requires Fits(d) && width > 0.0
    ensures var obs := Layout(width, h, d); var n := TreeCount(d.trees);
      |obs| == n + 3 &&
      (forall i :: 0 <= i < n ==> obs[i].kind == Tree) &&
      obs[n].kind == Hill && obs[n + 1].kind == Water && obs[n + 2].kind == Bunker
    ensures var obs := Layout(width, h, d); var n := TreeCount(d.trees);
      (forall i :: 0 <= i < n ==> 30.0 <= obs[i].width < 60.0) &&
      obs[n].width == 100.0 && obs[n + 1].width == 60.0 && obs[n + 2].width == 80.0
    ensures var obs := Layout(width, h, d); var reqs := Requests(width, d, TreeCount(d.trees));
      forall i :: 0 <= i < |obs| ==> reqs[i].lo <= obs[i].x < reqs[i].hi
    ensures var obs := Layout(width, h, d); var reqs := Requests(width, d, TreeCount(d.trees));
      forall i :: 0 <= i < |obs| ==> obs[i] == Place(obs[..i], [GreenSpan(h)], reqs[i], d.places[i])
  {
    var n := TreeCount(d.trees);
    var reqs := Requests(width, d, n);
    PlacedRules([GreenSpan(h)], reqs, d.places);
    var obs := Layout(width, h, d);
    assert forall i :: 0 <= i < |obs| ==> AllDraws(d.places[i]);
  }

  /**
   * No obstacle overlaps the green or an obstacle placed before it, unless
   * every one of its hundred candidates did.
   */
  lemma LayoutSpread(width: real, h: Hole, d: CourseDraws, i: nat, k: nat)
    requires Fits(d) && width > 0.0
    requires i < |Layout(width, h, d)| && k < MaxAttempts
    requires var obs := Layout(width, h, d);
      Free(obs[..i], [GreenSpan(h)], Candidate(Requests(width, d, TreeCount(d.trees))[i], d.places[i][k]))
    ensures var obs := Layout(width, h, d);
      Free(obs[..i], [GreenSpan(h)], obs[i])
  {
    LayoutRules(width, h, d);
    var obs := Layout(width, h, d);
    PlaceFits(obs[..i], [GreenSpan(h)], Requests(width, d, TreeCount(d.trees))[i], d.places[i], k);
  }

  /* -------------------------------------------------------------- surface */

  /** The ball: position, velocity, radius and the two motion flags. */
  datatype Ball = Ball(x: real, y: real, vx: real, vy: real, radius: real, moving: bool, falling: bool)

  /**
   * `ballInBunker()`: the ball is over some bunker and sunk below the
   * ground by more than its depth allows. `height` is `groundHeightAt`.
   */
  predicate InBunker(b: Ball, obs: seq<Obstacle>, height: real -> real) {
    exists o <- obs :: o.kind == Bunker && b.x > o.x && b.x < o.x + o.width &&
      b.y + b.radius > height(b.x) - BunkerDepth
  }

  /** `Math.hypot(ball.x - hole.x, ball.y - hole.y) < limit`, compared squared. */
  predicate Within(b: Ball, px: real, py: real, limit: real) {
    (b.x - px) * (b.x - px) + (b.y - py) * (b.y - py) < limit * limit
  }

  /** `getFriction()`: the bunker first, then the green around the pin, else the fairway. */
  function Friction(b: Ball, obs: seq<Obstacle>, height: real -> real, px: real, py: real): (f: real)
    ensures InBunker(b, obs, height) ==> f == FrictionBunker
    ensures !InBunker(b, obs, height) && Within(b, px, py, GreenRadius) ==> f == FrictionGreen
    ensures !InBunker(b, obs, height) && !Within(b, px, py, GreenRadius) ==> f == FrictionNormal
  {
    if InBunker(b, obs, height) then FrictionBunker
    else if Within(b, px, py, GreenRadius) then FrictionGreen
    else FrictionNormal
  }

  /** Sand slows the ball most and the green least: a bunker wins over the green. */
  lemma FrictionOrder(b: Ball, obs: seq<Obstacle>, height: real -> real, px: real, py: real)
    ensures FrictionBunker <= Friction(b, obs, height, px, py) <= FrictionGreen
    ensures Friction(b, obs, height, px, py) == FrictionBunker <==> InBunker(b, obs, height)
  {
  }

  /** The cases game.test.js checks on a 200-high canvas (ground at 180). */
  lemma FrictionCases()
    ensures var bunker := [Obstacle(Bunker, 100.0, 50.0)];
      InBunker(Ball(120.0, 160.0, 0.0, 0.0, 10.0, false, false), bunker, x => 180.0) &&
      Friction(Ball(120.0, 160.0, 0.0, 0.0, 10.0, false, false), bunker, x => 180.0, 0.0, 180.0) == 0.92 &&
      !InBunker(Ball(50.0, 160.0, 0.0, 0.0, 10.0, false, false), bunker, x => 180.0)
    ensures Friction(Ball(50.0, 170.0, 0.0, 0.0, 10.0, false, false), [], x => 180.0, 50.0, 180.0) == 0.995
    ensures Friction(Ball(150.0, 170.0, 0.0, 0.0, 10.0, false, false), [], x => 180.0, 50.0, 180.0) == 0.99
  {
    var bunker := [Obstacle(Bunker, 100.0, 50.0)];
    assert bunker[0] in bunker;
  }

  /* ---------------------------------------------------------------- round */

  /** The canvas rows: the ground line (where the cup sits) and the tee height. */
  function CupY(height: real): real {
    height - GroundThickness
  }

  function TeeY(height: real): real {
    height - GroundThickness - BallRadius
  }

  /**
   * The scorecard globals: the hole number, strokes on this hole, the
   * strokes and pars of the holes played, the completion flag and the
   * victory dance's countdown.
   */
  datatype Card = Card(current: int, hits: int, scores: seq<int>, pars: seq<int>, completed: bool, dance: int)

  /**
   * The globals of the shot in hand: the selected power, the bunker
   * latch, the meter switch, the hazard flag of the last shot and where
   * the last shot started.
   */
  datatype Shot = Shot(power: real, latched: bool, metering: bool, hazard: bool, prevX: real, prevY: real)

  /** Everything the rules read and write, with the canvas size. */
  datatype Links = Links(card: Card, shot: Shot, ball: Ball, hole: Hole, obstacles: seq<Obstacle>,
                         width: real, height: real)

  /** `setupCourse()`: a new pin and layout, and the ball on the tee. */
  function SetUp(r: Links, d: CourseDraws): Links
    requires Fits(d)
  {
    var h := PinHole(r.width, d.pin, d.overshoot);
    var tee := TeeY(r.height);
    r.(hole := h, obstacles := Layout(r.width, h, d), ball := r.ball.(x := TeeX, y := tee),
       shot := r.shot.(prevX := TeeX, prevY := tee))
  }

  /** The page load: the globals' initial values, then `setupCourse()`. */
  function Start(width: real, height: real, d: CourseDraws): Links
    requires Fits(d)
  {
    SetUp(Links(Card(1, 0, [], [], false, 0), Shot(10.0, false, false, false, TeeX, 0.0),
                Ball(TeeX, 0.0, 0.0, 0.0, BallRadius, false, false), Hole(0.0, 0.0, 0, 4), [],
                width, height), d)
  }

  /** The aim as cosine and sine of the angle (the trigonometry is left to the caller). */
  datatype Aim = Aim(cos: real, sin: real)

  /**
   * `launch()`: nothing while the ball moves; otherwise remember where the
   * shot starts, clear the hazard flag, set the velocity to the aim scaled
   * by half the power, and count a stroke.
   */
  function AfterLaunch(r: Links, aim: Aim): Links {
    if r.ball.moving then r
    else
      var scaled := r.shot.power * PowerScale;
      r.(shot := r.shot.(prevX := r.ball.x, prevY := r.ball.y, hazard := false),
         ball := r.ball.(vx := aim.cos * scaled, vy := -aim.sin * scaled, moving := true),
         card := r.card.(hits := r.card.hits + 1))
  }

  /**
   * The space bar: ignored while the ball moves or the dance runs; the
   * first press starts the meter, the second sets the power from the
   * meter's `percent` and launches.
   */
  function AfterSpace(r: Links, percent: real, aim: Aim): Links {
    if r.ball.moving || r.card.dance != 0 then r
    else if !r.shot.metering then r.(shot := r.shot.(metering := true))
    else AfterLaunch(r.(shot := r.shot.(metering := false, power := percent / 100.0 * MaxPower)), aim)
  }

  /**
   * The R key: the ball back where the last shot started, at rest, full
   * size; the power back to 15; a stroke added unless the last shot already
   * cost a hazard penalty or this is the first stroke, in which case the
   * hazard flag is cleared instead.
   */
  function AfterRetake(r: Links): Links {
    var b := r.ball.(x := r.shot.prevX, y := r.shot.prevY, vx := 0.0, vy := 0.0, moving := false,
                     radius := BallRadius, falling := false);
    var stroke := !r.shot.hazard && r.card.hits > 1;
    r.(ball := b,
       card := r.card.(hits := if stroke then r.card.hits + 1 else r.card.hits, dance := 0),
       shot := r.shot.(power := 15.0, metering := false, hazard := if stroke then r.shot.hazard else false,
                       prevX := b.x, prevY := b.y))
  }

  /** `restartHole()` (the N key): same layout, strokes back to 0, the ball on the tee. */
  function AfterRestart(r: Links): Links {
    var tee := TeeY(r.height);
    r.(card := r.card.(hits := 0, completed := false, dance := 0),
       ball := Ball(TeeX, tee, 0.0, 0.0, BallRadius, false, false),
       shot := r.shot.(power := 15.0, metering := false, hazard := false, prevX := TeeX, prevY := tee))
  }

  /**
   * `nextHole()`: count up the hole; past the eighteenth nothing else
   * changes, otherwise strokes and flags reset and a new course is set up.
   */
  function AfterNextHole(r: Links, d: CourseDraws): Links
    requires Fits(d)
  {
    var r1 := r.(card := r.card.(current := r.card.current + 1));
    if r1.card.current > TotalHoles then r1
    else
      var r2 := SetUp(r1.(card := r1.card.(hits := 0, completed := false, dance := 0)), d);
      r2.(ball := r2.ball.(radius := BallRadius, falling := false), shot := r2.shot.(hazard := false))
  }

  /** The window's resize handler: the new canvas, then `setupCourse()`. */
  function AfterResize(r: Links, w: real, h: real, d: CourseDraws): Links
    requires Fits(d)
  {
    SetUp(r.(width := w, height := h), d)
  }

  /** One frame of a ball dropping into the cup: gravity, and it shrinks. */
  function Fall(b: Ball): Ball {
    var vy := b.vy + Gravity;
    b.(vy := vy, y := b.y + vy, radius := if b.radius > 0.5 then b.radius * 0.95 else b.radius)
  }

  /** The ball has dropped below the bottom of the cup. */
  predicate Dropped(b: Ball, height: real) {
    b.y - b.radius > CupY(height) + CupDepth
  }

  /**
   * A frame of the fall with the par recorded beside the score: once the
   * ball is down, the hole is complete, its strokes and par are recorded
   * and the dance starts.
   */
  function AfterFall(r: Links): Links {
    var b := Fall(r.ball);
    if Dropped(b, r.height) then
      r.(ball := b.(falling := false, moving := false),
         card := r.card.(completed := true, scores := r.card.scores + [r.card.hits],
                         pars := r.card.pars + [r.hole.par], dance := DanceDuration),
         shot := r.shot.(metering := false))
    else r.(ball := b)
  }

  /** `update()` for a falling ball as written: the score alone is recorded. */
  function AfterFallAsWritten(r: Links): Links {
    var b := Fall(r.ball);
    if Dropped(b, r.height) then
      r.(ball := b.(falling := false, moving := false),
         card := r.card.(completed := true, scores := r.card.scores + [r.card.hits], dance := DanceDuration),
         shot := r.shot.(metering := false))
    else r.(ball := b)
  }

  function Max(a: real, b: real): real {
    if a >= b then a else b
  }

  /**
   * The bunker latch: at rest in a bunker, the power drops to
   * max(5, 0.7 * power) once; out of the bunker the latch clears.
   */
  function AfterLatch(s: Shot, moving: bool, inBunker: bool): Shot {
    if !moving && inBunker then
      if !s.latched then s.(power := Max(5.0, s.power * 0.7), latched := true) else s
    else if !inBunker then s.(latched := false)
    else s
  }

  /** The motion of a flying ball over one frame, from the physics. */
  datatype Flight = Flight(x: real, y: real, vx: real, vy: real, moving: bool)

  function Fly(b: Ball, f: Flight): Ball {
    b.(x := f.x, y := f.y, vx := f.vx, vy := f.vy, moving := f.moving)
  }

  /**
   * One water obstacle's turn of the collision loop: a ball over the
   * water and touching the ground there costs a stroke and is dropped
   * behind the water (but not left of x = radius), at rest.
   */
  function AfterWater(r: Links, o: Obstacle, height: real -> real): Links {
    if o.kind == Water && r.ball.x > o.x && r.ball.x < o.x + o.width &&
       r.ball.y + r.ball.radius >= height(r.ball.x)
    then
      var ground := height(r.ball.x);
      var x := o.x - r.ball.radius - 5.0;
      r.(card := r.card.(hits := r.card.hits + 1), shot := r.shot.(hazard := true),
         ball := r.ball.(x := if x < r.ball.radius then r.ball.radius else x,
                         y := ground - r.ball.radius, vx := 0.0, vy := 0.0, moving := false))
    else r
  }

  /**
   * The collision loop over the obstacles in order (trees act through the
   * flight): it touches only the ball, the strokes and the hazard flag, at
   * most one stroke per obstacle.
   */
  function AfterHazards(r: Links, obs: seq<Obstacle>, height: real -> real): (r': Links)
    ensures r'.card == r.card.(hits := r'.card.hits) && r'.shot == r.shot.(hazard := r'.shot.hazard)
    ensures r'.hole == r.hole && r'.obstacles == r.obstacles && r'.height == r.height && r'.width == r.width
    ensures r.card.hits <= r'.card.hits <= r.card.hits + |obs|
    ensures r'.card.hits == r.card.hits ==> r' == r
    decreases |obs|
  {
    if obs == [] then r
    else AfterWater(AfterHazards(r, obs[..|obs| - 1], height), obs[|obs| - 1], height)
  }

  /**
   * Past the overshoot limit: a stroke, and the ball back 30 short of the
   * limit on the tee line, at rest.
   */
  function AfterOvershoot(r: Links): Links {
    if r.ball.x > r.hole.maxDistance then
      r.(card := r.card.(hits := r.card.hits + 1), shot := r.shot.(hazard := true),
         ball := r.ball.(x := r.hole.maxDistance - 30.0, y := TeeY(r.height),
                         vx := 0.0, vy := 0.0, moving := false))
    else r
  }

  /** The ball is within the cup's radius of the pin and down at ground level. */
  predicate AtCup(b: Ball, pinX: real, height: real) {
    Within(b, pinX, CupY(height), CupRadius) && b.y + b.radius >= CupY(height)
  }

  /** The ball starts to drop into the cup, with the par recorded when it is down. */
  function AfterSink(r: Links): Links {
    if !r.card.completed && !r.ball.falling && AtCup(r.ball, r.hole.x, r.height) then
      r.(ball := r.ball.(falling := true, moving := true, vx := 0.0, vy := 0.0))
    else r
  }

  /** The sink test as written: the par is pushed as the drop starts. */
  function AfterSinkAsWritten(r: Links): Links {
    if !r.card.completed && !r.ball.falling && AtCup(r.ball, r.hole.x, r.height) then
      r.(ball := r.ball.(falling := true, moving := true, vx := 0.0, vy := 0.0),
         card := r.card.(pars := r.card.pars + [r.hole.par]))
    else r
  }

  /**
   * One frame's physics outcome: the flight of a moving ball and the
   * ground height `groundHeightAt` over the current layout.
   */
  datatype Frame = Frame(flight: Flight, height: real -> real)

  /** The countdown at the top of `update()`. */
  function Tick(r: Links): Links {
    r.(card := r.card.(dance := if r.card.dance > 0 then r.card.dance - 1 else r.card.dance))
  }

  /** The rest of a frame for a ball that is not falling, before the sink test. */
  function Play(r: Links, f: Frame): Links {
    var r1 := r.(shot := AfterLatch(r.shot, r.ball.moving, InBunker(r.ball, r.obstacles, f.height)));
    if r1.ball.moving then
      AfterOvershoot(AfterHazards(r1.(ball := Fly(r1.ball, f.flight)), r1.obstacles, f.height))
    else r1
  }

  /** `update()`, recording the par with the score. */
  function AfterUpdate(r: Links, f: Frame): Links {
    var r0 := Tick(r);
    if r0.ball.falling then AfterFall(r0) else AfterSink(Play(r0, f))
  }

  /** `update()` as written. */
  function AfterUpdateAsWritten(r: Links, f: Frame): Links {
    var r0 := Tick(r);
    if r0.ball.falling then AfterFallAsWritten(r0) else AfterSinkAsWritten(Play(r0, f))
  }

  /* ------------------------------------------------------------ properties */

  /** A new game: hole 1, no strokes, an empty scorecard, the ball at rest on the tee. */
  lemma StartRules(width: real, height: real, d: CourseDraws)
    requires Fits(d)
    ensures var r := Start(width, height, d);
      r.card == Card(1, 0, [], [], false, 0) &&
      r.ball == Ball(TeeX, TeeY(height), 0.0, 0.0, BallRadius, false, false) &&
      r.shot == Shot(10.0, false, false, false, TeeX, TeeY(height))
    ensures var r := Start(width, height, d);
      r.hole == PinHole(width, d.pin, d.overshoot) && r.obstacles == Layout(width, r.hole, d)
  {
  }

  /**
   * A shot taken back with R leaves the ball where it was, at rest; it
   * costs the shot and one more stroke, except on the first stroke of the
   * hole, which is simply taken back.
   */
  lemma RetakeAfterLaunch(r: Links, aim: Aim)
    requires !r.ball.moving
    ensures var r' := AfterRetake(AfterLaunch(r, aim));
      r'.ball.x == r'.shot.prevX == r.ball.x && r'.ball.y == r'.shot.prevY == r.ball.y &&
      !r'.ball.moving && !r'.ball.falling && r'.ball.radius == BallRadius && !r'.shot.hazard
    ensures AfterRetake(AfterLaunch(r, aim)).card.hits == if r.card.hits >= 1 then r.card.hits + 2 else r.card.hits + 1
  {
  }

  /**
   * After a water or out-of-bounds penalty, R is free once: it clears the
   * penalty instead of adding a stroke; a second R in a row costs one
   * (past the first stroke) and leaves the ball where it is.
   */
  lemma RetakeAfterPenalty(r: Links)
    requires r.shot.hazard
    ensures AfterRetake(r).card.hits == r.card.hits && !AfterRetake(r).shot.hazard
    ensures AfterRetake(AfterRetake(r)).card.hits == if r.card.hits > 1 then r.card.hits + 1 else r.card.hits
    ensures AfterRetake(AfterRetake(r)).ball == AfterRetake(r).ball
  {
  }

  /**
   * The second space press sets the power from the meter before it
   * launches, so the velocity depends only on the meter and the aim: the
   * bunker's power reduction never reaches a shot taken with the meter.
   */
  lemma SwingSetsPower(r: Links, percent: real, aim: Aim, p: real, q: real)
    requires !r.ball.moving && r.card.dance == 0 && r.shot.metering
    ensures var b := AfterSpace(r, percent, aim).ball;
      b.moving && b.vx == aim.cos * (percent / 4.0) && b.vy == -aim.sin * (percent / 4.0)
    ensures AfterSpace(r.(shot := r.shot.(power := p)), percent, aim) ==
            AfterSpace(r.(shot := r.shot.(power := q)), percent, aim)
  {
  }

  /** The first space press only starts the meter; nothing moves. */
  lemma SpaceStartsMeter(r: Links, percent: real, aim: Aim)
    requires !r.ball.moving && r.card.dance == 0 && !r.shot.metering
    ensures var r' := AfterSpace(r, percent, aim);
      r'.shot.metering && r'.ball == r.ball && r'.card == r.card
  {
  }

  /**
   * The bunker latch cuts the power once per stay in the sand, never below
   * 5, and never raises it from 5 or more; leaving the sand re-arms it.
   */
  lemma LatchRules(s: Shot)
    requires !s.latched
    ensures var s' := AfterLatch(s, false, true);
      s'.latched && 5.0 <= s'.power && (s.power >= 5.0 ==> s'.power <= s.power)
    ensures AfterLatch(AfterLatch(s, false, true), false, true) == AfterLatch(s, false, true)
    ensures !AfterLatch(AfterLatch(s, false, true), false, false).latched
  {
  }

  /**
   * The water test: a ball over the water and down at the ground is
   * stopped on the near side of it, on the ground, for a stroke; any other
   * ball passes untouched.
   */
  lemma WaterRules(r: Links, o: Obstacle, height: real -> real)
    requires o.kind == Water && 0.0 <= r.ball.radius < o.x
    ensures var r' := AfterWater(r, o, height);
      var wet := r.ball.x > o.x && r.ball.x < o.x + o.width && r.ball.y + r.ball.radius >= height(r.ball.x);
      (wet ==> r'.card.hits == r.card.hits + 1 && r'.shot.hazard && !r'.ball.moving && r'.ball.x < o.x &&
               r'.ball.radius <= r'.ball.x && r'.ball.y + r'.ball.radius == height(r.ball.x)) &&
      (!wet ==> r' == r)
  {
  }

  /** Past the overshoot limit the ball comes back inside it, at rest on the tee line, for a stroke. */
  lemma OvershootRules(r: Links)
    ensures var r' := AfterOvershoot(r);
      (r.ball.x > r.hole.maxDistance ==>
         r'.card.hits == r.card.hits + 1 && r'.shot.hazard && !r'.ball.moving &&
         r'.ball.x < r.hole.maxDistance && r'.ball.y == TeeY(r.height)) &&
      (r.ball.x <= r.hole.maxDistance ==> r' == r)
  {
  }

  /** `restartHole()` keeps the pin, the layout and the scorecard, and is done at once. */
  lemma RestartRules(r: Links)
    ensures var r' := AfterRestart(r);
      r'.card.hits == 0 && !r'.card.completed &&
      r'.ball == Ball(TeeX, TeeY(r.height), 0.0, 0.0, BallRadius, false, false) &&
      r'.hole == r.hole && r'.obstacles == r.obstacles && r'.card.scores == r.card.scores &&
      r'.card.pars == r.card.pars && r'.card.current == r.card.current
    ensures AfterRestart(AfterRestart(r)) == AfterRestart(r)
  {
  }

  /**
   * `nextHole()`: past the last hole only the counter moves; otherwise a
   * fresh hole with no strokes and the ball on its tee, the scorecard kept.
   */
  lemma NextHoleRules(r: Links, d: CourseDraws)
    requires Fits(d)
    ensures var r' := AfterNextHole(r, d);
      r'.card.current == r.card.current + 1 && r'.card.scores == r.card.scores && r'.card.pars == r.card.pars
    ensures r.card.current >= TotalHoles ==>
      AfterNextHole(r, d) == r.(card := r.card.(current := r.card.current + 1))
    ensures var r' := AfterNextHole(r, d);
      r.card.current < TotalHoles ==>
        r'.card.hits == 0 && !r'.card.completed && r'.card.dance == 0 && !r'.shot.hazard &&
        r'.ball.x == TeeX && r'.ball.y == TeeY(r.height) && r'.ball.radius == BallRadius &&
        !r'.ball.falling && r'.hole == PinHole(r.width, d.pin, d.overshoot)
  {
  }

  /**
   * A frame of the drop: the ball speeds up and, while larger than 0.5,
   * shrinks by 5%; once below the cup the hole is complete and its strokes
   * and par go onto the scorecard together.
   */
  lemma FallRules(r: Links)
    requires r.ball.falling && !r.card.completed && r.ball.radius > 0.0
    ensures var r' := AfterFall(r);
      r'.ball.vy == r.ball.vy + Gravity && 0.0 < r'.ball.radius <= r.ball.radius &&
      (r.ball.radius > 0.5 ==> r'.ball.radius < r.ball.radius)
    ensures var r' := AfterFall(r);
      r'.card.completed ==>
        r'.card.scores == r.card.scores + [r.card.hits] && r'.card.pars == r.card.pars + [r.hole.par] &&
        r'.card.dance == DanceDuration && !r'.ball.moving && !r'.ball.falling
    ensures var r' := AfterFall(r);
      !r'.card.completed ==> r'.card == r.card && r'.ball.falling
  {
  }

  /* ------------------------------------------------------------ scorecard */

  /** What the player and the game's clock do to a round. */
  datatype Event =
    | Press(percent: real, aim: Aim)   // the space bar, with the meter reading
    | RetakeKey                        // R
    | RestartKey                       // N
    | Advance(d: CourseDraws)          // the timer that calls `nextHole()` after a sink
    | Resize(w: real, h: real, d: CourseDraws)
    | Animate(frame: Frame)            // one `update()`

  predicate Allowed(e: Event) {
    (e.Advance? || e.Resize?) ==> Fits(e.d)
  }

  function Apply(r: Links, e: Event): Links
    requires Allowed(e)
  {
    match e
    case Press(percent, aim) => AfterSpace(r, percent, aim)
    case RetakeKey => AfterRetake(r)
    case RestartKey => AfterRestart(r)
    case Advance(d) => AfterNextHole(r, d)
    case Resize(w, h, d) => AfterResize(r, w, h, d)
    case Animate(f) => AfterUpdate(r, f)
  }

  /** The same, with `update()` as written. */
  function ApplyAsWritten(r: Links, e: Event): Links
    requires Allowed(e)
  {
    if e.Animate? then AfterUpdateAsWritten(r, e.frame) else Apply(r, e)
  }

  function Replay(r: Links, es: seq<Event>): Links
    requires forall e <- es :: Allowed(e)
    decreases |es|
  {
    if es == [] then r else Apply(Replay(r, es[..|es| - 1]), es[|es| - 1])
  }

  function ReplayAsWritten(r: Links, es: seq<Event>): Links
    requires forall e <- es :: Allowed(e)
    decreases |es|
  {
    if es == [] then r else ApplyAsWritten(ReplayAsWritten(r, es[..|es| - 1]), es[|es| - 1])
  }

  /** The two lists of the scorecard, unchanged or extended by one hole's strokes and par. */
  predicate Recorded(c: Card, c': Card, par: int) {
    (c'.scores == c.scores && c'.pars == c.pars) ||
    (c'.scores == c.scores + [c.hits] && c'.pars == c.pars + [par])
  }

  /** Every event extends the scorecard by whole holes: a score and a par together, or neither. */
  lemma ApplyKeepsLedger(r: Links, e: Event)
    requires Allowed(e)
    ensures Recorded(r.card, Apply(r, e).card, r.hole.par)
  {
    match e
    case Animate(f) =>
      var r0 := Tick(r);
      if !r0.ball.falling {
        var r1 := Play(r0, f);
        assert r1.card.scores == r.card.scores && r1.card.pars == r.card.pars;
      }
    case _ =>
  }

  /** Over any run of events the scorecard keeps one par per score, and only grows. */
  lemma {:induction false} LedgerAlways(r: Links, es: seq<Event>)
    requires forall e <- es :: Allowed(e)
    requires |r.card.scores| == |r.card.pars|
    ensures var c := Replay(r, es).card;
      |c.scores| == |c.pars| && r.card.scores <= c.scores && r.card.pars <= c.pars
    decreases |es|
  {
    if es != [] {
      var n := |es| - 1;
      assert forall e <- es[..n] :: Allowed(e);
      LedgerAlways(r, es[..n]);
      ApplyKeepsLedger(Replay(r, es[..n]), es[n]);
    }
  }

  /**
   * `updateScoreboard()`'s total: the sum over the holes of strokes minus
   * par, one par per score.
   */
  function Total(scores: seq<int>, pars: seq<int>): int
    requires |scores| <= |pars|
    decreases |scores|
  {
    if scores == [] then 0
    else
      var n := |scores| - 1;
      Total(scores[..n], pars) + (scores[n] - pars[n])
  }

  function Sum(s: seq<int>): int
    decreases |s|
  {
    if s == [] then 0 else Sum(s[..|s| - 1]) + s[|s| - 1]
  }

  /** The total against par is all strokes less the par of the holes played. */
  lemma {:induction false} TotalIsDifference(scores: seq<int>, pars: seq<int>)
    requires |scores| <= |pars|
    ensures Total(scores, pars) == Sum(scores) - Sum(pars[..|scores|])
    decreases |scores|
  {
    if scores != [] {
      var n := |scores| - 1;
      TotalIsDifference(scores[..n], pars);
      assert pars[..|scores|][..n] == pars[..n];
    }
  }

  /**
   * The drop into the cup as written records the par as it starts: an R
   * during the drop puts the ball back on the tee uncompleted, and sinking
   * it again records the par a second time, while no score is recorded
   * yet. From then on `updateScoreboard()` pairs each score with an earlier
   * hole's par. Here the first shot lands over the cup, R is pressed while
   * the ball drops, and the second shot lands in the cup again.
   */
  lemma ParPushedTwice()
    ensures var r := InFlight(); var es := Resunk();
      ReplayAsWritten(r, es).card.pars == [3, 3] && ReplayAsWritten(r, es).card.scores == []
  {
    var r, f := InFlight(), Landing();
    var es := Resunk();
    var es1, es2, es3, es4 := es[..1], es[..2], es[..3], es[..4];
    assert es1[..0] == [] && es2[..1] == es1 && es3[..2] == es2 && es4[..3] == es3 && es[..4] == es4;
    var cup := Ball(500.0, 575.0, 0.0, 0.0, BallRadius, true, true);
    var tee := Ball(TeeX, 570.0, 0.0, 0.0, BallRadius, false, false);
    var shot := Shot(15.0, false, false, false, TeeX, 570.0);
    var swung := Ball(TeeX, 570.0, 10.0, 0.0, BallRadius, true, false);
    assert AtCup(Fly(r.ball, f.flight), r.hole.x, r.height);
    assert !InBunker(r.ball, [], f.height) && !InBunker(swung, [], f.height);
    assert Play(Tick(r), f) == r.(ball := Fly(r.ball, f.flight));
    // as written: the par goes onto the card at each of the two sinks
    var w1 := r.(ball := cup, card := r.card.(pars := [3]));
    assert ReplayAsWritten(r, es1) == w1;
    var w2 := w1.(ball := tee, shot := shot);
    assert ReplayAsWritten(r, es2) == w2;
    assert ReplayAsWritten(r, es3) == w2.(shot := shot.(metering := true));
    var w4 := w2.(ball := swung, shot := shot.(power := 20.0), card := w1.card.(hits := 2));
    assert ReplayAsWritten(r, es4) == w4;
    assert Play(Tick(w4), f) == w4.(ball := Fly(swung, f.flight));
    assert ReplayAsWritten(r, es) == w4.(ball := cup, card := w4.card.(pars := [3, 3]));
  }

  /** With the par recorded together with the score, the same play leaves the card empty until the ball is down. */
  lemma ResunkRecordsNothing()
    ensures Replay(InFlight(), Resunk()).card.pars == [] && Replay(InFlight(), Resunk()).card.scores == []
  {
    var r, f := InFlight(), Landing();
    var es := Resunk();
    var es1, es2, es3, es4 := es[..1], es[..2], es[..3], es[..4];
    assert es1[..0] == [] && es2[..1] == es1 && es3[..2] == es2 && es4[..3] == es3 && es[..4] == es4;
    var cup := Ball(500.0, 575.0, 0.0, 0.0, BallRadius, true, true);
    var tee := Ball(TeeX, 570.0, 0.0, 0.0, BallRadius, false, false);
    var shot := Shot(15.0, false, false, false, TeeX, 570.0);
    var swung := Ball(TeeX, 570.0, 10.0, 0.0, BallRadius, true, false);
    assert AtCup(Fly(r.ball, f.flight), r.hole.x, r.height);
    assert !InBunker(r.ball, [], f.height) && !InBunker(swung, [], f.height);
    assert Play(Tick(r), f) == r.(ball := Fly(r.ball, f.flight));
    assert Replay(r, es1) == r.(ball := cup);
    assert Replay(r, es2) == r.(ball := tee, shot := shot);
    assert Replay(r, es3) == r.(ball := tee, shot := shot.(metering := true));
    var c4 := r.(ball := swung, shot := shot.(power := 20.0), card := r.card.(hits := 2));
    assert Replay(r, es4) == c4;
    assert Play(Tick(c4), f) == c4.(ball := Fly(swung, f.flight));
    assert Replay(r, es) == c4.(ball := cup);
  }

  /** The first stroke of a 135-yard par 3 in flight from the tee, the pin at 500 on a 1000 by 600 canvas. */
  function InFlight(): Links {
    Links(Card(1, 1, [], [], false, 0), Shot(10.0, false, false, false, TeeX, 570.0),
          Ball(400.0, 500.0, 5.0, 2.0, BallRadius, true, false), Hole(500.0, 700.0, 135, 3), [],
          1000.0, 600.0)
  }

  /** A frame on flat ground at 580 in which the ball comes to rest over the cup. */
  function Landing(): Frame {
    Frame(Flight(500.0, 575.0, 0.0, 0.0, false), x => 580.0)
  }

  /** The ball lands over the cup; R while it drops; two space presses swing again; it lands over the cup again. */
  function Resunk(): seq<Event> {
    [Animate(Landing()), RetakeKey, Press(40.0, Aim(1.0, 0.0)), Press(40.0, Aim(1.0, 0.0)), Animate(Landing())]
  }

  /* ----------------------------------------------------------------- game */

  /**
   * `obstacles.push(createObstacle(...))` for request `i`: the obstacles
   * placed so far grow by the one placed for it.
   */
  method PushObstacle(obs: seq<Obstacle>, avoid: seq<Span>, reqs: seq<Request>, places: seq<seq<real>>, i: nat)
    returns (obs': seq<Obstacle>)
    requires i < |reqs| && Drawn(places, |reqs|)
    requires obs == Placed(avoid, reqs[..i], places)
    ensures obs' == Placed(avoid, reqs[..i + 1], places)
  {
    var ob := CreateObstacle(obs, avoid, reqs[i], places[i]);
    assert reqs[..i + 1][..i] == reqs[..i];
    obs' := obs + [ob];
  }

  /**
   * The obstacles of `setupCourse()`, pushed in order: the tree loop, then
   * the hill, the water and the bunker, each kept clear of the green.
   */
  method PlaceObstacles(width: real, h: Hole, d: CourseDraws) returns (obs: seq<Obstacle>)
    requires Fits(d)
    ensures obs == Layout(width, h, d)
  {
    var avoid := [GreenSpan(h)];
    var n := TreeCount(d.trees);
    var reqs := Requests(width, d, n);
    obs := [];
    for i := 0 to n
      invariant obs == Placed(avoid, reqs[..i], d.places)
    {
      obs := PushObstacle(obs, avoid, reqs, d.places, i);
    }
    obs := PushObstacle(obs, avoid, reqs, d.places, n);
    obs := PushObstacle(obs, avoid, reqs, d.places, n + 1);
    obs := PushObstacle(obs, avoid, reqs, d.places, n + 2);
    assert reqs[..n + 3] == reqs;
  }

  /**
   * The game's globals, changed in place by the key handlers, the timers
   * and the animation loop; the scorecard and the shot globals are kept as
   * one record each, the ball and hole objects as values.
   */
  class Game {
    var card: Card
    var shot: Shot
    var ball: Ball
    var hole: Hole
    var obstacles: seq<Obstacle>
    var width: real
    var height: real

    function State(): Links
      reads this
    {
      Links(card, shot, ball, hole, obstacles, width, height)
    }

    /** The page load on a `w` by `h` canvas. */
    constructor(w: real, h: real, d: CourseDraws)
      requires Fits(d)
      ensures State() == Start(w, h, d)
    {
      card := Card(1, 0, [], [], false, 0);
      shot := Shot(10.0, false, false, false, TeeX, 0.0);
      ball := Ball(TeeX, 0.0, 0.0, 0.0, BallRadius, false, false);
      hole := Hole(0.0, 0.0, 0, 4);
      obstacles := [];
      width := w;
      height := h;
      new;
      SetupCourse(d);
    }

    /** `setupCourse()`: the pin, the trees, hill, water and bunker, and the ball on the tee. */
    method SetupCourse(d: CourseDraws)
      requires Fits(d)
      modifies this
      ensures State() == SetUp(old(State()), d)
    {
      var w, tee := width, TeeY(height);
      var h := PinHole(w, d.pin, d.overshoot);
      var placed := PlaceObstacles(w, h, d);
      hole, obstacles := h, placed;
      ball := ball.(x := TeeX, y := tee);
      shot := shot.(prevX := TeeX, prevY := tee);
    }

    /** `launch()`. */
    method Launch(aim: Aim)
      modifies this
      ensures State() == AfterLaunch(old(State()), aim)
    {
      if ball.moving {
        return;
      }
      var scaled := shot.power * PowerScale;
      shot := shot.(prevX := ball.x, prevY := ball.y, hazard := false);
      ball := ball.(vx := aim.cos * scaled, vy := -aim.sin * scaled, moving := true);
      card := card.(hits := card.hits + 1);
    }

    /** The space bar, with the meter at `percent`. */
    method Space(percent: real, aim: Aim)
      modifies this
      ensures State() == AfterSpace(old(State()), percent, aim)
    {
      if ball.moving || card.dance != 0 {
        return;
      }
      if !shot.metering {
        shot := shot.(metering := true);
      } else {
        shot := shot.(metering := false, power := percent / 100.0 * MaxPower);
        Launch(aim);
      }
    }

    /** The R key. */
    method Retake()
      modifies this
      ensures State() == AfterRetake(old(State()))
    {
      ball := ball.(x := shot.prevX, y := shot.prevY, vx := 0.0, vy := 0.0, moving := false,
                    radius := BallRadius, falling := false);
      shot := shot.(power := 15.0, metering := false);
      if !shot.hazard && card.hits > 1 {
        card := card.(hits := card.hits + 1);
      } else {
        shot := shot.(hazard := false);
      }
      shot := shot.(prevX := ball.x, prevY := ball.y);
      card := card.(dance := 0);
    }

    /** `restartHole()`, the N key. */
    method Restart()
      modifies this
      ensures State() == AfterRestart(old(State()))
    {
      card := card.(hits := 0, completed := false, dance := 0);
      ball := Ball(TeeX, TeeY(height), 0.0, 0.0, BallRadius, false, false);
      shot := shot.(power := 15.0, metering := false, hazard := false, prevX := ball.x, prevY := ball.y);
    }

    /** `nextHole()`. */
    method NextHole(d: CourseDraws)
      requires Fits(d)
      modifies this
      ensures State() == AfterNextHole(old(State()), d)
    {
      card := card.(current := card.current + 1);
      if card.current > TotalHoles {
        return;
      }
      card := card.(hits := 0, completed := false, dance := 0);
      SetupCourse(d);
      ball := ball.(radius := BallRadius, falling := false);
      shot := shot.(hazard := false);
    }

    /** The resize handler. */
    method Resize(w: real, h: real, d: CourseDraws)
      requires Fits(d)
      modifies this
      ensures State() == AfterResize(old(State()), w, h, d)
    {
      width, height := w, h;
      SetupCourse(d);
    }

    /** `update()`, with the frame's flight and ground from the physics. */
    method Update(f: Frame)
      modifies this
      ensures State() == AfterUpdate(old(State()), f)
    {
      if card.dance > 0 {
        card := card.(dance := card.dance - 1);
      }
      if ball.falling {
        Drop();
        return;
      }
      Latch(InBunker(ball, obstacles, f.height));
      if ball.moving {
        ball := ball.(x := f.flight.x, y := f.flight.y, vx := f.flight.vx, vy := f.flight.vy,
                      moving := f.flight.moving);
        Hazards(f.height);
        Overshoot();
      }
      Sink();
    }

    /** The falling branch of `update()`. */
    method Drop()
      modifies this
      ensures State() == AfterFall(old(State()))
    {
      var vy := ball.vy + Gravity;
      ball := ball.(vy := vy, y := ball.y + vy);
      if ball.radius > 0.5 {
        ball := ball.(radius := ball.radius * 0.95);
      }
      if Dropped(ball, height) {
        ball := ball.(falling := false, moving := false);
        card := card.(completed := true, scores := card.scores + [card.hits],
                      pars := card.pars + [hole.par], dance := DanceDuration);
        shot := shot.(metering := false);
      }
    }

    /** The bunker latch of `update()`. */
    method Latch(inBunker: bool)
      modifies this
      ensures State() == old(State()).(shot := AfterLatch(old(shot), old(ball.moving), inBunker))
    {
      if !ball.moving && inBunker {
        if !shot.latched {
          shot := shot.(power := Max(5.0, shot.power * 0.7), latched := true);
        }
      } else if !inBunker {
        shot := shot.(latched := false);
      }
    }

    /** The `obstacles.forEach` collision loop of `update()`, for the water. */
    method Hazards(height: real -> real)
      modifies this
      ensures State() == AfterHazards(old(State()), obstacles, height)
    {
      var obs := obstacles;
      for i := 0 to |obs|
        invariant obstacles == obs
        invariant State() == AfterHazards(old(State()), obs[..i], height)
      {
        Splash(obs[i], height);
        assert obs[..i + 1][..i] == obs[..i];
      }
      assert obs[..|obs|] == obs;
    }

    /** One water obstacle's turn of the collision loop. */
    method Splash(o: Obstacle, height: real -> real)
      modifies this
      ensures State() == AfterWater(old(State()), o, height)
    {
      if o.kind == Water && ball.x > o.x && ball.x < o.x + o.width {
        var ground := height(ball.x);
        if ball.y + ball.radius >= ground {
          card := card.(hits := card.hits + 1);
          shot := shot.(hazard := true);
          var x := o.x - ball.radius - 5.0;
          if x < ball.radius {
            x := ball.radius;
          }
          ball := ball.(x := x, y := ground - ball.radius, vx := 0.0, vy := 0.0, moving := false);
        }
      }
    }

    /** The out-of-bounds test of `update()`. */
    method Overshoot()
      modifies this
      ensures State() == AfterOvershoot(old(State()))
    {
      if ball.x > hole.maxDistance {
        card := card.(hits := card.hits + 1);
        shot := shot.(hazard := true);
        ball := ball.(x := hole.maxDistance - 30.0, y := TeeY(height), vx := 0.0, vy := 0.0, moving := false);
      }
    }

    /** The sink test of `update()`. */
    method Sink()
      modifies this
      ensures State() == AfterSink(old(State()))
    {
      if !card.completed && !ball.falling && AtCup(ball, hole.x, height) {
        ball := ball.(falling := true, moving := true, vx := 0.0, vy := 0.0);
      }
    }
  }
}
