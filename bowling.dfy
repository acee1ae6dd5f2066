/**
 * Ten-pin bowling (games/bowling/bowling.js): the rack of pins, the score
 * sheet over a flat list of rolls, and the frame machine that records each
 * roll and decides whether the frame goes on, the rack is reset or the game
 * ends.
 */
module Bowling {

  /* ------------------------------------------------------------------ pins */

  const BallRadius: real := 10.0
  const Speed: real := 8.0
  /** Vertical position of the head pin and the distance between rows. */
  const RackTop: real := 100.0
  const Spacing: real := 26.0

  datatype Pin = Pin(x: real, y: real, knocked: bool)

  /** The pins in rows 0 to `r - 1`: 0 + 1 + ... + r. */
  function Triangle(r: nat): nat {
    if r == 0 then 0 else Triangle(r - 1) + r
  }

  /** Position of pin `i` of row `r` in the list `setupPins` builds. */
  function Slot(r: nat, i: nat): nat {
    Triangle(r) + i
  }

  /** Pin `i` of row `r`: `(2i - r)` half-spacings off the middle of the lane, one spacing lower per row. */
  function PinAt(width: real, r: nat, i: nat): Pin {
    Pin(width / 2.0 + ((i * 2 - r) as real) * (Spacing / 2.0), RackTop + (r as real) * Spacing, false)
  }

  /** Row `r` of the rack. */
  function RackRow(width: real, r: nat): (row: seq<Pin>)
    ensures |row| == r + 1
  {
    seq(r + 1, i requires 0 <= i <= r => PinAt(width, r, i))
  }

  /** The row built pin by pin, as the inner loop of `setupPins` does. */
  lemma RowStep(width: real, r: nat, i: nat)
    requires i <= r
    ensures RackRow(width, r)[..i + 1] == RackRow(width, r)[..i] + [PinAt(width, r, i)]
  {
    assert RackRow(width, r)[..i + 1] == RackRow(width, r)[..i] + [RackRow(width, r)[i]];
  }

  /** The first `n` rows, head pin first. */
  function RackRows(width: real, n: nat): seq<Pin> {
    if n == 0 then [] else RackRows(width, n - 1) + RackRow(width, n - 1)
  }

  /** Rows 1 to `n` hold 1 + 2 + ... + n pins. */
  lemma {:induction false} RowsLength(width: real, n: nat)
    ensures |RackRows(width, n)| == Slot(n, 0)
  {
    if n > 0 {
      RowsLength(width, n - 1);
    }
  }

  /** The ten pins of `setupPins`, in rows of one to four. */
  function Rack(width: real): seq<Pin> {
    RackRows(width, 4)
  }

  /** How many of the first `n` pins are still up. */
  function StandingBelow(pins: seq<Pin>, n: nat): (c: nat)
    requires n <= |pins|
    ensures c <= n
  {
    if n == 0 then 0 else StandingBelow(pins, n - 1) + (if pins[n - 1].knocked then 0 else 1)
  }

  /** `pins.filter((p) => !p.knocked).length`. */
  function Standing(pins: seq<Pin>): nat {
    StandingBelow(pins, |pins|)
  }

  lemma {:induction false} RowsAt(width: real, n: nat, r: nat, i: nat)
    requires i <= r < n
    ensures Slot(r, i) < |RackRows(width, n)|
    ensures RackRows(width, n)[Slot(r, i)] == RackRow(width, r)[i]
  {
    RowsLength(width, n - 1);
    if r < n - 1 {
      RowsAt(width, n - 1, r, i);
      assert Slot(r, i) < Slot(r + 1, 0) <= Slot(n - 1, 0) by {
        SlotGrows(r + 1, n - 1);
      }
    }
  }

  lemma {:induction false} SlotGrows(r: nat, n: nat)
    requires r <= n
    ensures Slot(r, 0) <= Slot(n, 0)
    decreases n
  {
    if r < n {
      SlotGrows(r, n - 1);
    }
  }

  lemma {:induction false} NoneKnocked(pins: seq<Pin>, n: nat)
    requires n <= |pins|
    requires forall k :: 0 <= k < n ==> !pins[k].knocked
    ensures StandingBelow(pins, n) == n
  {
    if n > 0 {
      NoneKnocked(pins, n - 1);
    }
  }

  /** The rack has ten pins, each row's pins at its own positions. */
  lemma RackSize(width: real)
    ensures |Rack(width)| == 10
    ensures forall r: nat, i: nat {:trigger Slot(r, i)} :: i <= r < 4 ==> Slot(r, i) < 10
  {
    RowsLength(width, 4);
    assert Triangle(4) == 10;
    forall r: nat, i: nat | i <= r < 4 ensures Slot(r, i) < 10 {
      assert Triangle(3) == 6;
      SlotGrows(r, 3);
    }
  }

  /** Row `r` holds `r + 1` pins at height 100 + 26r, pin `i` of it (2i - r) * 13 off the middle of the lane. */
  lemma RackPins(width: real)
    ensures |Rack(width)| == 10
    ensures forall r: nat, i: nat {:trigger Slot(r, i)} :: i <= r < 4 ==> (Slot(r, i) < 10 &&
      Rack(width)[Slot(r, i)] == Pin(width / 2.0 + ((2 * i - r) as real) * 13.0, 100.0 + (r as real) * 26.0, false))
  {
    RackSize(width);
    forall r: nat, i: nat | i <= r < 4
      ensures Rack(width)[Slot(r, i)] == Pin(width / 2.0 + ((2 * i - r) as real) * 13.0, 100.0 + (r as real) * 26.0, false)
    {
      RowsAt(width, 4, r, i);
    }
  }

  /** Every pin of a fresh rack stands. */
  lemma RackStanding(width: real)
    ensures Standing(Rack(width)) == 10
  {
    RackSize(width);
    var rack := Rack(width);
    forall k | 0 <= k < 10 ensures !rack[k].knocked {
      assert Triangle(1) == 1 && Triangle(2) == 3 && Triangle(3) == 6;
      var r := if k < 1 then 0 else if k < 3 then 1 else if k < 6 then 2 else 3;
      RowsAt(width, 4, r, k - Triangle(r));
    }
    NoneKnocked(rack, 10);
  }

  /** Each row is symmetric about the middle of the lane. */
  lemma RackSymmetric(width: real)
    ensures |Rack(width)| == 10
    ensures forall r: nat, i: nat {:trigger Slot(r, i)} :: i <= r < 4 ==> (Slot(r, i) < 10 && Slot(r, r - i) < 10 &&
      Rack(width)[Slot(r, i)].x + Rack(width)[Slot(r, r - i)].x == width)
  {
    RackPins(width);
  }

  /* ------------------------------------------------------------- the sheet */

  /** `rolls[i] || 0`: a roll not yet made counts as nothing. */
  function Roll(rolls: seq<int>, i: nat): int {
    if i < |rolls| then rolls[i] else 0
  }

  /** A strike takes one roll of the list, any other frame two. */
  function Width(rolls: seq<int>, r: nat): nat
    requires r < |rolls|
  {
    if rolls[r] == 10 then 1 else 2
  }

  /** The points of the frame whose first roll is `rolls[r]`. */
  function FramePoints(rolls: seq<int>, r: nat): int
    requires r < |rolls|
  {
    if rolls[r] == 10 then 10 + Roll(rolls, r + 1) + Roll(rolls, r + 2)
    else if rolls[r] + Roll(rolls, r + 1) == 10 then 10 + Roll(rolls, r + 2)
    else rolls[r] + Roll(rolls, r + 1)
  }

  /** Where frame `f` begins in the list; past the end once the rolls run out. */
  function Start(rolls: seq<int>, f: nat): nat {
    if f == 0 then 0
    else
      var p := Start(rolls, f - 1);
      if p < |rolls| then p + Width(rolls, p) else p
  }

  /** The points of the first `n` frames; frames that have not begun add nothing. */
  function ScoreTo(rolls: seq<int>, n: nat): int {
    if n == 0 then 0
    else
      var p := Start(rolls, n - 1);
      ScoreTo(rolls, n - 1) + (if p < |rolls| then FramePoints(rolls, p) else 0)
  }

  /** The game score of `computeScore`: ten frames at most. */
  function Score(rolls: seq<int>): int {
    ScoreTo(rolls, 10)
  }

  /** The running totals of `updateScoreboard`, one per begun frame among the first `n`. */
  function TotalsTo(rolls: seq<int>, n: nat): seq<int> {
    if n == 0 then []
    else if Start(rolls, n - 1) < |rolls| then TotalsTo(rolls, n - 1) + [ScoreTo(rolls, n)]
    else TotalsTo(rolls, n - 1)
  }

  function Totals(rolls: seq<int>): seq<int> {
    TotalsTo(rolls, 10)
  }

  predicate AllPinCounts(rolls: seq<int>) {
    forall k :: 0 <= k < |rolls| ==> 0 <= rolls[k] <= 10
  }

  predicate NonNegative(rolls: seq<int>) {
    forall k :: 0 <= k < |rolls| ==> 0 <= rolls[k]
  }

  /** Once the rolls run out no later frame begins, so nothing more is scored. */
  lemma {:induction false} ScoreStops(rolls: seq<int>, f: nat, n: nat)
    requires f <= n && Start(rolls, f) >= |rolls|
    ensures Start(rolls, n) == Start(rolls, f)
    ensures ScoreTo(rolls, n) == ScoreTo(rolls, f)
    ensures TotalsTo(rolls, n) == TotalsTo(rolls, f)
  {
    if f < n {
      ScoreStops(rolls, f, n - 1);
    }
  }

  /** `computeScore`. */
  method ComputeScore(rolls: seq<int>) returns (score: int)
    ensures score == Score(rolls)
  {
    score := 0;
    var r := 0;
    var f := 0;
    while f < 10
      invariant 0 <= f <= 10
      invariant r == Start(rolls, f) && score == ScoreTo(rolls, f)
    {
      if r >= |rolls| {
        ScoreStops(rolls, f, 10);
        return;
      }
      var first := rolls[r];
      if first == 10 {
        score := score + 10 + Roll(rolls, r + 1) + Roll(rolls, r + 2);
        r := r + 1;
      } else {
        var second := Roll(rolls, r + 1);
        var frameTotal := first + second;
        if frameTotal == 10 {
          score := score + 10 + Roll(rolls, r + 2);
        } else {
          score := score + frameTotal;
        }
        r := r + 2;
      }
      f := f + 1;
    }
  }

  /** The frame-by-frame totals `updateScoreboard` lists. */
  method ScoreboardTotals(rolls: seq<int>) returns (totals: seq<int>)
    ensures totals == Totals(rolls)
  {
    totals := [];
    var score := 0;
    var r := 0;
    var f := 0;
    while f < 10 && r < |rolls|
      invariant 0 <= f <= 10
      invariant r == Start(rolls, f) && score == ScoreTo(rolls, f) && totals == TotalsTo(rolls, f)
    {
      var first := rolls[r];
      if first == 10 {
        score := score + 10 + Roll(rolls, r + 1) + Roll(rolls, r + 2);
        totals := totals + [score];
        r := r + 1;
      } else {
        var second := Roll(rolls, r + 1);
        var frameTotal := first + second;
        if frameTotal == 10 {
          score := score + 10 + Roll(rolls, r + 2);
        } else {
          score := score + frameTotal;
        }
        totals := totals + [score];
        r := r + 2;
      }
      f := f + 1;
    }
    if f < 10 {
      ScoreStops(rolls, f, 10);
    }
  }

  /** Frames begin one after another: a later frame never begins before an earlier one. */
  lemma {:induction false} StartGrows(rolls: seq<int>, f: nat, n: nat)
    requires f <= n
    ensures Start(rolls, f) <= Start(rolls, n)
  {
    if f < n {
      StartGrows(rolls, f, n - 1);
    }
  }

  /**
   * One total per begun frame, at most ten, none before the first roll; the
   * last total is the game score.
   */
  lemma {:induction false} TotalsEndInScoreTo(rolls: seq<int>, n: nat)
    ensures |TotalsTo(rolls, n)| <= n
    ensures TotalsTo(rolls, n) == [] <==> n == 0 || rolls == []
    ensures TotalsTo(rolls, n) != [] ==> TotalsTo(rolls, n)[|TotalsTo(rolls, n)| - 1] == ScoreTo(rolls, n)
  {
    if n > 0 {
      TotalsEndInScoreTo(rolls, n - 1);
      StartGrows(rolls, 0, n - 1);
    }
  }

  lemma LastTotalIsScore(rolls: seq<int>)
    ensures |Totals(rolls)| <= 10
    ensures Totals(rolls) == [] <==> rolls == []
    ensures Totals(rolls) != [] ==> Totals(rolls)[|Totals(rolls)| - 1] == Score(rolls)
    ensures rolls == [] ==> Score(rolls) == 0
  {
    TotalsEndInScoreTo(rolls, 10);
    if rolls == [] {
      ScoreStops(rolls, 0, 10);
    }
  }

  /** With no negative roll a frame is worth at least nothing, and with at most ten pins a roll, at most 30. */
  lemma FramePointsRange(rolls: seq<int>, r: nat)
    requires r < |rolls|
    ensures NonNegative(rolls) ==> FramePoints(rolls, r) >= 0
    ensures AllPinCounts(rolls) ==> FramePoints(rolls, r) <= 30
  {
  }

  lemma {:induction false} ScoreToRange(rolls: seq<int>, n: nat)
    ensures NonNegative(rolls) ==> 0 <= ScoreTo(rolls, n)
    ensures AllPinCounts(rolls) ==> 0 <= ScoreTo(rolls, n) <= 30 * n
  {
    if n > 0 {
      ScoreToRange(rolls, n - 1);
      var p := Start(rolls, n - 1);
      if p < |rolls| {
        FramePointsRange(rolls, p);
      }
    }
  }

  /** A game of real pin counts scores between 0 and 300. */
  lemma ScoreRange(rolls: seq<int>)
    requires AllPinCounts(rolls)
    ensures 0 <= Score(rolls) <= 300
  {
    ScoreToRange(rolls, 10);
  }

  /** Twelve strikes make the perfect game. */
  lemma PerfectGame()
    ensures Score(seq(12, _ => 10)) == 300
  {
    var rolls: seq<int> := seq(12, _ => 10);
    forall f: nat | f <= 10 ensures Start(rolls, f) == f {
      StartOfStrikes(rolls, f);
    }
    assert ScoreTo(rolls, 10) == 300 by {
      forall n: nat | n <= 10 ensures ScoreTo(rolls, n) == 30 * n {
        StrikesScore(rolls, n);
      }
    }
  }

  lemma {:induction false} StartOfStrikes(rolls: seq<int>, f: nat)
    requires rolls == seq(12, _ => 10) && f <= 10
    ensures Start(rolls, f) == f
  {
    if f > 0 {
      StartOfStrikes(rolls, f - 1);
    }
  }

  lemma {:induction false} StrikesScore(rolls: seq<int>, n: nat)
    requires rolls == seq(12, _ => 10) && n <= 10
    ensures ScoreTo(rolls, n) == 30 * n
  {
    if n > 0 {
      StrikesScore(rolls, n - 1);
      StartOfStrikes(rolls, n - 1);
    }
  }

  /** With no negative roll, the running totals never go down. */
  lemma {:induction false} TotalsToAscend(rolls: seq<int>, n: nat)
    requires NonNegative(rolls)
    ensures forall i, j :: 0 <= i < j < |TotalsTo(rolls, n)| ==> TotalsTo(rolls, n)[i] <= TotalsTo(rolls, n)[j]
    ensures forall i :: 0 <= i < |TotalsTo(rolls, n)| ==> TotalsTo(rolls, n)[i] <= ScoreTo(rolls, n)
  {
    if n > 0 {
      TotalsToAscend(rolls, n - 1);
      var p := Start(rolls, n - 1);
      if p < |rolls| {
        FramePointsRange(rolls, p);
      }
    }
  }

  lemma TotalsAscend(rolls: seq<int>)
    requires NonNegative(rolls)
    ensures forall i, j :: 0 <= i < j < |Totals(rolls)| ==> Totals(rolls)[i] <= Totals(rolls)[j]
  {
    TotalsToAscend(rolls, 10);
  }

  /** Frames that began before a roll was added begin in the same place after. */
  lemma {:induction false} StartKept(rolls: seq<int>, x: int, f: nat)
    requires f == 0 || Start(rolls, f - 1) < |rolls|
    ensures Start(rolls + [x], f) == Start(rolls, f)
  {
    if f > 0 {
      if f > 1 {
        StartGrows(rolls, f - 2, f - 1);
      }
      StartKept(rolls, x, f - 1);
      var p := Start(rolls, f - 1);
      assert (rolls + [x])[p] == rolls[p];
    }
  }

  /** A further roll can only add to a begun frame's points. */
  lemma FramePointsGrow(rolls: seq<int>, x: int, r: nat)
    requires r < |rolls| && NonNegative(rolls) && x >= 0
    ensures FramePoints(rolls, r) <= FramePoints(rolls + [x], r)
  {
    var more := rolls + [x];
    assert more[r] == rolls[r];
    assert Roll(rolls, r + 1) <= Roll(more, r + 1);
    assert Roll(rolls, r + 2) <= Roll(more, r + 2);
    if rolls[r] != 10 && r + 1 < |rolls| {
      assert Roll(more, r + 1) == Roll(rolls, r + 1);
    }
  }

  lemma {:induction false} ScoreToGrows(rolls: seq<int>, x: int, n: nat)
    requires NonNegative(rolls) && x >= 0
    ensures ScoreTo(rolls, n) <= ScoreTo(rolls + [x], n)
  {
    if n > 0 {
      ScoreToGrows(rolls, x, n - 1);
      var more := rolls + [x];
      assert NonNegative(more);
      var p := Start(rolls, n - 1);
      if p < |rolls| {
        if n > 1 {
          StartGrows(rolls, n - 2, n - 1);
        }
        StartKept(rolls, x, n - 1);
        FramePointsGrow(rolls, x, p);
      } else if Start(more, n - 1) < |more| {
        FramePointsRange(more, Start(more, n - 1));
      }
    }
  }

  /** The score shown after each roll never falls below the one shown before it. */
  lemma ScoreGrows(rolls: seq<int>, x: int)
    requires NonNegative(rolls) && x >= 0
    ensures Score(rolls) <= Score(rolls + [x])
  {
    ScoreToGrows(rolls, x, 10);
  }

  /* --------------------------------------------------------- frame machine */

  datatype Ball = Ball(x: real, y: real, vy: real)

  /** The script's globals: the canvas size, ball, pins, and the sheet's `rolls`, `frame`, `rollInFrame`, `pinsStanding`. */
  datatype Alley = Alley(
    width: real, height: real, laneWidth: real,
    ball: Ball, pins: seq<Pin>, rolling: bool,
    rolls: seq<int>, frame: int, rollInFrame: int, pinsStanding: int)

  /** `resetBall`: back to the foot of the lane, at rest. */
  function AfterResetBall(a: Alley): Alley {
    a.(ball := Ball(a.width / 2.0, a.height - 40.0, 0.0))
  }

  /** `setupPins`. */
  function AfterSetupPins(a: Alley): Alley {
    a.(pins := Rack(a.width))
  }

  /** The state after the page loads: the initial globals, then `resize` sizes the lane and racks the pins. */
  function Loaded(width: real, height: real): Alley {
    var laneWidth := if 300.0 < width * 0.4 then 300.0 else width * 0.4;
    var a := Alley(width, height, laneWidth, Ball(0.0, 0.0, 0.0), [], false, [], 1, 1, 10);
    AfterSetupPins(AfterResetBall(a))
  }

  /** `nextFrame`: the next frame at its first roll, with a fresh rack. */
  function AfterNextFrame(a: Alley): Alley {
    AfterResetBall(AfterSetupPins(a.(frame := a.frame + 1, rollInFrame := 1, pinsStanding := 10)))
  }

  /** A fresh rack for roll `roll` of the tenth frame. */
  function Rerack(a: Alley, roll: int): Alley {
    AfterResetBall(AfterSetupPins(a.(pinsStanding := 10, rollInFrame := roll)))
  }

  /** The tenth frame as `handleTenthFrame` writes it; `a` already holds the roll just made. */
  function TenthFrameAsWritten(a: Alley, knocked: int): Alley {
    if a.rollInFrame == 1 && knocked == 10 then Rerack(a, 2)
    else if a.rollInFrame == 1 then AfterResetBall(a.(rollInFrame := 2))
    else if a.rollInFrame == 2 && a.pinsStanding == 0 then Rerack(a, 3)
    else if a.rollInFrame == 3 || (a.rollInFrame == 2 && a.pinsStanding > 0) then AfterNextFrame(a)
    else if a.rollInFrame == 2 then AfterResetBall(a.(rollInFrame := 3))
    else a
  }

  /** The tenth frame opened with a strike: the roll before the one just made was a strike. */
  predicate OpenedWithStrike(rolls: seq<int>) {
    |rolls| >= 2 && rolls[|rolls| - 2] == 10
  }

  /**
   * The tenth frame with the bonus ball after an opening strike: a second
   * roll that leaves pins standing ends the game only when the first was not
   * a strike; after a strike it falls to the last branch and gives roll 3.
   */
  function AfterTenthFrame(a: Alley, knocked: int): Alley {
    if a.rollInFrame == 1 && knocked == 10 then Rerack(a, 2)
    else if a.rollInFrame == 1 then AfterResetBall(a.(rollInFrame := 2))
    else if a.rollInFrame == 2 && a.pinsStanding == 0 then Rerack(a, 3)
    else if a.rollInFrame == 3 || (a.rollInFrame == 2 && a.pinsStanding > 0 && !OpenedWithStrike(a.rolls)) then AfterNextFrame(a)
    else if a.rollInFrame == 2 then AfterResetBall(a.(rollInFrame := 3))
    else a
  }

  /** The pins that stood before the roll and are down now. */
  function Knocked(a: Alley): int {
    a.pinsStanding - Standing(a.pins)
  }

  /** `finishRoll`: record the pins knocked down, then move the frame on. */
  function AfterFinishRoll(a: Alley): Alley {
    var standing := Standing(a.pins);
    var knocked := a.pinsStanding - standing;
    var b := a.(rolling := false, rolls := a.rolls + [knocked], pinsStanding := standing);
    if a.frame == 10 then AfterTenthFrame(b, knocked)
    else if knocked == 10 && a.rollInFrame == 1 then AfterNextFrame(b)
    else if a.rollInFrame == 2 || standing == 0 then AfterNextFrame(b)
    else AfterResetBall(b.(rollInFrame := 2))
  }

  /** Pins the ball touches this tick go down; the rest stay as they are. */
  function Knock(pins: seq<Pin>, hits: set<nat>): (r: seq<Pin>)
    ensures |r| == |pins|
  {
    seq(|pins|, k requires 0 <= k < |pins| => if k in hits then pins[k].(knocked := true) else pins[k])
  }

  /**
   * One tick of `update` while rolling: the ball moves on, the pins in `hits`
   * (those within reach of the ball) fall, and the roll ends once the ball
   * passes the pins or every pin is down.
   */
  function AfterUpdate(a: Alley, hits: set<nat>): Alley {
    if !a.rolling then a
    else
      var b := Tick(a, hits);
      if b.ball.y < 60.0 || Standing(b.pins) == 0 then AfterFinishRoll(b) else b
  }

  /** The ball moves on by its speed and the pins in `hits` fall. */
  function Tick(a: Alley, hits: set<nat>): Alley {
    a.(ball := a.ball.(y := a.ball.y + a.ball.vy), pins := Knock(a.pins, hits))
  }

  /** `startRoll`: sets the ball moving unless it already is or the game is over. */
  function AfterStartRoll(a: Alley): Alley {
    if !a.rolling && a.frame <= 10 then a.(ball := a.ball.(vy := -Speed), rolling := true) else a
  }

  function Max(x: real, y: real): real {
    if x < y then y else x
  }

  function Min(x: real, y: real): real {
    if x < y then x else y
  }

  /** The ball's centre may range over the lane less a ball radius on each side. */
  function LaneLeft(a: Alley): real {
    a.width / 2.0 - a.laneWidth / 2.0 + BallRadius
  }

  function LaneRight(a: Alley): real {
    a.width / 2.0 + a.laneWidth / 2.0 - BallRadius
  }

  /** `moveBall`: steer the waiting ball sideways, clamped to the lane. */
  function AfterMoveBall(a: Alley, dx: real): Alley {
    if a.rolling then a
    else a.(ball := a.ball.(x := Max(LaneLeft(a), Min(LaneRight(a), a.ball.x + dx))))
  }

  /**
   * The states the game can reach: ten pins, frames 1 to 10 in play and 11
   * once over, at most two rolls a frame before the tenth and three in it,
   * every roll a pin count, and the rack never holding more pins than
   * `pinsStanding` (exactly as many while the ball waits).
   */
  predicate Valid(a: Alley) {
    && |a.pins| == 10
    && 1 <= a.frame <= 11
    && 1 <= a.rollInFrame <= (if a.frame == 10 then 3 else 2)
    && (a.frame == 11 ==> !a.rolling)
    && 0 <= a.pinsStanding <= 10
    && Standing(a.pins) <= a.pinsStanding
    && (!a.rolling ==> Standing(a.pins) == a.pinsStanding)
    && AllPinCounts(a.rolls)
  }

  /** The rolls still to come at most: two per frame before the tenth, three in it. */
  function RollsLeft(a: Alley): int {
    if a.frame > 10 then 0
    else if a.frame == 10 then 4 - a.rollInFrame
    else 2 * (9 - a.frame) + (3 - a.rollInFrame) + 3
  }

  lemma LoadedRules(width: real, height: real)
    ensures Valid(Loaded(width, height))
    ensures Loaded(width, height).rolls == [] && Loaded(width, height).frame == 1
    ensures RollsLeft(Loaded(width, height)) == 21
    ensures width >= 50.0 ==> Loaded(width, height).laneWidth >= 2.0 * BallRadius
  {
    RackIsValid(width);
  }

  lemma RackIsValid(width: real)
    ensures |Rack(width)| == 10 && Standing(Rack(width)) == 10
  {
    RackSize(width);
    RackStanding(width);
  }

  /** Knocking pins down never raises the count of those standing. */
  lemma {:induction false} KnockFells(pins: seq<Pin>, hits: set<nat>, n: nat)
    requires n <= |pins|
    ensures StandingBelow(Knock(pins, hits), n) <= StandingBelow(pins, n)
  {
    if n > 0 {
      KnockFells(pins, hits, n - 1);
    }
  }

  /**
   * A roll records `pinsStanding - standing` pins, between none and all that
   * stood, and leaves a valid state with one roll fewer to come.
   */
  lemma FinishRollRules(a: Alley)
    requires Valid(a) && a.rolling
    ensures 0 <= Knocked(a) <= a.pinsStanding
    ensures AfterFinishRoll(a).rolls == a.rolls + [Knocked(a)]
    ensures Valid(AfterFinishRoll(a)) && !AfterFinishRoll(a).rolling
    ensures RollsLeft(AfterFinishRoll(a)) < RollsLeft(a)
    ensures Score(a.rolls) <= Score(AfterFinishRoll(a).rolls)
  {
    RackIsValid(a.width);
    ScoreGrows(a.rolls, Knocked(a));
    var b := a.(rolling := false, rolls := a.rolls + [Knocked(a)], pinsStanding := Standing(a.pins));
    assert AllPinCounts(b.rolls) by {
      assert forall k :: 0 <= k < |a.rolls| ==> b.rolls[k] == a.rolls[k];
    }
  }

  /**
   * Frames 1 to 9: after a first-roll strike, a second roll or a cleared
   * rack the next frame begins with a fresh rack; otherwise the frame moves
   * to its second roll with the pins left standing.
   */
  lemma OpenFrameRules(a: Alley)
    requires Valid(a) && a.frame < 10
    ensures var r := AfterFinishRoll(a);
      if (Knocked(a) == 10 && a.rollInFrame == 1) || a.rollInFrame == 2 || Standing(a.pins) == 0 then
        r.frame == a.frame + 1 && r.rollInFrame == 1 && r.pinsStanding == 10 && r.pins == Rack(a.width)
      else
        r.frame == a.frame && r.rollInFrame == 2 && r.pinsStanding == Standing(a.pins) && r.pins == a.pins
  {
  }

  /** `a` stands at the tenth frame with the roll just made recorded. */
  predicate InTenth(a: Alley) {
    a.frame == 10 && 1 <= a.rollInFrame <= 3 && 0 <= a.pinsStanding <= 10
  }

  /**
   * The tenth frame: a first-roll strike re-racks for roll 2, any other first
   * roll leaves the pins for roll 2; a second roll that clears the rack
   * re-racks for roll 3, and one that leaves pins gives roll 3 at them after
   * an opening strike and ends the game otherwise; roll 3 ends the game.
   */
  lemma TenthFrameRules(a: Alley, knocked: int)
    requires InTenth(a)
    ensures var r := AfterTenthFrame(a, knocked);
      && (a.rollInFrame == 1 && knocked == 10 ==> r == Rerack(a, 2))
      && (a.rollInFrame == 1 && knocked != 10 ==> r.rollInFrame == 2 && r.pins == a.pins && r.frame == 10)
      && (a.rollInFrame == 2 && a.pinsStanding == 0 ==> r == Rerack(a, 3))
      && (a.rollInFrame == 2 && a.pinsStanding > 0 ==>
            (r.frame == 11 <==> !OpenedWithStrike(a.rolls))
            && (r.frame == 10 ==> r.rollInFrame == 3 && r.pins == a.pins && r.pinsStanding == a.pinsStanding))
      && (a.rollInFrame == 3 ==> r.frame == 11 && r.rollInFrame == 1)
  {
  }

  /** As written, a second roll that leaves pins standing ends the game even after an opening strike. */
  lemma TenthFrameAsWrittenEndsEarly(a: Alley, knocked: int)
    requires InTenth(a) && a.rollInFrame == 2 && a.pinsStanding > 0
    ensures TenthFrameAsWritten(a, knocked).frame == 11
  {
  }

  /**
   * The game that shows it: nine open frames of nothing, then a strike and a
   * seven. As written the game is over with the strike scored 10 + 7 + 0;
   * with the bonus ball the player rolls at the three pins left.
   */
  lemma StrikeThenSevenInTenth(width: real, height: real)
    ensures var a := Loaded(width, height).(rolls := seq(18, _ => 0) + [10, 7], frame := 10, rollInFrame := 2, pinsStanding := 3);
      && TenthFrameAsWritten(a, 7).frame == 11
      && Score(a.rolls) == 17
      && AfterTenthFrame(a, 7).frame == 10 && AfterTenthFrame(a, 7).rollInFrame == 3
  {
    var rolls: seq<int> := seq(18, _ => 0) + [10, 7];
    forall f: nat | f <= 9 ensures Start(rolls, f) == 2 * f && ScoreTo(rolls, f) == 0 {
      GutterFrames(rolls, f);
    }
    assert Start(rolls, 10) == 19;
  }

  lemma {:induction false} GutterFrames(rolls: seq<int>, f: nat)
    requires rolls == seq(18, _ => 0) + [10, 7] && f <= 9
    ensures Start(rolls, f) == 2 * f && ScoreTo(rolls, f) == 0
  {
    if f > 0 {
      GutterFrames(rolls, f - 1);
    }
  }

  /** The last branch of `handleTenthFrame` is never taken: it would need fewer than no pins standing. */
  lemma LastTenthBranchUnreachable(a: Alley, knocked: int)
    requires InTenth(a)
    ensures !(a.rollInFrame == 2 && a.pinsStanding == 0) && !(a.rollInFrame == 3 || (a.rollInFrame == 2 && a.pinsStanding > 0))
      ==> a.rollInFrame == 1
  {
  }

  lemma UpdateRules(a: Alley, hits: set<nat>)
    requires Valid(a)
    ensures Valid(AfterUpdate(a, hits))
    ensures AfterUpdate(a, hits).rolls == a.rolls || AfterUpdate(a, hits).rolls == a.rolls + [Knocked(Tick(a, hits))]
  {
    if a.rolling {
      var b := Tick(a, hits);
      TickRules(a, hits);
      if b.ball.y < 60.0 || Standing(b.pins) == 0 {
        FinishRollRules(b);
      }
    }
  }

  /** While the ball rolls the state stays valid: pins only fall. */
  lemma TickRules(a: Alley, hits: set<nat>)
    requires Valid(a) && a.rolling
    ensures Valid(Tick(a, hits)) && Tick(a, hits).rolling && Tick(a, hits).rolls == a.rolls
  {
    KnockFells(a.pins, hits, 10);
  }

  lemma StartRollRules(a: Alley)
    requires Valid(a)
    ensures Valid(AfterStartRoll(a))
    ensures AfterStartRoll(a).rolling <==> a.rolling || a.frame <= 10
    ensures !a.rolling && a.frame <= 10 ==> AfterStartRoll(a).ball.vy == -Speed
  {
  }

  /** The ball is steered only while waiting, and stays on the lane when the lane is wide enough for it. */
  lemma MoveBallRules(a: Alley, dx: real)
    requires Valid(a)
    ensures Valid(AfterMoveBall(a, dx))
    ensures a.rolling ==> AfterMoveBall(a, dx) == a
    ensures !a.rolling ==> LaneLeft(a) <= AfterMoveBall(a, dx).ball.x
    ensures !a.rolling && LaneLeft(a) <= LaneRight(a) ==> AfterMoveBall(a, dx).ball.x <= LaneRight(a)
    ensures !a.rolling && LaneLeft(a) <= a.ball.x + dx <= LaneRight(a) ==> AfterMoveBall(a, dx).ball.x == a.ball.x + dx
  {
  }

  /* ----------------------------------------------------------------- class */

  class Lane {
    var width: real
    var height: real
    var laneWidth: real
    var ball: Ball
    var pins: seq<Pin>
    var rolling: bool
    var rolls: seq<int>
    var frame: int
    var rollInFrame: int
    var pinsStanding: int

    function State(): Alley
      reads this
    {
      Alley(width, height, laneWidth, ball, pins, rolling, rolls, frame, rollInFrame, pinsStanding)
    }

    /** Loading the page: the globals' initial values, then `resize`. */
    constructor(w: real, h: real)
      ensures State() == Loaded(w, h)
    {
      width, height := w, h;
      laneWidth := if 300.0 < w * 0.4 then 300.0 else w * 0.4;
      ball := Ball(0.0, 0.0, 0.0);
      pins := [];
      rolling := false;
      rolls := [];
      frame, rollInFrame, pinsStanding := 1, 1, 10;
      new;
      ResetBall();
      SetupPins();
    }

    method ResetBall()
      modifies this
      ensures State() == AfterResetBall(old(State()))
    {
      ball := Ball(width / 2.0, height - 40.0, 0.0);
    }

    /** `setupPins`: four rows, the `r`-th of `r + 1` pins. */
    method SetupPins()
      modifies this
      ensures State() == AfterSetupPins(old(State()))
    {
      var rack: seq<Pin> := [];
      var r := 0;
      while r < 4
        invariant 0 <= r <= 4 && rack == RackRows(width, r)
        invariant unchanged(this)
      {
        var i := 0;
        while i <= r
          invariant 0 <= i <= r + 1 && rack == RackRows(width, r) + RackRow(width, r)[..i]
          invariant unchanged(this)
        {
          RowStep(width, r, i);
          rack := rack + [PinAt(width, r, i)];
          i := i + 1;
        }
        assert RackRow(width, r)[..r + 1] == RackRow(width, r);
        r := r + 1;
      }
      pins := rack;
    }

    method NextFrame()
      modifies this
      ensures State() == AfterNextFrame(old(State()))
    {
      frame := frame + 1;
      rollInFrame := 1;
      pinsStanding := 10;
      SetupPins();
      ResetBall();
    }

    /** `handleTenthFrame`, with the bonus ball after an opening strike. */
    method HandleTenthFrame(knocked: int)
      modifies this
      ensures State() == AfterTenthFrame(old(State()), knocked)
    {
      if rollInFrame == 1 && knocked == 10 {
        pinsStanding := 10;
        SetupPins();
        rollInFrame := 2;
        ResetBall();
      } else if rollInFrame == 1 {
        rollInFrame := 2;
        ResetBall();
      } else if rollInFrame == 2 && pinsStanding == 0 {
        pinsStanding := 10;
        SetupPins();
        rollInFrame := 3;
        ResetBall();
      } else if rollInFrame == 3 || (rollInFrame == 2 && pinsStanding > 0 && !OpenedWithStrike(rolls)) {
        NextFrame();
      } else if rollInFrame == 2 {
        rollInFrame := 3;
        ResetBall();
      }
    }

    method FinishRoll()
      modifies this
      ensures State() == AfterFinishRoll(old(State()))
    {
      rolling := false;
      var standing := Standing(pins);
      var knocked := pinsStanding - standing;
      rolls := rolls + [knocked];
      pinsStanding := standing;
      if frame == 10 {
        HandleTenthFrame(knocked);
        return;
      }
      if knocked == 10 && rollInFrame == 1 {
        NextFrame();
      } else if rollInFrame == 2 || pinsStanding == 0 {
        NextFrame();
      } else {
        rollInFrame := 2;
        ResetBall();
      }
    }

    /** One animation tick of `update`, with the pins the ball reaches as `hits`. */
    method Update(hits: set<nat>)
      modifies this
      ensures State() == AfterUpdate(old(State()), hits)
    {
      if rolling {
        ball := ball.(y := ball.y + ball.vy);
        pins := Knock(pins, hits);
        assert State() == Tick(old(State()), hits);
        if ball.y < 60.0 || Standing(pins) == 0 {
          FinishRoll();
        }
      }
    }

    method StartRoll()
      modifies this
      ensures State() == AfterStartRoll(old(State()))
    {
      if !rolling && frame <= 10 {
        ball := ball.(vy := -Speed);
        rolling := true;
      }
    }

    method MoveBall(dx: real)
      modifies this
      ensures State() == AfterMoveBall(old(State()), dx)
    {
      if !rolling {
        var left := width / 2.0 - laneWidth / 2.0 + BallRadius;
        var right := width / 2.0 + laneWidth / 2.0 - BallRadius;
        ball := ball.(x := Max(left, Min(right, ball.x + dx)));
      }
    }
  }
}
