/**
 * The roulette table (games/roulette/roulette.js): 37 pockets, a chip count,
 * and bets of whole chips on single numbers. The wheel's spin is physics on
 * reals; here its outcome, the pocket the ball lands in, is an input.
 */
module Roulette {

  datatype Color = Green | Red | Black

  datatype Pocket = Pocket(num: int, color: Color)

  /** The `numbers` table, in pocket order. */
  const Numbers: seq<Pocket> := [
    Pocket(0, Green), Pocket(1, Red), Pocket(2, Black), Pocket(3, Red), Pocket(4, Black),
    Pocket(5, Red), Pocket(6, Black), Pocket(7, Red), Pocket(8, Black), Pocket(9, Red),
    Pocket(10, Black), Pocket(11, Black), Pocket(12, Red), Pocket(13, Black), Pocket(14, Red),
    Pocket(15, Black), Pocket(16, Red), Pocket(17, Black), Pocket(18, Red), Pocket(19, Red),
    Pocket(20, Black), Pocket(21, Red), Pocket(22, Black), Pocket(23, Red), Pocket(24, Black),
    Pocket(25, Red), Pocket(26, Black), Pocket(27, Red), Pocket(28, Black), Pocket(29, Black),
    Pocket(30, Red), Pocket(31, Black), Pocket(32, Red), Pocket(33, Black), Pocket(34, Red),
    Pocket(35, Black), Pocket(36, Red)
  ]

  const StartingChips := 100

  /** What a winning chip returns: the chip and 35 more. */
  const Payout := 36

  /**
   * The usual rule for the colours of a single-zero wheel: from 1 to 10 and
   * from 19 to 28 the odd numbers are red, from 11 to 18 and from 29 to 36
   * the even ones.
   */
  predicate RedByRule(n: int) {
    if 1 <= n <= 10 || 19 <= n <= 28 then n % 2 == 1 else n % 2 == 0
  }

  /** Pocket `i` holds number `i`; only 0 is green; red and black follow the usual rule. */
  lemma NumbersTable()
    ensures |Numbers| == 37
    ensures forall i :: 0 <= i < 37 ==> Numbers[i].num == i
    ensures forall i :: 0 <= i < 37 ==> (Numbers[i].color == Green <==> i == 0)
    ensures forall i :: 1 <= i < 37 ==> (Numbers[i].color == Red <==> RedByRule(i))
  {
    forall i | 0 <= i < 37
      ensures Numbers[i].num == i
      ensures Numbers[i].color == Green <==> i == 0
      ensures 1 <= i ==> (Numbers[i].color == Red <==> RedByRule(i))
    {
      PocketAt(i);
    }
  }

  lemma PocketAt(i: int)
    requires 0 <= i < 37
    ensures Numbers[i].num == i
    ensures Numbers[i].color == Green <==> i == 0
    ensures 1 <= i ==> (Numbers[i].color == Red <==> RedByRule(i))
  {
    if i < 10 {
      assert i == 0 || i == 1 || i == 2 || i == 3 || i == 4 || i == 5 || i == 6 || i == 7 || i == 8 || i == 9;
    } else if i < 20 {
      assert i == 10 || i == 11 || i == 12 || i == 13 || i == 14 || i == 15 || i == 16 || i == 17 || i == 18 || i == 19;
    } else if i < 30 {
      assert i == 20 || i == 21 || i == 22 || i == 23 || i == 24 || i == 25 || i == 26 || i == 27 || i == 28 || i == 29;
    } else {
      assert i == 30 || i == 31 || i == 32 || i == 33 || i == 34 || i == 35 || i == 36;
    }
  }

  /* ------------------------------------------------------------------ bets */

  /** A map with no key is the empty map. */
  lemma EmptyOrKeyed(bets: map<int, int>)
    ensures bets == map[] || exists k :: k in bets
  {
    if forall j :: j !in bets {
      assert bets == map[];
    }
  }

  lemma EmptyOrNot(keys: set<int>)
    ensures keys == {} || exists k :: k in keys
  {
    if forall j :: j !in keys {
      assert keys == {};
    }
  }

  /** All chips on the table: the sum of the `bets` values. */
  ghost function Staked(bets: map<int, int>): int
    decreases |bets|
  {
    if bets == map[] then 0
    else
      EmptyOrKeyed(bets);
      var k :| k in bets;
      bets[k] + Staked(bets - {k})
  }

  /** Any one bet can be taken out of the sum first. */
  lemma {:induction false} StakedRemove(bets: map<int, int>, k: int)
    requires k in bets
    ensures Staked(bets) == bets[k] + Staked(bets - {k})
    decreases |bets|
  {
    var j :| j in bets && Staked(bets) == bets[j] + Staked(bets - {j});
    if j != k {
      var both := bets - {j} - {k};
      assert bets - {k} - {j} == both;
      StakedRemove(bets - {j}, k);
      StakedRemove(bets - {k}, j);
    }
  }

  /** Setting one bet changes the sum by the difference. */
  lemma StakedUpdate(bets: map<int, int>, k: int, v: int)
    ensures Staked(bets[k := v]) == Staked(bets) - (if k in bets then bets[k] else 0) + v
  {
    StakedRemove(bets[k := v], k);
    if k in bets {
      StakedRemove(bets, k);
      assert bets[k := v] - {k} == bets - {k};
    } else {
      assert bets[k := v] - {k} == bets;
    }
  }

  /** With only positive bets, the sum is positive exactly when some bet is placed. */
  lemma {:induction false} StakedPositive(bets: map<int, int>)
    requires forall k :: k in bets ==> bets[k] > 0
    ensures Staked(bets) >= 0
    ensures Staked(bets) == 0 <==> bets == map[]
    decreases |bets|
  {
    if bets != map[] {
      EmptyOrKeyed(bets);
      var k :| k in bets && Staked(bets) == bets[k] + Staked(bets - {k});
      StakedPositive(bets - {k});
    }
  }

  /** The chips the winning number pays: `bets[n] * 36` if there is a bet on it. */
  function Winnings(bets: map<int, int>, number: int): int {
    if number in bets then bets[number] * Payout else 0
  }

  /* ----------------------------------------------------------------- table */

  datatype Table = Table(chips: int, bets: map<int, int>, spinning: bool)

  /** No debt, and every stored bet holds at least one chip. */
  predicate Valid(t: Table) {
    t.chips >= 0 && forall k :: k in t.bets ==> t.bets[k] > 0
  }

  /** Chips in hand plus chips on the table. */
  ghost function Holdings(t: Table): int {
    t.chips + Staked(t.bets)
  }

  /** `addChip`: one chip from the hand onto `num`. */
  function AfterAddChip(t: Table, num: int): Table {
    if t.spinning || t.chips <= 0 then t
    else t.(chips := t.chips - 1, bets := t.bets[num := (if num in t.bets then t.bets[num] else 0) + 1])
  }

  /** `removeChip`: one chip back from `num`; a bet that reaches zero is deleted. */
  function AfterRemoveChip(t: Table, num: int): Table {
    if t.spinning || num !in t.bets || t.bets[num] == 0 then t
    else
      var left := t.bets[num] - 1;
      t.(chips := t.chips + 1, bets := if left == 0 then t.bets - {num} else t.bets[num := left])
  }

  /** `clearBets`: every staked chip back to the hand. */
  ghost function AfterClearBets(t: Table): Table {
    if t.spinning then t else t.(chips := t.chips + Staked(t.bets), bets := map[])
  }

  /** `resolve` as written: the winnings are paid, then `clearBets` returns every stake, losing ones too. */
  ghost function ResolveAsWritten(t: Table, number: int): Table {
    AfterClearBets(t.(chips := t.chips + Winnings(t.bets, number)))
  }

  /** `resolve` with the house keeping the stakes: the winnings are paid and the table is cleared. */
  function AfterResolve(t: Table, number: int): Table {
    t.(chips := t.chips + Winnings(t.bets, number), bets := map[])
  }

  /** `spin`: the wheel starts only when idle and with at least one bet placed. */
  function AfterSpin(t: Table): Table {
    if t.spinning || |t.bets| == 0 then t else t.(spinning := true)
  }

  /** The wheel coming to rest on pocket `index`: spinning ends and the pocket's number is resolved. */
  function AfterStop(t: Table, index: nat): Table
    requires index < |Numbers|
  {
    if !t.spinning then t else AfterResolve(t.(spinning := false), Numbers[index].num)
  }

  /**
   * `addChip` moves one chip from the hand to the bet on `num` and no other,
   * when the table is idle and the hand not empty; the holdings are unchanged.
   */
  lemma AddChipRules(t: Table, num: int)
    requires Valid(t)
    ensures var r := AfterAddChip(t, num);
      && Valid(r) && Holdings(r) == Holdings(t) && r.spinning == t.spinning
      && (t.spinning || t.chips <= 0 ==> r == t)
      && (!t.spinning && t.chips > 0 ==>
            r.chips == t.chips - 1 && num in r.bets && r.bets[num] == Winnings(t.bets, num) / Payout + 1
            && forall k :: k != num ==> (k in r.bets <==> k in t.bets) && (k in t.bets ==> r.bets[k] == t.bets[k]))
  {
    if !t.spinning && t.chips > 0 {
      StakedUpdate(t.bets, num, (if num in t.bets then t.bets[num] else 0) + 1);
    }
  }

  /**
   * `removeChip` moves one chip from the bet on `num` back to the hand, when
   * the table is idle and there is such a bet; the holdings are unchanged and
   * no empty bet is kept.
   */
  lemma RemoveChipRules(t: Table, num: int)
    requires Valid(t)
    ensures var r := AfterRemoveChip(t, num);
      && Valid(r) && Holdings(r) == Holdings(t) && r.spinning == t.spinning
      && (t.spinning || num !in t.bets ==> r == t)
      && (!t.spinning && num in t.bets ==>
            r.chips == t.chips + 1 && (num in r.bets <==> t.bets[num] > 1)
            && (num in r.bets ==> r.bets[num] == t.bets[num] - 1)
            && forall k :: k != num ==> (k in r.bets <==> k in t.bets) && (k in t.bets ==> r.bets[k] == t.bets[k]))
  {
    if !t.spinning && num in t.bets {
      var left := t.bets[num] - 1;
      if left == 0 {
        StakedRemove(t.bets, num);
      } else {
        StakedUpdate(t.bets, num, left);
      }
    }
  }

  /** Taking back a chip just placed restores the table. */
  lemma RemoveUndoesAdd(t: Table, num: int)
    requires Valid(t) && !t.spinning && t.chips > 0
    ensures AfterRemoveChip(AfterAddChip(t, num), num) == t
  {
    var r := AfterRemoveChip(AfterAddChip(t, num), num);
    if num in t.bets {
      assert r.bets == t.bets[num := t.bets[num]];
    } else {
      assert r.bets == t.bets[num := 1] - {num};
    }
    assert r.bets == t.bets;
  }

  /** `clearBets` empties the table into the hand; the holdings are unchanged. */
  lemma ClearBetsRules(t: Table)
    requires Valid(t)
    ensures var r := AfterClearBets(t);
      && Valid(r) && Holdings(r) == Holdings(t) && r.spinning == t.spinning
      && (!t.spinning ==> r.bets == map[] && r.chips >= t.chips)
      && (t.spinning ==> r == t)
  {
    StakedPositive(t.bets);
  }

  /**
   * As written, resolving hands back every stake on top of the winnings:
   * after any spin the player holds at least what they held before it, so
   * a losing bet costs nothing.
   */
  lemma ResolveAsWrittenNeverLoses(t: Table, number: int)
    requires Valid(t) && !t.spinning
    ensures ResolveAsWritten(t, number).chips == Holdings(t) + Winnings(t.bets, number)
    ensures ResolveAsWritten(t, number).chips >= Holdings(t)
    ensures ResolveAsWritten(t, number).bets == map[]
  {
  }

  /** The table that shows it: 99 chips and one chip on 5, and the ball lands on 7. */
  lemma LosingBetRefunded()
    ensures ResolveAsWritten(Table(99, map[5 := 1], false), 7).chips == StartingChips
    ensures AfterResolve(Table(99, map[5 := 1], false), 7).chips == 99
  {
    var bets := map[5 := 1];
    StakedRemove(bets, 5);
    assert bets - {5} == map[];
  }

  /**
   * Resolving pays 36 chips for each chip on the winning number and the
   * house keeps every stake: the holdings change by the winnings less all
   * that was staked, so a spin that misses every bet loses exactly the stakes.
   */
  lemma ResolveRules(t: Table, number: int)
    requires Valid(t)
    ensures var r := AfterResolve(t, number);
      && Valid(r) && r.bets == map[] && r.spinning == t.spinning
      && r.chips == t.chips + Winnings(t.bets, number)
      && Holdings(r) == Holdings(t) - Staked(t.bets) + Winnings(t.bets, number)
      && (number !in t.bets ==> Holdings(r) == Holdings(t) - Staked(t.bets))
      && (number in t.bets ==> r.chips == t.chips + Payout * t.bets[number])
  {
  }

  /** `spin` starts the wheel exactly when it is idle and some bet is placed. */
  lemma SpinRules(t: Table)
    requires Valid(t)
    ensures Valid(AfterSpin(t)) && AfterSpin(t).chips == t.chips && AfterSpin(t).bets == t.bets
    ensures AfterSpin(t).spinning <==> t.spinning || t.bets != map[]
  {
  }

  /** No chip is placed, removed or cleared while the wheel turns. */
  lemma SpinningFreezesBets(t: Table, num: int)
    requires t.spinning
    ensures AfterAddChip(t, num) == t && AfterRemoveChip(t, num) == t && AfterClearBets(t) == t
  {
  }

  lemma StopRules(t: Table, index: nat)
    requires Valid(t) && index < |Numbers|
    ensures Valid(AfterStop(t, index)) && !AfterStop(t, index).spinning
    ensures t.spinning ==> AfterStop(t, index).chips == t.chips + Winnings(t.bets, index)
    ensures t.spinning ==> AfterStop(t, index).bets == map[]
    ensures !t.spinning ==> AfterStop(t, index) == t
  {
    NumbersTable();
  }

  /* ----------------------------------------------------------------- class */

  /** The script's `chips`, `bets` and `spinning`. */
  class Game {
    var chips: int
    var bets: map<int, int>
    var spinning: bool

    function State(): Table
      reads this
    {
      Table(chips, bets, spinning)
    }

    constructor()
      ensures State() == Table(StartingChips, map[], false)
    {
      chips := StartingChips;
      bets := map[];
      spinning := false;
    }

    method AddChip(num: int)
      modifies this
      ensures State() == AfterAddChip(old(State()), num)
    {
      if spinning || chips <= 0 {
        return;
      }
      chips := chips - 1;
      bets := bets[num := (if num in bets then bets[num] else 0) + 1];
    }

    method RemoveChip(num: int)
      modifies this
      ensures State() == AfterRemoveChip(old(State()), num)
    {
      if spinning || num !in bets || bets[num] == 0 {
        return;
      }
      bets := bets[num := bets[num] - 1];
      chips := chips + 1;
      if bets[num] == 0 {
        bets := bets - {num};
      }
    }

    /** `clearBets`: each key in turn, its chips back to the hand and the key deleted. */
    method ClearBets()
      modifies this
      ensures State() == AfterClearBets(old(State()))
    {
      if spinning {
        return;
      }
      while bets != map[]
        invariant chips + Staked(bets) == old(chips) + Staked(old(bets))
        invariant spinning == old(spinning)
        decreases |bets|
      {
        EmptyOrKeyed(bets);
        var k :| k in bets;
        StakedRemove(bets, k);
        chips := chips + bets[k];
        bets := bets - {k};
      }
    }

    /** `resolve`: the winnings are counted over the keys and paid; then the table is cleared. */
    method Resolve(number: int)
      modifies this
      ensures State() == AfterResolve(old(State()), number)
    {
      var winnings := 0;
      var keys := bets.Keys;
      while keys != {}
        invariant keys <= bets.Keys && unchanged(this)
        invariant winnings == if number in bets && number !in keys then bets[number] * Payout else 0
        decreases keys
      {
        EmptyOrNot(keys);
        var k :| k in keys;
        if k == number {
          winnings := winnings + bets[k] * Payout;
        }
        keys := keys - {k};
      }
      chips := chips + winnings;
      bets := map[];
    }

    method Spin()
      modifies this
      ensures State() == AfterSpin(old(State()))
    {
      if spinning || |bets| == 0 {
        return;
      }
      spinning := true;
    }

    /** The animation loop's last tick: the wheel stops on pocket `index`, whose number is resolved. */
    method Stop(index: nat)
      requires index < |Numbers|
      modifies this
      ensures State() == AfterStop(old(State()), index)
    {
      if !spinning {
        return;
      }
      spinning := false;
      var result := Numbers[index].num;
      Resolve(result);
    }
  }
}
