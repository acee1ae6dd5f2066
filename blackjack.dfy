/**
 * Blackjack round logic (games/blackjack/blackjack.js): the deck, the
 * soft-ace hand value, the betting commands and the payouts.
 *
 * The round state is the value `Table`; every command is a function from
 * table to table (`AfterStart`, `AfterHit`, ...), and the class `Game`
 * holds the module-level variables and runs the commands in place, each
 * method proved to leave the state its function describes.
 */
module Blackjack {
  import opened Chance
  import Shuffling
  import Bags

  const StartingChips := 500
  const MaxBet := 25

  datatype Suit = Spades | Hearts | Diamonds | Clubs
  datatype Rank = Rank(name: string, value: nat)
  datatype Card = Card(suit: Suit, name: string, value: nat)

  const Suits: seq<Suit> := [Spades, Hearts, Diamonds, Clubs]

  /** `RANKS`: an ace is worth 11, number cards their number, pictures 10. */
  const Ranks: seq<Rank> := [
    Rank("A", 11), Rank("2", 2), Rank("3", 3), Rank("4", 4), Rank("5", 5),
    Rank("6", 6), Rank("7", 7), Rank("8", 8), Rank("9", 9), Rank("10", 10),
    Rank("J", 10), Rank("Q", 10), Rank("K", 10)]

  /* ----------------------------------------------------------------- deck */

  /** The deck `createDeck` builds: suit-major, ranks in table order. */
  function FullDeck(): (d: seq<Card>)
    ensures |d| == 52
  {
    seq(52, i requires 0 <= i < 52 => Card(Suits[i / 13], Ranks[i % 13].name, Ranks[i % 13].value))
  }

  /** No two ranks share a name. */
  lemma RankNamesDistinct()
    ensures forall i, j :: 0 <= i < j < 13 ==> Ranks[i].name != Ranks[j].name
  {
  }

  /** Every suit-rank pair is in the deck. */
  lemma FullDeckHasEveryCard()
    ensures forall s: Suit, k :: 0 <= k < 13 ==> Card(s, Ranks[k].name, Ranks[k].value) in FullDeck()
  {
    var d := FullDeck();
    forall s: Suit, k | 0 <= k < 13
      ensures Card(s, Ranks[k].name, Ranks[k].value) in d
    {
      var si := match s case Spades => 0 case Hearts => 1 case Diamonds => 2 case Clubs => 3;
      assert d[13 * si + k] == Card(s, Ranks[k].name, Ranks[k].value);
    }
  }

  /** The deck holds no card outside the rank table. */
  lemma FullDeckHasOnlyTableRanks()
    ensures forall c :: c in FullDeck() ==> Rank(c.name, c.value) in Ranks
  {
    var d := FullDeck();
    forall c | c in d
      ensures Rank(c.name, c.value) in Ranks
    {
      var i :| 0 <= i < 52 && d[i] == c;
      assert Rank(c.name, c.value) == Ranks[i % 13];
    }
  }

  /** No card is in the deck twice. */
  lemma FullDeckDistinct()
    ensures forall i, j :: 0 <= i < j < 52 ==> FullDeck()[i] != FullDeck()[j]
  {
    RankNamesDistinct();
    var d := FullDeck();
    forall i, j | 0 <= i < j < 52
      ensures d[i] != d[j]
    {
      if i / 13 == j / 13 {
        assert Ranks[i % 13].name != Ranks[j % 13].name;
      } else {
        assert Suits[i / 13] != Suits[j / 13];
      }
    }
  }

  /** `createDeck`: the nested `forEach` over suits and ranks. */
  method CreateDeck() returns (deck: seq<Card>)
    ensures deck == FullDeck()
  {
    deck := [];
    var s := 0;
    while s < 4
      invariant 0 <= s <= 4
      invariant deck == FullDeck()[..13 * s]
    {
      var r := 0;
      while r < 13
        invariant 0 <= r <= 13
        invariant deck == FullDeck()[..13 * s + r]
      {
        deck := deck + [Card(Suits[s], Ranks[r].name, Ranks[r].value)];
        r := r + 1;
      }
      s := s + 1;
    }
  }

  /** `createDeck` followed by `shuffle`: a fresh deck in the order the draws give. */
  method ShuffledDeck(draws: seq<real>) returns (deck: seq<Card>)
    requires |draws| == 52 && AllDraws(draws)
    ensures deck == Shuffling.Shuffled(FullDeck(), draws)
  {
    var ordered := CreateDeck();
    var a := new Card[52](k requires 0 <= k < 52 => ordered[k]);
    assert a[..] == ordered;
    Shuffling.Shuffle(a, draws);
    deck := a[..];
  }

  /* ----------------------------------------------------------- hand value */

  /** The `reduce` over card values. */
  function Total(hand: seq<Card>): nat {
    TotalBelow(hand, |hand|)
  }

  /** The values of the first `n` cards. */
  function TotalBelow(hand: seq<Card>, n: nat): nat
    requires n <= |hand|
  {
    if n == 0 then 0 else TotalBelow(hand, n - 1) + hand[n - 1].value
  }

  /** The `filter` for aces: cards worth 11. */
  function Aces(hand: seq<Card>): nat {
    AcesBelow(hand, |hand|)
  }

  /** The aces among the first `n` cards. */
  function AcesBelow(hand: seq<Card>, n: nat): nat
    requires n <= |hand|
  {
    if n == 0 then 0 else AcesBelow(hand, n - 1) + (if hand[n - 1].value == 11 then 1 else 0)
  }

  /**
   * How many aces `handValue` counts as 1 for a card sum `total` with
   * `aces` aces: the fewest that bring the total to 21 or less, or all of
   * them when even that is not enough.
   */
  function AcesAsOne(total: int, aces: nat): nat {
    if total <= 21 then 0
    else
      var need := (total - 12) / 10;
      if need < aces then need else aces
  }

  /**
   * `AcesAsOne` is the count `handValue` arrives at: no more than the aces,
   * enough to reach 21 or all of them, and no fewer than needed.
   */
  lemma AcesAsOneIsFewestNeeded(total: int, aces: nat)
    ensures AcesAsOne(total, aces) <= aces
    ensures total - 10 * AcesAsOne(total, aces) <= 21 || AcesAsOne(total, aces) == aces
    ensures forall j :: 0 <= j < AcesAsOne(total, aces) ==> total - 10 * j > 21
  {
  }

  /** The value `handValue` returns: the sum with the needed aces counted as 1. */
  function Score(hand: seq<Card>): int {
    Total(hand) - 10 * AcesAsOne(Total(hand), Aces(hand))
  }

  /** A score over 21 means every ace already counts as 1. */
  lemma BustHasNoSoftAce(hand: seq<Card>)
    ensures Score(hand) > 21 ==> Score(hand) == Total(hand) - 10 * Aces(hand)
    ensures Score(hand) <= Total(hand)
  {
  }

  /** `handValue`: the `while (total > 21 && aces > 0)` loop. */
  method HandValue(hand: seq<Card>) returns (total: int)
    ensures total == Score(hand)
  {
    total := Total(hand);
    var aces := Aces(hand);
    AcesAsOneIsFewestNeeded(total, aces);
    while total > 21 && aces > 0
      invariant 0 <= aces <= Aces(hand)
      invariant total == Total(hand) - 10 * (Aces(hand) - aces)
      invariant Aces(hand) - aces <= AcesAsOne(Total(hand), Aces(hand))
    {
      total := total - 10;
      aces := aces - 1;
    }
  }

  /* --------------------------------------------------------------- payouts */

  /** What `startRound` pays back on naturals: the bet on a push of blackjacks, twice it to a lone player blackjack. */
  function NaturalPayout(playerBJ: bool, dealerBJ: bool, bet: int): int {
    if playerBJ && dealerBJ then bet
    else if playerBJ then 2 * bet
    else 0
  }

  /** What `updateResult` pays on one hand, given the dealer's total. */
  function Payout(player: int, dealer: int, bet: int): int {
    if player > 21 then 0
    else if dealer > 21 || player > dealer then 2 * bet
    else if player == dealer then bet
    else 0
  }

  /**
   * A hand is paid exactly when it did not bust and did not lose, twice its
   * bet on a win, the bet back on a push, and never more than twice its bet.
   */
  lemma PayoutRules(player: int, dealer: int, bet: int)
    requires bet > 0
    ensures 0 <= Payout(player, dealer, bet) <= 2 * bet
    ensures Payout(player, dealer, bet) > 0 <==> player <= 21 && (dealer > 21 || player >= dealer)
    ensures Payout(player, dealer, bet) == 2 * bet <==> player <= 21 && (dealer > 21 || player > dealer)
    ensures Payout(player, dealer, bet) == bet <==> player <= 21 && dealer <= 21 && player == dealer
  {
  }

  /** The sum of the payouts of the first `n` hands. */
  function Winnings(hands: seq<seq<Card>>, bets: seq<int>, dealer: int, n: nat): int
    requires n <= |hands| == |bets|
  {
    if n == 0 then 0 else Winnings(hands, bets, dealer, n - 1) + Payout(Score(hands[n - 1]), dealer, bets[n - 1])
  }

  function Sum(xs: seq<int>): int {
    if xs == [] then 0 else Sum(xs[..|xs| - 1]) + xs[|xs| - 1]
  }

  lemma {:induction false} WinningsBounds(hands: seq<seq<Card>>, bets: seq<int>, dealer: int, n: nat)
    requires n <= |hands| == |bets|
    requires forall i :: 0 <= i < |bets| ==> bets[i] > 0
    ensures 0 <= Winnings(hands, bets, dealer, n) <= 2 * Sum(bets[..n])
  {
    if n > 0 {
      WinningsBounds(hands, bets, dealer, n - 1);
      PayoutRules(Score(hands[n - 1]), dealer, bets[n - 1]);
      assert bets[..n][..n - 1] == bets[..n - 1];
    }
  }

  /* ----------------------------------------------------------------- table */

  /** The module-level variables of the game (without the display message). */
  datatype Table = Table(
    chips: int,
    deck: seq<Card>,
    dealer: seq<Card>,
    hands: seq<seq<Card>>,
    bets: seq<int>,
    current: int,
    inRound: bool)

  /** What every command relies on: one bet per hand, and a current hand during a round. */
  predicate Wf(t: Table) {
    |t.bets| == |t.hands| && (t.inRound ==> 0 <= t.current < |t.hands|)
  }

  /** Chips never go negative, stakes are positive, and a round has one or two hands. */
  predicate Valid(t: Table) {
    && Wf(t)
    && t.chips >= 0
    && (forall i :: 0 <= i < |t.bets| ==> t.bets[i] > 0)
    && (t.inRound ==> 1 <= |t.hands| <= 2)
  }

  /** `dealCard(playerHands[i])`: the deck's last card goes onto hand `i` (nothing happens on an empty deck). */
  function DealPlayer(t: Table, i: nat): (r: Table)
    requires i < |t.hands|
    ensures |r.hands| == |t.hands| && |r.hands[i]| <= |t.hands[i]| + 1
  {
    if t.deck == [] then t
    else
      var n := |t.deck| - 1;
      t.(deck := t.deck[..n], hands := t.hands[i := t.hands[i] + [t.deck[n]]])
  }

  /** `dealCard(dealer)`. */
  function DealDealer(t: Table): Table {
    if t.deck == [] then t
    else
      var n := |t.deck| - 1;
      t.(deck := t.deck[..n], dealer := t.dealer + [t.deck[n]])
  }

  /** `startRound`, with the shuffle's draws as input. */
  function AfterStart(t: Table, draws: seq<real>): Table
    requires |draws| == 52 && AllDraws(draws)
  {
    ShuffledDeckSize(draws);
    if t.inRound || t.chips <= 0 then t else Begin(t, Shuffling.Shuffled(FullDeck(), draws))
  }

  /** A round started with `deck`: the bet is taken, the hands reset, the cards dealt and naturals checked. */
  function Begin(t: Table, deck: seq<Card>): (r: Table)
    requires |deck| >= 4
  {
    var bet := if MaxBet < t.chips then MaxBet else t.chips;
    var reset := Table(t.chips - bet, deck, [], [[]], [bet], 0, false);
    Naturals(Opening(reset), bet)
  }

  /**
   * The opening deal from the end of the deck: the player gets the last and
   * third-to-last cards, the dealer the two in between.
   */
  function Opening(t: Table): (r: Table)
    requires |t.hands| == 1 && |t.deck| >= 4
    ensures |r.hands| == 1
  {
    var d, n := t.deck, |t.deck|;
    t.(deck := d[..n - 4], hands := [t.hands[0] + [d[n - 1], d[n - 3]]], dealer := t.dealer + [d[n - 2], d[n - 4]])
  }

  /** The blackjack check after the opening deal; the round goes on only without a natural. */
  function Naturals(t: Table, bet: int): Table
    requires |t.hands| == 1
  {
    var playerBJ := Score(t.hands[0]) == 21;
    var dealerBJ := Score(t.dealer) == 21;
    if playerBJ || dealerBJ then
      t.(chips := t.chips + NaturalPayout(playerBJ, dealerBJ, bet), inRound := false)
    else
      t.(inRound := true)
  }

  /** `dealerPlay`: draw until the dealer's value reaches 17 (or the deck runs out). */
  function AfterDealerPlay(t: Table): (r: Table)
    ensures r.chips == t.chips && r.hands == t.hands && r.bets == t.bets
    ensures r.current == t.current && r.inRound == t.inRound
    decreases |t.deck|
  {
    if Score(t.dealer) >= 17 || t.deck == [] then t else AfterDealerPlay(DealDealer(t))
  }

  /** `updateResult`: every hand is paid against the dealer's total, and the round ends. */
  function AfterResult(t: Table): Table
    requires |t.bets| == |t.hands|
  {
    t.(chips := t.chips + Winnings(t.hands, t.bets, Score(t.dealer), |t.hands|), inRound := false)
  }

  /** `moveToNextHand`: on to the next split hand, or else the dealer plays and the round is settled. */
  function AfterNextHand(t: Table): Table
    requires |t.bets| == |t.hands|
  {
    if t.current < |t.hands| - 1 then t.(current := t.current + 1)
    else AfterResult(AfterDealerPlay(t))
  }

  /** `hit`. */
  function AfterHit(t: Table): Table
    requires Wf(t)
  {
    if !t.inRound then t
    else
      var dealt := DealPlayer(t, t.current);
      if Score(dealt.hands[t.current]) > 21 then AfterNextHand(dealt) else dealt
  }

  /** `doubleDown`: only on a two-card hand whose bet the chips can match. */
  function AfterDouble(t: Table): Table
    requires Wf(t)
  {
    if !CanDouble(t) then t else AfterNextHand(DealPlayer(Stake(t), t.current))
  }

  /** The guard of `doubleDown`: a round, a two-card current hand, and chips to match its bet. */
  predicate CanDouble(t: Table)
    requires Wf(t)
  {
    t.inRound && |t.hands[t.current]| == 2 && t.chips >= t.bets[t.current]
  }

  /** The bookkeeping of `doubleDown`: the current bet is paid again and doubled. */
  function Stake(t: Table): (r: Table)
    requires Wf(t) && t.inRound
    ensures Wf(r) && r.inRound && r.current == t.current && r.hands == t.hands
  {
    var bet := t.bets[t.current];
    t.(chips := t.chips - bet, bets := t.bets[t.current := bet * 2])
  }

  /** The guard of `splitHand`. */
  predicate CanSplit(t: Table)
    requires Wf(t)
  {
    && t.inRound
    && |t.hands| <= 1
    && t.chips >= t.bets[0]
    && |t.hands[0]| == 2
    && t.hands[0][0].value == t.hands[0][1].value
  }

  /** `splitHand`: the second card starts a new hand with an equal bet, and each hand gets one card. */
  function AfterSplit(t: Table): Table
    requires Wf(t)
  {
    if !CanSplit(t) then t else DealPlayer(DealPlayer(SplitOff(t), 0), 1)
  }

  /** The bookkeeping of `splitHand` before dealing: `pop` the second card into a new hand, `push` a copy of the bet. */
  function SplitOff(t: Table): (r: Table)
    requires Wf(t) && CanSplit(t)
    ensures |r.hands| == |r.bets| == |t.hands| + 1
  {
    var first := t.hands[0];
    t.(chips := t.chips - t.bets[0], hands := t.hands[0 := [first[0]]] + [[first[1]]], bets := t.bets + [t.bets[0]])
  }

  /** `stand`. */
  function AfterStand(t: Table): Table
    requires Wf(t)
  {
    if !t.inRound then t else AfterNextHand(t)
  }

  /* ------------------------------------------------------ cards in play */

  /** The cards held in the first `n` player hands. */
  function HandsBelow(hands: seq<seq<Card>>, n: nat): multiset<Card>
    requires n <= |hands|
  {
    if n == 0 then multiset{} else HandsBelow(hands, n - 1) + multiset(hands[n - 1])
  }

  /** Every card of the round: deck, dealer and player hands. */
  function InPlay(t: Table): multiset<Card> {
    multiset(t.deck) + multiset(t.dealer) + HandsBelow(t.hands, |t.hands|)
  }

  lemma {:induction false} HandsBelowAgree(a: seq<seq<Card>>, b: seq<seq<Card>>, n: nat)
    requires n <= |a| && n <= |b| && a[..n] == b[..n]
    ensures HandsBelow(a, n) == HandsBelow(b, n)
  {
    if n > 0 {
      assert a[..n - 1] == a[..n][..n - 1] && b[..n - 1] == b[..n][..n - 1];
      assert a[n - 1] == a[..n][n - 1];
      HandsBelowAgree(a, b, n - 1);
    }
  }

  lemma {:induction false} HandsBelowUpdate(hs: seq<seq<Card>>, i: nat, h: seq<Card>, n: nat)
    requires i < |hs| && n <= |hs|
    ensures i < n ==> HandsBelow(hs[i := h], n) + multiset(hs[i]) == HandsBelow(hs, n) + multiset(h)
    ensures i >= n ==> HandsBelow(hs[i := h], n) == HandsBelow(hs, n)
  {
    if n > 0 {
      HandsBelowUpdate(hs, i, h, n - 1);
      var before, after := HandsBelow(hs, n - 1), HandsBelow(hs[i := h], n - 1);
      if i == n - 1 {
        HandsBelowAgree(hs, hs[i := h], n - 1);
        Bags.Rotate(multiset(hs[i]), multiset(h));
        Bags.Swap(before, multiset(h), multiset(hs[i]));
      } else if i < n - 1 {
        Bags.AddRight(after, before, multiset(hs[n - 1]), multiset(hs[i]), multiset(h));
        Bags.Swap(after, multiset(hs[n - 1]), multiset(hs[i]));
        Bags.Swap(before, multiset(hs[n - 1]), multiset(h));
      }
    }
  }

  /** Putting one card on hand `i` adds exactly that card to the hands. */
  lemma HandsAdd(hs: seq<seq<Card>>, i: nat, c: Card)
    requires i < |hs|
    ensures HandsBelow(hs[i := hs[i] + [c]], |hs|) == HandsBelow(hs, |hs|) + multiset{c}
  {
    HandsBelowUpdate(hs, i, hs[i] + [c], |hs|);
    assert multiset(hs[i] + [c]) == multiset(hs[i]) + multiset{c};
    Bags.CancelRight(HandsBelow(hs[i := hs[i] + [c]], |hs|), HandsBelow(hs, |hs|), multiset(hs[i]), multiset{c});
  }

  /** Taking the deck's last card leaves it one card short. */
  lemma PopCard(deck: seq<Card>)
    requires deck != []
    ensures multiset(deck[..|deck| - 1]) + multiset{deck[|deck| - 1]} == multiset(deck)
  {
    assert deck == deck[..|deck| - 1] + [deck[|deck| - 1]];
  }

  /** Dealing to a player moves a card from the deck to the hand. */
  lemma DealPlayerKeepsCards(t: Table, i: nat)
    requires i < |t.hands|
    ensures InPlay(DealPlayer(t, i)) == InPlay(t)
  {
    if t.deck != [] {
      var n := |t.deck| - 1;
      var c := t.deck[n];
      PopCard(t.deck);
      HandsAdd(t.hands, i, c);
      assert DealPlayer(t, i) == t.(deck := t.deck[..n], hands := t.hands[i := t.hands[i] + [c]]);
      Bags.MoveToThird(multiset(t.deck[..n]), multiset(t.dealer), HandsBelow(t.hands, |t.hands|), multiset{c});
    }
  }

  /** Dealing to the dealer moves a card from the deck to the dealer. */
  lemma DealDealerKeepsCards(t: Table)
    ensures InPlay(DealDealer(t)) == InPlay(t)
  {
    if t.deck != [] {
      var n := |t.deck| - 1;
      var c := t.deck[n];
      PopCard(t.deck);
      assert multiset(t.dealer + [c]) == multiset(t.dealer) + multiset{c};
      assert DealDealer(t) == t.(deck := t.deck[..n], dealer := t.dealer + [c]);
      Bags.MoveToSecond(multiset(t.deck[..n]), multiset(t.dealer), HandsBelow(t.hands, |t.hands|), multiset{c});
    }
  }

  lemma {:induction false} DealerPlayKeepsCards(t: Table)
    ensures InPlay(AfterDealerPlay(t)) == InPlay(t)
    decreases |t.deck|
  {
    if !(Score(t.dealer) >= 17 || t.deck == []) {
      DealDealerKeepsCards(t);
      DealerPlayKeepsCards(DealDealer(t));
    }
  }

  lemma NextHandKeepsCards(t: Table)
    requires |t.bets| == |t.hands|
    ensures InPlay(AfterNextHand(t)) == InPlay(t)
  {
    DealerPlayKeepsCards(t);
  }

  /** Splitting keeps the two cards, now in two hands. */
  lemma SplitKeepsCards(t: Table)
    requires Wf(t)
    ensures InPlay(AfterSplit(t)) == InPlay(t)
  {
    if CanSplit(t) {
      var first := t.hands[0];
      var split := SplitOff(t);
      assert t.hands == [first];
      assert first == [first[0]] + [first[1]];
      assert multiset(first) == multiset([first[0]]) + multiset([first[1]]);
      assert HandsBelow(split.hands, 2) == HandsBelow(t.hands, 1) by {
        assert HandsBelow(split.hands, 1) == multiset{} + multiset([first[0]]);
        assert HandsBelow(t.hands, 1) == multiset{} + multiset(first);
      }
      assert InPlay(split) == InPlay(t);
      DealPlayerKeepsCards(split, 0);
      DealPlayerKeepsCards(DealPlayer(split, 0), 1);
    }
  }

  /** A hit moves a card from the deck to the current hand and creates or loses none. */
  lemma HitKeepsCards(t: Table)
    requires Wf(t)
    ensures InPlay(AfterHit(t)) == InPlay(t)
  {
    if t.inRound {
      var dealt := DealPlayer(t, t.current);
      DealPlayerKeepsCards(t, t.current);
      NextHandKeepsCards(dealt);
    }
  }

  /** Doubling down creates or loses no card. */
  lemma DoubleKeepsCards(t: Table)
    requires Wf(t)
    ensures InPlay(AfterDouble(t)) == InPlay(t)
  {
    if CanDouble(t) {
      var staked := Stake(t);
      assert InPlay(staked) == InPlay(t);
      DealPlayerKeepsCards(staked, t.current);
      NextHandKeepsCards(DealPlayer(staked, t.current));
    }
  }

  /** Standing creates or loses no card. */
  lemma StandKeepsCards(t: Table)
    requires Wf(t)
    ensures InPlay(AfterStand(t)) == InPlay(t)
  {
    if t.inRound {
      NextHandKeepsCards(t);
    }
  }

  /* ---------------------------------------------------------- properties */

  /** The dealer stops at 17 or more unless the deck ran out first. */
  lemma {:induction false} DealerStandsOnSeventeen(t: Table)
    ensures Score(AfterDealerPlay(t).dealer) >= 17 || AfterDealerPlay(t).deck == []
    ensures |AfterDealerPlay(t).dealer| >= |t.dealer|
    decreases |t.deck|
  {
    if !(Score(t.dealer) >= 17 || t.deck == []) {
      DealerStandsOnSeventeen(DealDealer(t));
    }
  }

  /* ------------------------------------------------------------ ledger */

  lemma {:induction false} SumUpdate(xs: seq<int>, i: nat, v: int)
    requires i < |xs|
    ensures Sum(xs[i := v]) == Sum(xs) - xs[i] + v
  {
    var n := |xs| - 1;
    if i < n {
      assert xs[i := v][..n] == xs[..n][i := v];
      SumUpdate(xs[..n], i, v);
    } else {
      assert xs[i := v][..n] == xs[..n];
    }
  }

  lemma SumAppend(xs: seq<int>, x: int)
    ensures Sum(xs + [x]) == Sum(xs) + x
  {
    assert (xs + [x])[..|xs|] == xs;
  }

  /** What `updateResult` pays out on the table's final hands. */
  function Settlement(t: Table): int
    requires |t.bets| == |t.hands|
  {
    Winnings(t.hands, t.bets, Score(t.dealer), |t.hands|)
  }

  /**
   * Chip accounting from `t` to `r`: chips plus stakes stay the same while
   * the round goes on, and grow by exactly the settlement when it ends.
   */
  predicate Ledger(t: Table, r: Table)
    requires |r.bets| == |r.hands|
  {
    r.chips + Sum(r.bets) == t.chips + Sum(t.bets) + (if t.inRound && !r.inRound then Settlement(r) else 0)
  }

  /** `moveToNextHand` either advances to the next hand or plays the dealer out and settles. */
  lemma NextHandRules(t: Table)
    requires Valid(t) && t.inRound
    ensures Valid(AfterNextHand(t)) && Ledger(t, AfterNextHand(t))
    ensures AfterNextHand(t).hands == t.hands && AfterNextHand(t).bets == t.bets
    ensures t.current < |t.hands| - 1 ==> AfterNextHand(t) == t.(current := t.current + 1)
    ensures t.current == |t.hands| - 1 ==>
      !AfterNextHand(t).inRound && (Score(AfterNextHand(t).dealer) >= 17 || AfterNextHand(t).deck == [])
  {
    if t.current == |t.hands| - 1 {
      var played := AfterDealerPlay(t);
      DealerStandsOnSeventeen(t);
      WinningsBounds(played.hands, played.bets, Score(played.dealer), |played.hands|);
    }
  }

  /** Dealing to a player touches no chips, bets or round flags. */
  lemma DealPlayerKeepsValid(t: Table, i: nat)
    requires Valid(t) && i < |t.hands|
    ensures Valid(DealPlayer(t, i))
    ensures DealPlayer(t, i).bets == t.bets && DealPlayer(t, i).chips == t.chips
    ensures DealPlayer(t, i).inRound == t.inRound && DealPlayer(t, i).current == t.current
    ensures t.deck != [] ==> DealPlayer(t, i).hands[i] == t.hands[i] + [t.deck[|t.deck| - 1]]
    ensures t.deck == [] ==> DealPlayer(t, i) == t
  {
  }

  /**
   * `hit`: nothing outside a round; otherwise the current hand takes the
   * deck's last card, and play moves on only when it busts.
   */
  lemma HitRules(t: Table)
    requires Valid(t)
    ensures Valid(AfterHit(t)) && Ledger(t, AfterHit(t))
    ensures !t.inRound ==> AfterHit(t) == t
    ensures t.inRound ==> |AfterHit(t).hands| == |t.hands| && AfterHit(t).bets == t.bets
    ensures t.inRound && t.deck != [] ==>
      AfterHit(t).hands[t.current] == t.hands[t.current] + [t.deck[|t.deck| - 1]]
    ensures t.inRound && Score(AfterHit(t).hands[t.current]) <= 21 ==>
      AfterHit(t).inRound && AfterHit(t).current == t.current && AfterHit(t).chips == t.chips
    ensures t.inRound && Score(AfterHit(t).hands[t.current]) > 21 ==>
      !AfterHit(t).inRound || AfterHit(t).current == t.current + 1
  {
    if t.inRound {
      var dealt := DealPlayer(t, t.current);
      DealPlayerKeepsValid(t, t.current);
      if Score(dealt.hands[t.current]) > 21 {
        NextHandRules(dealt);
      }
    }
  }

  /**
   * `doubleDown`: only on a two-card hand whose bet the chips can match;
   * then the bet is paid again and doubled, exactly one card is dealt, and
   * play moves on.
   */
  lemma DoubleRules(t: Table)
    requires Valid(t)
    ensures Valid(AfterDouble(t)) && Ledger(t, AfterDouble(t))
    ensures !CanDouble(t) ==> AfterDouble(t) == t
    ensures CanDouble(t) ==>
      && |AfterDouble(t).hands| == |t.hands|
      && AfterDouble(t).bets == t.bets[t.current := 2 * t.bets[t.current]]
      && (t.deck != [] ==> AfterDouble(t).hands[t.current] == t.hands[t.current] + [t.deck[|t.deck| - 1]])
      && (AfterDouble(t).inRound ==>
            AfterDouble(t).current == t.current + 1 && AfterDouble(t).chips == t.chips - t.bets[t.current])
  {
    if CanDouble(t) {
      var staked := Stake(t);
      SumUpdate(t.bets, t.current, 2 * t.bets[t.current]);
      assert Valid(staked);
      DealPlayerKeepsValid(staked, t.current);
      NextHandRules(DealPlayer(staked, t.current));
    }
  }

  /**
   * `splitHand`: only on a single two-card hand of equal values with chips
   * for a second bet; then two hands with equal bets, one card each from
   * the pair and one dealt.
   */
  lemma SplitRules(t: Table)
    requires Valid(t)
    ensures Valid(AfterSplit(t)) && Ledger(t, AfterSplit(t))
    ensures !CanSplit(t) ==> AfterSplit(t) == t
    ensures CanSplit(t) ==>
      && |AfterSplit(t).hands| == 2
      && AfterSplit(t).bets == [t.bets[0], t.bets[0]]
      && AfterSplit(t).chips == t.chips - t.bets[0]
      && AfterSplit(t).inRound && AfterSplit(t).current == t.current
      && AfterSplit(t).hands[0][0] == t.hands[0][0] && AfterSplit(t).hands[1][0] == t.hands[0][1]
      && (|t.deck| >= 2 ==> |AfterSplit(t).hands[0]| == 2 && |AfterSplit(t).hands[1]| == 2)
  {
    if CanSplit(t) {
      var split := SplitOff(t);
      assert t.bets == [t.bets[0]];
      SumAppend(t.bets, t.bets[0]);
      assert Valid(split);
      DealPlayerKeepsValid(split, 0);
      DealPlayerKeepsValid(DealPlayer(split, 0), 1);
    }
  }

  /** `stand`: nothing outside a round; otherwise play moves on. */
  lemma StandRules(t: Table)
    requires Valid(t)
    ensures Valid(AfterStand(t)) && Ledger(t, AfterStand(t))
    ensures !t.inRound ==> AfterStand(t) == t
    ensures AfterStand(t).hands == t.hands && AfterStand(t).bets == t.bets
    ensures t.inRound ==> !AfterStand(t).inRound || AfterStand(t).current == t.current + 1
  {
    if t.inRound {
      NextHandRules(t);
    }
  }

  /** `Opening` is the four `dealCard` calls of `startRound`: player, dealer, player, dealer. */
  lemma OpeningIsFourDeals(t: Table)
    requires |t.hands| == 1 && |t.deck| >= 4
    ensures Opening(t) == DealDealer(DealPlayer(DealDealer(DealPlayer(t, 0)), 0))
  {
    var d, n := t.deck, |t.deck|;
    var t1 := DealPlayer(t, 0);
    assert t1.deck == d[..n - 1] && t1.hands == [t.hands[0] + [d[n - 1]]];
    var t2 := DealDealer(t1);
    assert t2.deck == d[..n - 2] && t2.dealer == t.dealer + [d[n - 2]];
    var t3 := DealPlayer(t2, 0);
    assert t3.deck == d[..n - 3] && t3.hands == [t.hands[0] + [d[n - 1]] + [d[n - 3]]];
    assert t.hands[0] + [d[n - 1]] + [d[n - 3]] == t.hands[0] + [d[n - 1], d[n - 3]];
    assert t.dealer + [d[n - 2]] + [d[n - 4]] == t.dealer + [d[n - 2], d[n - 4]];
  }

  /** The opening deal loses and creates no card. */
  lemma OpeningKeepsCards(t: Table)
    requires |t.hands| == 1 && |t.deck| >= 4
    ensures InPlay(Opening(t)) == InPlay(t)
  {
    OpeningIsFourDeals(t);
    var t1 := DealPlayer(t, 0);
    var t2 := DealDealer(t1);
    var t3 := DealPlayer(t2, 0);
    DealPlayerKeepsCards(t, 0);
    DealDealerKeepsCards(t1);
    DealPlayerKeepsCards(t2, 0);
    DealDealerKeepsCards(t3);
  }

  /** The blackjack check moves no card and pays exactly the natural payout. */
  lemma NaturalsPay(t: Table, bet: int)
    requires |t.hands| == 1
    ensures Naturals(t, bet) == t.(
      chips := t.chips + NaturalPayout(Score(t.hands[0]) == 21, Score(t.dealer) == 21, bet),
      inRound := Score(t.hands[0]) != 21 && Score(t.dealer) != 21)
  {
  }

  /**
   * `startRound`: nothing during a round or without chips; otherwise the
   * bet is `min(25, chips)`, a fresh shuffled deck deals two cards each,
   * and a natural pays at once and ends the round.
   */
  lemma StartRules(t: Table, draws: seq<real>)
    requires Valid(t) && |draws| == 52 && AllDraws(draws)
    ensures Valid(AfterStart(t, draws))
    ensures t.inRound || t.chips <= 0 ==> AfterStart(t, draws) == t
    ensures !t.inRound && t.chips > 0 ==>
      var r := AfterStart(t, draws);
      var bet := if MaxBet < t.chips then MaxBet else t.chips;
      var playerBJ := Score(r.hands[0]) == 21;
      var dealerBJ := Score(r.dealer) == 21;
      && r.bets == [bet] && |r.hands| == 1 && r.current == 0
      && |r.hands[0]| == 2 && |r.dealer| == 2 && |r.deck| == 48
      && r.chips == t.chips - bet + NaturalPayout(playerBJ, dealerBJ, bet)
      && (r.inRound <==> !playerBJ && !dealerBJ)
  {
    if !t.inRound && t.chips > 0 {
      var deck := Shuffling.Shuffled(FullDeck(), draws);
      ShuffledDeckSize(draws);
      BeginRules(t, deck);
      assert AfterStart(t, draws) == Begin(t, deck);
    }
  }

  /** The round `Begin` sets up on any deck of at least four cards. */
  lemma BeginRules(t: Table, deck: seq<Card>)
    requires Valid(t) && !t.inRound && t.chips > 0 && |deck| >= 4
    ensures
      var r := Begin(t, deck);
      var bet := if MaxBet < t.chips then MaxBet else t.chips;
      var playerBJ := Score(r.hands[0]) == 21;
      var dealerBJ := Score(r.dealer) == 21;
      && Valid(r)
      && r.bets == [bet] && |r.hands| == 1 && r.current == 0
      && |r.hands[0]| == 2 && |r.dealer| == 2 && |r.deck| == |deck| - 4
      && r.chips == t.chips - bet + NaturalPayout(playerBJ, dealerBJ, bet)
      && (r.inRound <==> !playerBJ && !dealerBJ)
  {
    var bet := if MaxBet < t.chips then MaxBet else t.chips;
    var reset := Table(t.chips - bet, deck, [], [[]], [bet], 0, false);
    var dealt := Opening(reset);
    NaturalsPay(dealt, bet);
    assert Begin(t, deck) == Naturals(dealt, bet);
  }

  /** A new round is played with exactly the 52 cards of a fresh deck. */
  lemma StartKeepsCards(t: Table, draws: seq<real>)
    requires |draws| == 52 && AllDraws(draws)
    ensures !t.inRound && t.chips > 0 ==> InPlay(AfterStart(t, draws)) == multiset(FullDeck())
  {
    if !t.inRound && t.chips > 0 {
      Shuffling.ShuffledIsPermutation(FullDeck(), draws);
      BeginKeepsCards(t, Shuffling.Shuffled(FullDeck(), draws));

    }
  }

  /** A round begun with `deck` holds exactly the cards of `deck`. */
  lemma BeginKeepsCards(t: Table, deck: seq<Card>)
    requires |deck| >= 4
    ensures InPlay(Begin(t, deck)) == multiset(deck)
  {
    var bet := if MaxBet < t.chips then MaxBet else t.chips;
    var reset := Table(t.chips - bet, deck, [], [[]], [bet], 0, false);
    assert Begin(t, deck) == Naturals(Opening(reset), bet);
    ResetHoldsDeck(reset);
    OpeningKeepsCards(reset);
    NaturalsKeepCards(Opening(reset), bet);
  }

  lemma ResetHoldsDeck(t: Table)
    requires t.dealer == [] && t.hands == [[]]
    ensures InPlay(t) == multiset(t.deck)
  {
    assert HandsBelow(t.hands, 1) == multiset{} + multiset(t.hands[0]);
  }

  lemma NaturalsKeepCards(t: Table, bet: int)
    requires |t.hands| == 1
    ensures InPlay(Naturals(t, bet)) == InPlay(t)
  {
    var r := Naturals(t, bet);
    assert r.deck == t.deck && r.dealer == t.dealer && r.hands == t.hands;
  }

  lemma ShuffledDeckSize(draws: seq<real>)
    requires |draws| == 52 && AllDraws(draws)
    ensures |Shuffling.Shuffled(FullDeck(), draws)| == 52
  {
    Shuffling.ShuffledIsPermutation(FullDeck(), draws);
  }

  /** The chips and table a game starts with. */
  function Initial(): (t: Table)
    ensures Valid(t) && !t.inRound && t.chips == StartingChips
  {
    Table(StartingChips, [], [], [], [], 0, false)
  }

  /* ----------------------------------------------------------------- class */

  /** The game's module-level variables, changed in place by the commands. */
  class Game {
    var chips: int
    var deck: seq<Card>
    var dealer: seq<Card>
    var playerHands: seq<seq<Card>>
    var bets: seq<int>
    var currentHand: int
    var inRound: bool

    function State(): Table
      reads this
    {
      Table(chips, deck, dealer, playerHands, bets, currentHand, inRound)
    }

    constructor()
      ensures State() == Initial()
    {
      chips := StartingChips;
      deck := [];
      dealer := [];
      playerHands := [];
      bets := [];
      currentHand := 0;
      inRound := false;
    }

    /** `dealCard(playerHands[i])`: `push(deck.pop())`. */
    method DealToPlayer(i: nat)
      requires i < |playerHands|
      modifies this
      ensures State() == DealPlayer(old(State()), i)
    {
      if deck != [] {
        var n := |deck| - 1;
        var card := deck[n];
        deck := deck[..n];
        playerHands := playerHands[i := playerHands[i] + [card]];
      }
    }

    /** `dealCard(dealer)`. */
    method DealToDealer()
      modifies this
      ensures State() == DealDealer(old(State()))
    {
      if deck != [] {
        var n := |deck| - 1;
        var card := deck[n];
        deck := deck[..n];
        dealer := dealer + [card];
      }
    }

    /** `startRound`, with the draws of the shuffle as input. */
    method StartRound(draws: seq<real>)
      requires |draws| == 52 && AllDraws(draws)
      modifies this
      ensures State() == AfterStart(old(State()), draws)
    {
      if inRound || chips <= 0 {
        return;
      }
      var bet := if MaxBet < chips then MaxBet else chips;
      var shuffled := ShuffledDeck(draws);
      ShuffledDeckSize(draws);
      chips, deck, dealer, playerHands, bets, currentHand := chips - bet, shuffled, [], [[]], [bet], 0;
      DealOpening();
      SettleNaturals(bet);
    }

    /** The four opening cards, player and dealer in turn. */
    method DealOpening()
      requires |playerHands| == 1 && |deck| >= 4
      modifies this
      ensures State() == Opening(old(State()))
    {
      ghost var reset := State();
      DealToPlayer(0);
      DealToDealer();
      DealToPlayer(0);
      DealToDealer();
      OpeningIsFourDeals(reset);
    }

    /** The blackjack check of `startRound`: a natural settles the round at once. */
    method SettleNaturals(bet: int)
      requires |playerHands| == 1
      modifies this
      ensures State() == Naturals(old(State()), bet)
    {
      var playerTotal := HandValue(playerHands[0]);
      var dealerTotal := HandValue(dealer);
      var playerBJ := playerTotal == 21;
      var dealerBJ := dealerTotal == 21;
      if playerBJ || dealerBJ {
        if playerBJ && dealerBJ {
          chips := chips + bet;
        } else if playerBJ {
          chips := chips + bet * 2;
        }
        inRound := false;
      } else {
        inRound := true;
      }
    }

    /** `hit`. */
    method Hit()
      requires Wf(State())
      modifies this
      ensures State() == AfterHit(old(State()))
    {
      if !inRound {
        return;
      }
      DealToPlayer(currentHand);
      var total := HandValue(playerHands[currentHand]);
      if total > 21 {
        MoveToNextHand();
      }
    }

    /** `doubleDown`. */
    method DoubleDown()
      requires Wf(State())
      modifies this
      ensures State() == AfterDouble(old(State()))
    {
      if !inRound {
        return;
      }
      if |playerHands[currentHand]| != 2 || chips < bets[currentHand] {
        return;
      }
      DoubleStake();
      DealToPlayer(currentHand);
      MoveToNextHand();
    }

    /** The stake of `doubleDown`: the current hand's bet is matched from the chips. */
    method DoubleStake()
      requires Wf(State()) && inRound
      modifies this
      ensures State() == Stake(old(State()))
    {
      var bet := bets[currentHand];
      chips := chips - bet;
      bets := bets[currentHand := bet * 2];
    }

    /** `splitHand`. */
    method SplitHand()
      requires Wf(State())
      modifies this
      ensures State() == AfterSplit(old(State()))
    {
      if !inRound || |playerHands| > 1 || chips < bets[0] || |playerHands[0]| != 2
        || playerHands[0][0].value != playerHands[0][1].value
      {
        return;
      }
      chips := chips - bets[0];
      var first := playerHands[0];
      var secondCard := first[1];
      playerHands := playerHands[0 := [first[0]]];
      playerHands := playerHands + [[secondCard]];
      bets := bets + [bets[0]];
      DealToPlayer(0);
      DealToPlayer(1);
    }

    /** `dealerPlay`: `while (handValue(dealer) < 17) dealCard(dealer)`, stopping if the deck runs out. */
    method DealerPlay()
      modifies this
      ensures State() == AfterDealerPlay(old(State()))
    {
      var total := HandValue(dealer);
      while total < 17 && deck != []
        invariant total == Score(dealer)
        invariant AfterDealerPlay(State()) == AfterDealerPlay(old(State()))
        decreases |deck|
      {
        DealToDealer();
        total := HandValue(dealer);
      }
    }

    /** `moveToNextHand`. */
    method MoveToNextHand()
      requires |bets| == |playerHands|
      modifies this
      ensures State() == AfterNextHand(old(State()))
    {
      if currentHand < |playerHands| - 1 {
        currentHand := currentHand + 1;
      } else {
        DealerPlay();
        UpdateResult();
      }
    }

    /** `updateResult`: the `forEach` that pays every hand, then the round ends. */
    method UpdateResult()
      requires |bets| == |playerHands|
      modifies this
      ensures State() == AfterResult(old(State()))
    {
      var dealerTotal := HandValue(dealer);
      var i := 0;
      while i < |playerHands|
        invariant 0 <= i <= |playerHands|
        invariant deck == old(deck) && dealer == old(dealer) && playerHands == old(playerHands)
        invariant bets == old(bets) && currentHand == old(currentHand) && inRound == old(inRound)
        invariant chips == old(chips) + Winnings(playerHands, bets, dealerTotal, i)
      {
        var playerTotal := HandValue(playerHands[i]);
        var bet := bets[i];
        if playerTotal > 21 {
        } else if dealerTotal > 21 || playerTotal > dealerTotal {
          chips := chips + bet * 2;
        } else if playerTotal == dealerTotal {
          chips := chips + bet;
        }
        i := i + 1;
      }
      inRound := false;
    }

    /** `stand`. */
    method Stand()
      requires Wf(State())
      modifies this
      ensures State() == AfterStand(old(State()))
    {
      if !inRound {
        return;
      }
      MoveToNextHand();
    }
  }
}
