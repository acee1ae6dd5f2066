/**
 * Klondike solitaire: the card helpers, the legality rules and the
 * pile-moving commands of games/solitaire/solitaire.js.
 *
 * The four piles (stock, waste, foundations, tableau) are fields of the class
 * `Klondike`; its methods are proved against the value-level functions
 * `Draw` and `Move` on `Board`, and the lemmas about those functions carry the
 * game's promises: cards are conserved, foundations only ever hold an ascending
 * single-suit run from the Ace, and a refused move changes nothing.
 */
module Solitaire {
  import opened Chance
  import Shuffling
  import Bags

  datatype Suit = Spades | Hearts | Diamonds | Clubs
  datatype Color = Red | Black

  /** `SUITS` and `RANKS`, in the source's order. */
  const Suits: seq<Suit> := [Spades, Hearts, Diamonds, Clubs]
  const Ranks: seq<string> := ["A", "2", "3", "4", "5", "6", "7", "8", "9", "10", "J", "Q", "K"]

  datatype Card = Card(suit: Suit, rank: string, faceUp: bool)

  /** What identifies a card whichever way up it lies. */
  type Face = (Suit, string)

  function FaceOf(c: Card): Face {
    (c.suit, c.rank)
  }

  /** The faces in a pile, as a multiset. */
  /** The faces of a pile, in order. */
  function FaceList(cs: seq<Card>): (fs: seq<Face>)
    ensures |fs| == |cs| && forall k :: 0 <= k < |cs| ==> fs[k] == FaceOf(cs[k])
  {
    seq(|cs|, k requires 0 <= k < |cs| => FaceOf(cs[k]))
  }

  function Faces(cs: seq<Card>): multiset<Face> {
    multiset(FaceList(cs))
  }

  /** The faces in a row of piles. */
  function FacesOf(ps: seq<seq<Card>>): multiset<Face> {
    FacesBelow(ps, |ps|)
  }

  /** The faces in the first `n` piles of a row. */
  function FacesBelow(ps: seq<seq<Card>>, n: nat): multiset<Face>
    requires n <= |ps|
  {
    if n == 0 then multiset{} else FacesBelow(ps, n - 1) + Faces(ps[n - 1])
  }

  /** The number of cards in a row of piles. */
  function Count(ps: seq<seq<Card>>): nat {
    CountBelow(ps, |ps|)
  }

  function CountBelow(ps: seq<seq<Card>>, n: nat): nat
    requires n <= |ps|
  {
    if n == 0 then 0 else CountBelow(ps, n - 1) + |ps[n - 1]|
  }

  /* ---------------------------------------------------------------- ranks */

  /** `Array.prototype.indexOf`: the first position of `x`, or -1. */
  function IndexOf(s: seq<string>, x: string): (i: int)
    ensures -1 <= i < |s|
    ensures i >= 0 ==> s[i] == x && forall k :: 0 <= k < i ==> s[k] != x
    ensures i == -1 ==> forall k :: 0 <= k < |s| ==> s[k] != x
  {
    if s == [] then -1
    else if s[0] == x then 0
    else
      var j := IndexOf(s[1..], x);
      if j == -1 then -1 else j + 1
  }

  /** `rankValue`: the rank's 1-based position in `RANKS`, 0 for a string that is no rank. */
  function RankValue(rank: string): (v: nat)
    ensures v <= |Ranks|
    ensures v > 0 ==> Ranks[v - 1] == rank
  {
    IndexOf(Ranks, rank) + 1
  }

  /** Exactly the strings that are no rank have value 0. */
  lemma RankValueZero(rank: string)
    ensures RankValue(rank) == 0 <==> rank !in Ranks
  {
  }

  /** No rank is listed twice: their first characters already differ. */
  lemma RanksDistinct()
    ensures forall i, j :: 0 <= i < j < |Ranks| ==> Ranks[i] != Ranks[j]
  {
    var firsts := seq(13, i requires 0 <= i < 13 => Ranks[i][0]);
    assert firsts == ['A', '2', '3', '4', '5', '6', '7', '8', '9', '1', 'J', 'Q', 'K'];
    forall i, j | 0 <= i < j < 13
      ensures Ranks[i] != Ranks[j]
    {
      assert firsts[i] != firsts[j];
    }
  }

  /** A maps to 1, 2..10 to themselves, J, Q, K to 11, 12, 13. */
  lemma RankValuesAreOneToThirteen()
    ensures forall i :: 0 <= i < |Ranks| ==> RankValue(Ranks[i]) == i + 1
  {
    forall i | 0 <= i < |Ranks|
      ensures RankValue(Ranks[i]) == i + 1
    {
      RankValueAt(i);
    }
  }

  lemma RankValueAt(i: nat)
    requires i < |Ranks|
    ensures RankValue(Ranks[i]) == i + 1
  {
    RanksDistinct();
    assert IndexOf(Ranks, Ranks[i]) <= i;
  }

  lemma AceIsOne()
    ensures RankValue("A") == 1
  {
    assert Ranks[0] == "A";
  }

  /** `cardColor`: red exactly for hearts and diamonds. */
  function CardColor(suit: Suit): (c: Color)
    ensures c == Red <==> suit in {Hearts, Diamonds}
  {
    if suit == Hearts || suit == Diamonds then Red else Black
  }

  /* ----------------------------------------------------------------- deck */

  /** The deck `createDeck` builds: suit-major, ranks A..K, all face down. */
  function FullDeck(): (d: seq<Card>)
    ensures |d| == 52
  {
    seq(52, i requires 0 <= i < 52 => Card(Suits[i / 13], Ranks[i % 13], false))
  }

  /** Every suit-rank pair is in the deck exactly once. */
  lemma FullDeckHasEachCardOnce()
    ensures forall s, r :: s in Suits && r in Ranks ==> Card(s, r, false) in FullDeck()
    ensures forall i, j :: 0 <= i < j < 52 ==> FaceOf(FullDeck()[i]) != FaceOf(FullDeck()[j])
  {
    RanksDistinct();
    var d := FullDeck();
    forall s, r | s in Suits && r in Ranks
      ensures Card(s, r, false) in d
    {
      var si :| 0 <= si < 4 && Suits[si] == s;
      var ri :| 0 <= ri < 13 && Ranks[ri] == r;
      assert d[13 * si + ri] == Card(s, r, false);
    }
    forall i, j | 0 <= i < j < 52
      ensures FaceOf(d[i]) != FaceOf(d[j])
    {
      if i / 13 == j / 13 {
        assert i % 13 != j % 13;
      } else {
        assert Suits[i / 13] != Suits[j / 13];
      }
    }
  }

  /** `createDeck`: the nested `forEach` over suits and ranks. */
  method CreateDeck() returns (deck: seq<Card>)
    ensures deck == FullDeck()
  {
    deck := [];
    var s := 0;
    while s < 4
      invariant 0 <= s <= 4
      invariant deck == FullDeck()[..13 * s]
    {
      var r := 0;
      while r < 13
        invariant 0 <= r <= 13
        invariant deck == FullDeck()[..13 * s + r]
      {
        deck := deck + [Card(Suits[s], Ranks[r], false)];
        r := r + 1;
      }
      s := s + 1;
    }
  }

  /* ---------------------------------------------------------------- rules */

  /** `canMoveToFoundation`. */
  predicate CanMoveToFoundation(card: Card, foundation: seq<Card>) {
    if foundation == [] then card.rank == "A"
    else
      var top := foundation[|foundation| - 1];
      top.suit == card.suit && RankValue(card.rank) == RankValue(top.rank) + 1
  }

  /** `card` may lie on `top` in the tableau: the other colour, one rank lower. */
  predicate Follows(top: Card, card: Card) {
    CardColor(card.suit) != CardColor(top.suit) && RankValue(card.rank) == RankValue(top.rank) - 1
  }

  /** `canMoveToTableau`: judged on the leading card of the moved run. */
  predicate CanMoveToTableau(cards: seq<Card>, pile: seq<Card>)
    requires cards != []
  {
    if pile == [] then cards[0].rank == "K" else Follows(pile[|pile| - 1], cards[0])
  }

  /** A foundation as the rules build it: one suit, A, 2, 3, ... from the bottom. */
  predicate FoundationRun(f: seq<Card>) {
    |f| <= |Ranks| && forall k :: 0 <= k < |f| ==> f[k].suit == f[0].suit && f[k].rank == Ranks[k]
  }

  /** A card the foundation rule accepts extends the run, so runs are all foundations can hold. */
  lemma FoundationRuleKeepsRun(card: Card, f: seq<Card>)
    requires FoundationRun(f) && CanMoveToFoundation(card, f)
    ensures FoundationRun(f + [card])
  {
    if f == [] {
      AceStartsRun(card);
      assert f + [card] == [card];
    } else {
      var n := |f|;
      var top := f[n - 1];
      assert top.rank == Ranks[n - 1];
      RankValueAt(n - 1);
      assert RankValue(card.rank) == n + 1;
      RunExtends(f, card);
    }
  }

  /** An ace alone is a run. */
  lemma AceStartsRun(card: Card)
    requires card.rank == "A"
    ensures FoundationRun([card])
  {
    assert Ranks[0] == "A";
  }

  /** The card whose rank follows the top's, in the top's suit, extends a run. */
  lemma RunExtends(f: seq<Card>, card: Card)
    requires FoundationRun(f) && f != [] && |f| < |Ranks|
    requires card.suit == f[|f| - 1].suit && card.rank == Ranks[|f|]
    ensures FoundationRun(f + [card])
  {
    var g := f + [card];
    forall k | 0 <= k < |g|
      ensures g[k].suit == g[0].suit && g[k].rank == Ranks[k]
    {
      if k < |f| {
        assert g[k] == f[k];
      }
    }
  }

  /** In a run the rank values count up from 1, as `canMoveToFoundation` checks card by card. */
  lemma RunRankValues(f: seq<Card>)
    requires FoundationRun(f)
    ensures forall k :: 0 <= k < |f| ==> RankValue(f[k].rank) == k + 1
  {
    RankValuesAreOneToThirteen();
  }

  /* ---------------------------------------------------------------- board */

  /** The four piles of the game as one value. */
  datatype Board = Board(stock: seq<Card>, waste: seq<Card>, foundations: seq<seq<Card>>, tableau: seq<seq<Card>>)

  function Contents(b: Board): multiset<Face> {
    Faces(b.stock) + Faces(b.waste) + FacesOf(b.foundations) + FacesOf(b.tableau)
  }

  /** Four foundations, seven tableau piles, foundations are runs, and the 52 cards are all there. */
  predicate Valid(b: Board) {
    && |b.foundations| == 4
    && |b.tableau| == 7
    && (forall i :: 0 <= i < 4 ==> FoundationRun(b.foundations[i]))
    && Contents(b) == Faces(FullDeck())
  }

  /** `checkWin`: every foundation holds 13 cards. */
  predicate Won(b: Board)
    requires |b.foundations| == 4
  {
    forall i :: 0 <= i < 4 ==> |b.foundations[i]| == 13
  }

  /** A won board has every card home: stock, waste and tableau are empty. */
  lemma WonMeansEveryCardHome(b: Board)
    requires Valid(b) && Won(b)
    ensures b.stock == [] && b.waste == []
    ensures forall i :: 0 <= i < 7 ==> b.tableau[i] == []
  {
    NothingOutsideFoundations(b);
    NoCardsNoPiles(b.tableau);
  }

  lemma NoCardsNoPiles(ps: seq<seq<Card>>)
    requires Count(ps) == 0
    ensures forall i :: 0 <= i < |ps| ==> ps[i] == []
  {
    forall i | 0 <= i < |ps|
      ensures ps[i] == []
    {
      CountAtLeastPile(ps, i);
    }
  }

  /** 52 cards on the board and 52 on the foundations leave none anywhere else. */
  lemma NothingOutsideFoundations(b: Board)
    requires Valid(b) && Won(b)
    ensures b.stock == [] && b.waste == [] && Count(b.tableau) == 0
  {
    CountUniform(b.foundations, 13);
    ContentsSize(b);
  }

  lemma CountUniform(ps: seq<seq<Card>>, n: nat)
    requires forall i :: 0 <= i < |ps| ==> |ps[i]| == n
    ensures Count(ps) == n * |ps|
  {
    CountBelowUniform(ps, n, |ps|);
  }

  lemma {:induction false} CountBelowUniform(ps: seq<seq<Card>>, n: nat, k: nat)
    requires k <= |ps| && forall i :: 0 <= i < |ps| ==> |ps[i]| == n
    ensures CountBelow(ps, k) == n * k
  {
    if k > 0 {
      CountBelowUniform(ps, n, k - 1);
    }
  }

  lemma ContentsSize(b: Board)
    ensures |Contents(b)| == |b.stock| + |b.waste| + Count(b.foundations) + Count(b.tableau)
  {
    FacesBelowSize(b.foundations, |b.foundations|);
    FacesBelowSize(b.tableau, |b.tableau|);
  }

  lemma {:induction false} FacesBelowSize(ps: seq<seq<Card>>, n: nat)
    requires n <= |ps|
    ensures |FacesBelow(ps, n)| == CountBelow(ps, n)
  {
    if n > 0 {
      FacesBelowSize(ps, n - 1);
    }
  }

  lemma CountAtLeastPile(ps: seq<seq<Card>>, i: nat)
    requires i < |ps|
    ensures |ps[i]| <= Count(ps)
  {
    CountBelowAtLeastPile(ps, i, |ps|);
  }

  lemma {:induction false} CountBelowAtLeastPile(ps: seq<seq<Card>>, i: nat, n: nat)
    requires i < n <= |ps|
    ensures |ps[i]| <= CountBelow(ps, n)
  {
    if i < n - 1 {
      CountBelowAtLeastPile(ps, i, n - 1);
    }
  }

  lemma FacesAppend(a: seq<Card>, b: seq<Card>)
    ensures Faces(a + b) == Faces(a) + Faces(b)
  {
    assert FaceList(a + b) == FaceList(a) + FaceList(b);
  }

  lemma FacesSplit(p: seq<Card>, k: nat)
    requires k <= |p|
    ensures Faces(p) == Faces(p[..k]) + Faces(p[k..])
  {
    assert p == p[..k] + p[k..];
    FacesAppend(p[..k], p[k..]);
  }

  /** Replacing one pile changes the row's faces by exactly that pile's faces. */
  lemma FacesOfUpdate(ps: seq<seq<Card>>, i: nat, p: seq<Card>)
    requires i < |ps|
    ensures FacesOf(ps[i := p]) + Faces(ps[i]) == FacesOf(ps) + Faces(p)
  {
    FacesBelowUpdate(ps, i, p, |ps|);
  }

  lemma {:induction false} FacesBelowUpdate(ps: seq<seq<Card>>, i: nat, p: seq<Card>, n: nat)
    requires i < n <= |ps|
    ensures FacesBelow(ps[i := p], n) + Faces(ps[i]) == FacesBelow(ps, n) + Faces(p)
  {
    var qs := ps[i := p];
    if n == i + 1 {
      FacesBelowAgree(ps, qs, i);
      Bags.Swap(FacesBelow(ps, i), Faces(p), Faces(ps[i]));
    } else {
      FacesBelowUpdate(ps, i, p, n - 1);
      assert qs[n - 1] == ps[n - 1];
      Bags.AddRight(FacesBelow(qs, n - 1), FacesBelow(ps, n - 1), Faces(ps[n - 1]), Faces(ps[i]), Faces(p));
    }
  }

  /** Rows that agree on their first `n` piles agree on those piles' faces. */
  lemma {:induction false} FacesBelowAgree(ps: seq<seq<Card>>, qs: seq<seq<Card>>, n: nat)
    requires n <= |ps| && n <= |qs|
    requires forall k :: 0 <= k < n ==> ps[k] == qs[k]
    ensures FacesBelow(ps, n) == FacesBelow(qs, n)
  {
    if n > 0 {
      FacesBelowAgree(ps, qs, n - 1);
    }
  }

  lemma FacesOne(c: Card)
    ensures Faces([c]) == multiset{FaceOf(c)}
  {
    assert FaceList([c]) == [FaceOf(c)];
  }

  lemma FacesOfEmpties(ps: seq<seq<Card>>)
    requires forall i :: 0 <= i < |ps| ==> ps[i] == []
    ensures FacesOf(ps) == multiset{}
  {
    FacesBelowEmpties(ps, |ps|);
  }

  lemma {:induction false} FacesBelowEmpties(ps: seq<seq<Card>>, n: nat)
    requires n <= |ps| && forall i :: 0 <= i < |ps| ==> ps[i] == []
    ensures FacesBelow(ps, n) == multiset{}
  {
    if n > 0 {
      FacesBelowEmpties(ps, n - 1);
      Bags.AddEmpty<Face>(multiset{});
    }
  }

  /* ---------------------------------------------------------- draw stock */

  /** The waste turned back into a stock: reversed, every card face down. */
  function TurnOver(w: seq<Card>): (s: seq<Card>)
    ensures |s| == |w|
  {
    seq(|w|, j requires 0 <= j < |w| => w[|w| - 1 - j].(faceUp := false))
  }

  lemma {:induction false} TurnOverKeepsFaces(w: seq<Card>)
    ensures Faces(TurnOver(w)) == Faces(w)
  {
    if w != [] {
      var n := |w| - 1;
      var rest := TurnOver(w[..n]);
      var top := multiset{FaceOf(w[n])};
      assert TurnOver(w) == [w[n].(faceUp := false)] + rest;
      FacesAppend([w[n].(faceUp := false)], rest);
      FacesOne(w[n].(faceUp := false));
      TurnOverKeepsFaces(w[..n]);
      FacesSplit(w, n);
      assert w[n..] == [w[n]];
      FacesOne(w[n]);
      Bags.Rotate(top, Faces(w[..n]));
    }
  }

  /** `drawFromStock` as a function of the board. */
  function Draw(b: Board): Board {
    if b.stock != [] then
      var n := |b.stock| - 1;
      b.(stock := b.stock[..n], waste := b.waste + [b.stock[n].(faceUp := true)])
    else
      b.(stock := TurnOver(b.waste), waste := [])
  }

  /** Drawing only moves cards between stock and waste. */
  lemma DrawKeepsCards(b: Board)
    ensures Faces(Draw(b).stock) + Faces(Draw(b).waste) == Faces(b.stock) + Faces(b.waste)
    ensures Draw(b).foundations == b.foundations && Draw(b).tableau == b.tableau
  {
    if b.stock != [] {
      var n := |b.stock| - 1;
      var top := b.stock[n];
      FacesSplit(b.stock, n);
      assert b.stock[n..] == [top];
      FacesOne(top);
      FacesAppend(b.waste, [top.(faceUp := true)]);
      FacesOne(top.(faceUp := true));
      Bags.Shift(Faces(b.stock[..n]), Faces(b.waste), multiset{FaceOf(top)});
    } else {
      TurnOverKeepsFaces(b.waste);
      Bags.AddEmpty(Faces(b.waste));
      Bags.Rotate(Faces(b.waste), multiset{});
    }
  }

  /** Drawing keeps a board valid. */
  lemma DrawKeepsValid(b: Board)
    requires Valid(b)
    ensures Valid(Draw(b))
  {
    DrawKeepsCards(b);
  }

  /** A draw from a non-empty stock shows the drawn card, and recycling leaves the stock face down. */
  lemma DrawShowsTopCard(b: Board)
    ensures b.stock != [] ==> |Draw(b).waste| == |b.waste| + 1 && Draw(b).waste[|b.waste|].faceUp
    ensures b.stock == [] ==> Draw(b).waste == [] && forall c :: c in Draw(b).stock ==> !c.faceUp
  {
  }

  /* ---------------------------------------------------------------- moves */

  datatype Selection = FromWaste | FromTableau(pile: nat, index: nat)
  datatype PileKind = StockPile | WastePile | FoundationPile | TableauPile
  datatype Target = Target(pile: PileKind, index: nat)

  /** What a click handler can pass: an existing tableau card, and a pile index in range. */
  predicate InRange(b: Board, sel: Selection, t: Target) {
    && |b.foundations| == 4 && |b.tableau| == 7
    && (sel.FromTableau? ==> sel.pile < 7 && sel.index < |b.tableau[sel.pile]|)
    && (t.pile == FoundationPile ==> t.index < 4)
    && (t.pile == TableauPile ==> t.index < 7)
  }

  /** The cards a selection picks up: the waste top, or the tableau pile from `index` on. */
  function Picked(b: Board, sel: Selection): seq<Card>
    requires |b.tableau| == 7 && (sel.FromTableau? ==> sel.pile < 7 && sel.index < |b.tableau[sel.pile]|)
  {
    match sel
    case FromWaste => if b.waste == [] then [] else [b.waste[|b.waste| - 1]]
    case FromTableau(p, i) => b.tableau[p][i..]
  }

  /** Whether `attemptMove` succeeds. */
  predicate Legal(b: Board, sel: Selection, t: Target)
    requires InRange(b, sel, t)
  {
    var cards := Picked(b, sel);
    && cards != []
    && match t.pile
       case FoundationPile => |cards| == 1 && CanMoveToFoundation(cards[0], b.foundations[t.index])
       case TableauPile => CanMoveToTableau(cards, b.tableau[t.index])
       case _ => false
  }

  /** The pile with its top card turned face up if it was face down (`flipOrigin`). */
  function FlipTop(p: seq<Card>): seq<Card> {
    if p != [] && !p[|p| - 1].faceUp then p[..|p| - 1] + [p[|p| - 1].(faceUp := true)] else p
  }

  /** The board without the picked cards, before anything is placed. */
  function Lift(b: Board, sel: Selection): Board
    requires |b.tableau| == 7 && (sel.FromTableau? ==> sel.pile < 7 && sel.index < |b.tableau[sel.pile]|)
  {
    match sel
    case FromWaste => if b.waste == [] then b else b.(waste := b.waste[..|b.waste| - 1])
    case FromTableau(p, i) => b.(tableau := b.tableau[p := b.tableau[p][..i]])
  }

  /** A successful `attemptMove`: lift, place on the target, then flip the origin's new top. */
  function Move(b: Board, sel: Selection, t: Target): (m: Board)
    requires InRange(b, sel, t) && Legal(b, sel, t)
    ensures m.stock == b.stock
    ensures |m.foundations| == 4 && |m.tableau| == 7
    ensures t.pile != FoundationPile ==> m.foundations == b.foundations
    ensures forall i :: 0 <= i < 4 && i != t.index ==> m.foundations[i] == b.foundations[i]
  {
    Reveal(Place(Lift(b, sel), Picked(b, sel), t), sel)
  }

  /** The cards put on top of the target pile (a foundation, or else a tableau pile). */
  function Place(b: Board, cards: seq<Card>, t: Target): Board
    requires |b.foundations| == 4 && |b.tableau| == 7
    requires t.pile == FoundationPile ==> t.index < 4
    requires t.pile != FoundationPile ==> t.index < 7
  {
    if t.pile == FoundationPile then b.(foundations := b.foundations[t.index := b.foundations[t.index] + cards])
    else b.(tableau := b.tableau[t.index := b.tableau[t.index] + cards])
  }

  /** The board after `flipOrigin`: the source tableau pile's top card turned up. */
  function Reveal(b: Board, sel: Selection): Board
    requires |b.tableau| == 7 && (sel.FromTableau? ==> sel.pile < 7)
  {
    match sel
    case FromWaste => b
    case FromTableau(p, _) => b.(tableau := b.tableau[p := FlipTop(b.tableau[p])])
  }

  lemma FlipTopKeepsFaces(p: seq<Card>)
    ensures Faces(FlipTop(p)) == Faces(p)
  {
    if p != [] && !p[|p| - 1].faceUp {
      var n := |p| - 1;
      assert p == p[..n] + [p[n]];
      FacesAppend(p[..n], [p[n]]);
      FacesAppend(p[..n], [p[n].(faceUp := true)]);
      FacesOne(p[n]);
      FacesOne(p[n].(faceUp := true));
    }
  }

  /** Putting cards on pile `i` adds exactly their faces to the row. */
  lemma RowAdd(ps: seq<seq<Card>>, i: nat, cards: seq<Card>)
    requires i < |ps|
    ensures FacesOf(ps[i := ps[i] + cards]) == FacesOf(ps) + Faces(cards)
  {
    FacesOfUpdate(ps, i, ps[i] + cards);
    FacesAppend(ps[i], cards);
    Bags.CancelRight(FacesOf(ps[i := ps[i] + cards]), FacesOf(ps), Faces(ps[i]), Faces(cards));
  }

  /** Cutting pile `i` at `k` removes exactly the cut-off cards' faces from the row. */
  lemma RowCut(ps: seq<seq<Card>>, i: nat, k: nat)
    requires i < |ps| && k <= |ps[i]|
    ensures FacesOf(ps[i := ps[i][..k]]) + Faces(ps[i][k..]) == FacesOf(ps)
  {
    var lo, hi := ps[i][..k], ps[i][k..];
    FacesOfUpdate(ps, i, lo);
    FacesSplit(ps[i], k);
    Bags.CancelLeft(FacesOf(ps[i := lo]), FacesOf(ps), Faces(lo), Faces(hi));
  }

  /** Turning up the top card of pile `i` leaves the row's faces alone. */
  lemma RowFlip(ps: seq<seq<Card>>, i: nat)
    requires i < |ps|
    ensures FacesOf(ps[i := FlipTop(ps[i])]) == FacesOf(ps)
  {
    FacesOfUpdate(ps, i, FlipTop(ps[i]));
    FlipTopKeepsFaces(ps[i]);
    Bags.Cancel(FacesOf(ps[i := FlipTop(ps[i])]), FacesOf(ps), Faces(ps[i]));
  }

  /** A legal move conserves every card and keeps the foundations runs. */
  lemma MoveKeepsValid(b: Board, sel: Selection, t: Target)
    requires Valid(b) && InRange(b, sel, t) && Legal(b, sel, t)
    ensures Valid(Move(b, sel, t))
    ensures Move(b, sel, t).stock == b.stock
  {
    MoveKeepsContents(b, sel, t);
    MoveKeepsRuns(b, sel, t);
  }

  /** Moving only relocates cards: the board holds the same faces after the move. */
  lemma MoveKeepsContents(b: Board, sel: Selection, t: Target)
    requires InRange(b, sel, t) && Legal(b, sel, t)
    ensures Contents(Move(b, sel, t)) == Contents(b)
  {
    var cards := Picked(b, sel);
    var lifted := Lift(b, sel);
    LiftRemovesPicked(b, sel);
    PlaceAddsCards(lifted, cards, t);
    RevealKeepsContents(Place(lifted, cards, t), sel);
  }

  /** Placing cards adds exactly their faces. */
  lemma PlaceAddsCards(b: Board, cards: seq<Card>, t: Target)
    requires |b.foundations| == 4 && |b.tableau| == 7
    requires t.pile == FoundationPile ==> t.index < 4
    requires t.pile != FoundationPile ==> t.index < 7
    ensures Contents(Place(b, cards, t)) == Contents(b) + Faces(cards)
  {
    var S, W, F, T := Faces(b.stock), Faces(b.waste), FacesOf(b.foundations), FacesOf(b.tableau);
    Bags.Grow4(S, W, F, T, Faces(cards));
    if t.pile == FoundationPile {
      RowAdd(b.foundations, t.index, cards);
    } else {
      RowAdd(b.tableau, t.index, cards);
    }
  }

  /** Turning a card up moves nothing. */
  lemma RevealKeepsContents(b: Board, sel: Selection)
    requires |b.tableau| == 7 && (sel.FromTableau? ==> sel.pile < 7)
    ensures Contents(Reveal(b, sel)) == Contents(b)
  {
    if sel.FromTableau? {
      RowFlip(b.tableau, sel.pile);
    }
  }

  /** Lifting removes exactly the picked cards. */
  lemma LiftRemovesPicked(b: Board, sel: Selection)
    requires |b.tableau| == 7 && (sel.FromTableau? ==> sel.pile < 7 && sel.index < |b.tableau[sel.pile]|)
    ensures Contents(Lift(b, sel)) + Faces(Picked(b, sel)) == Contents(b)
  {
    var cards := Picked(b, sel);
    var lifted := Lift(b, sel);
    var S, W, F, T := Faces(lifted.stock), Faces(lifted.waste), FacesOf(lifted.foundations), FacesOf(lifted.tableau);
    Bags.Grow4(S, W, F, T, Faces(cards));
    match sel
    case FromWaste =>
      if b.waste != [] {
        assert b.waste == lifted.waste + cards;
        FacesAppend(lifted.waste, cards);
      } else {
        Bags.AddEmpty(Contents(b));
      }
    case FromTableau(p, i) =>
      RowCut(b.tableau, p, i);
  }

  /** A legal move leaves every foundation a run. */
  lemma MoveKeepsRuns(b: Board, sel: Selection, t: Target)
    requires InRange(b, sel, t) && Legal(b, sel, t)
    requires forall i :: 0 <= i < 4 ==> FoundationRun(b.foundations[i])
    ensures forall i :: 0 <= i < 4 ==> FoundationRun(Move(b, sel, t).foundations[i])
  {
    var m := Move(b, sel, t);
    if t.pile == FoundationPile {
      TargetStaysRun(b, sel, t);
    }
    forall i | 0 <= i < 4
      ensures FoundationRun(m.foundations[i])
    {
      if t.pile != FoundationPile || i != t.index {
        assert m.foundations[i] == b.foundations[i];
      }
    }
  }

  /** The foundation a legal move builds on is still a run afterwards. */
  lemma TargetStaysRun(b: Board, sel: Selection, t: Target)
    requires InRange(b, sel, t) && Legal(b, sel, t) && t.pile == FoundationPile
    requires FoundationRun(b.foundations[t.index])
    ensures FoundationRun(Move(b, sel, t).foundations[t.index])
  {
    var cards := Picked(b, sel);
    MovePlacesCardsOnTarget(b, sel, t);
    FoundationRuleKeepsRun(cards[0], b.foundations[t.index]);
    assert cards == [cards[0]];
  }

  /** A legal move puts the picked cards, in order, on top of the target pile. */
  lemma MovePlacesCardsOnTarget(b: Board, sel: Selection, t: Target)
    requires InRange(b, sel, t) && Legal(b, sel, t)
    requires !(sel.FromTableau? && t.pile == TableauPile && t.index == sel.pile)
    ensures t.pile == FoundationPile ==>
      Move(b, sel, t).foundations[t.index] == b.foundations[t.index] + Picked(b, sel) && |Picked(b, sel)| == 1
    ensures t.pile == TableauPile ==>
      Move(b, sel, t).tableau[t.index] == b.tableau[t.index] + Picked(b, sel)
    ensures sel.FromWaste? ==> Move(b, sel, t).waste == b.waste[..|b.waste| - 1]
    ensures sel.FromTableau? ==> Move(b, sel, t).tableau[sel.pile] == FlipTop(b.tableau[sel.pile][..sel.index])
  {
  }

  /* ------------------------------------------------------- tableau runs */

  /**
   * A tableau pile as play builds it: once a card is face up, every card on
   * it is face up and follows the one below in colour and rank.
   */
  predicate Built(p: seq<Card>) {
    forall k :: 0 <= k < |p| - 1 && p[k].faceUp ==> p[k + 1].faceUp && Follows(p[k], p[k + 1])
  }

  lemma BuiltPrefix(p: seq<Card>, i: nat)
    requires Built(p) && i <= |p|
    ensures Built(p[..i])
  {
    assert forall k :: 0 <= k < i ==> p[..i][k] == p[k];
  }

  lemma BuiltSuffix(p: seq<Card>, i: nat)
    requires Built(p) && i <= |p|
    ensures Built(p[i..])
  {
    assert forall k :: 0 <= k < |p| - i ==> p[i..][k] == p[i + k];
  }

  /** Turning the top card up keeps a pile built. */
  lemma FlipTopKeepsBuilt(p: seq<Card>)
    requires Built(p)
    ensures Built(FlipTop(p))
  {
    if p != [] && !p[|p| - 1].faceUp {
      var q := FlipTop(p);
      assert forall k :: 0 <= k < |p| - 1 ==> q[k] == p[k];
    }
  }

  /**
   * A face-up built run that `canMoveToTableau` accepts on a built pile
   * leaves the pile built: a king on an empty pile, otherwise the other
   * colour one rank lower than the top.
   */
  lemma TableauRuleKeepsBuilt(cards: seq<Card>, pile: seq<Card>)
    requires cards != [] && cards[0].faceUp && Built(cards) && Built(pile)
    requires CanMoveToTableau(cards, pile)
    ensures Built(pile + cards)
    ensures pile == [] ==> (pile + cards)[0].rank == "K"
  {
    var q := pile + cards;
    var n := |pile|;
    forall k | 0 <= k < |q| - 1 && q[k].faceUp
      ensures q[k + 1].faceUp && Follows(q[k], q[k + 1])
    {
      if k + 1 < n {
        assert q[k] == pile[k] && q[k + 1] == pile[k + 1];
      } else if k + 1 == n {
        assert q[k] == pile[n - 1] && q[k + 1] == cards[0];
      } else {
        assert q[k] == cards[k - n] && q[k + 1] == cards[k - n + 1];
      }
    }
  }

  /** A freshly dealt pile is built: only its top card is face up. */
  lemma DealtIsBuilt(p: seq<Card>, k: nat)
    requires Dealt(p, k)
    ensures Built(p)
  {
  }

  /** Every pile of a tableau is built. */
  predicate AllBuilt(ps: seq<seq<Card>>) {
    forall i :: 0 <= i < |ps| ==> Built(ps[i])
  }

  lemma AllBuiltUpdate(ps: seq<seq<Card>>, i: nat, p: seq<Card>)
    requires AllBuilt(ps) && i < |ps| && Built(p)
    ensures AllBuilt(ps[i := p])
  {
  }

  /** Lifting keeps the tableau built, and the picked cards form a built run. */
  lemma LiftKeepsBuilt(b: Board, sel: Selection)
    requires |b.tableau| == 7 && (sel.FromTableau? ==> sel.pile < 7 && sel.index < |b.tableau[sel.pile]|)
    requires AllBuilt(b.tableau)
    ensures AllBuilt(Lift(b, sel).tableau) && Built(Picked(b, sel))
  {
    match sel {
      case FromWaste =>
      case FromTableau(p, i) =>
        BuiltSuffix(b.tableau[p], i);
        BuiltPrefix(b.tableau[p], i);
        AllBuiltUpdate(b.tableau, p, b.tableau[p][..i]);
    }
  }

  /**
   * A legal move keeps every tableau pile built, given that the picked run
   * starts face up, as the click handler only selects face-up cards and the
   * waste only holds cards drawn face up.
   */
  lemma MoveKeepsBuilt(b: Board, sel: Selection, t: Target)
    requires InRange(b, sel, t) && Legal(b, sel, t)
    requires AllBuilt(b.tableau)
    requires Picked(b, sel)[0].faceUp
    ensures AllBuilt(Move(b, sel, t).tableau)
  {
    var cards := Picked(b, sel);
    var lifted := Lift(b, sel);
    LiftKeepsBuilt(b, sel);
    var placed := Place(lifted, cards, t);
    if t.pile == TableauPile {
      var pile := lifted.tableau[t.index];
      if sel.FromTableau? && sel.pile == t.index {
        assert pile + cards == b.tableau[t.index];
      } else {
        assert pile == b.tableau[t.index];
        TableauRuleKeepsBuilt(cards, pile);
      }
      AllBuiltUpdate(lifted.tableau, t.index, pile + cards);
    }
    assert AllBuilt(placed.tableau);
    if sel.FromTableau? {
      FlipTopKeepsBuilt(placed.tableau[sel.pile]);
      AllBuiltUpdate(placed.tableau, sel.pile, FlipTop(placed.tableau[sel.pile]));
    }
  }

  /* ---------------------------------------------------------------- class */

  /** The game's module-level piles. */
  class Klondike {
    var stock: seq<Card>
    var waste: seq<Card>
    var foundations: seq<seq<Card>>
    var tableau: seq<seq<Card>>

    function State(): Board
      reads this
    {
      Board(stock, waste, foundations, tableau)
    }

    /**
     * `setup`: a fresh deck, shuffled with `draws`, dealt from its end into
     * tableau piles of 1..7 cards with only the last card face up; the
     * remaining 24 cards are the stock.
     */
    constructor Setup(draws: seq<real>)
      requires |draws| == 52 && AllDraws(draws)
      ensures Valid(State())
      ensures |stock| == 24 && (forall c :: c in stock ==> !c.faceUp)
      ensures waste == [] && foundations == [[], [], [], []]
      ensures forall i :: 0 <= i < 7 ==> Dealt(tableau[i], i)
    {
      var newDeck := CreateDeck();
      var a := new Card[52](k requires 0 <= k < 52 => newDeck[k]);
      assert a[..] == newDeck;
      Shuffling.Shuffle(a, draws);
      var deck := a[..];
      ShuffledDeckFaceDown(deck);
      SameMultisetSameFaces(deck, newDeck);
      var piles, rest := Deal(deck);
      forall k | 0 <= k < 7
        ensures Dealt(piles[k], k)
      {
        assert piles[k] == DealtPile(deck, k);
        DealtPileIsDealt(deck, k);
      }
      stock := rest;
      waste := [];
      foundations := [[], [], [], []];
      tableau := piles;
      new;
      DealtBoardValid(deck, piles, rest);
    }

    /** `drawFromStock`, the reversal of the waste and the face-down `forEach`. */
    method DrawFromStock()
      modifies this
      ensures State() == Draw(old(State()))
    {
      if stock != [] {
        var n := |stock| - 1;
        var card := stock[n].(faceUp := true);
        stock := stock[..n];
        waste := waste + [card];
      } else {
        var turned := Reverse(waste);
        var k := 0;
        while k < |turned|
          invariant 0 <= k <= |turned| == |waste|
          invariant forall j :: 0 <= j < k ==> turned[j] == waste[|waste| - 1 - j].(faceUp := false)
          invariant forall j :: k <= j < |turned| ==> turned[j] == waste[|waste| - 1 - j]
        {
          turned := turned[k := turned[k].(faceUp := false)];
          k := k + 1;
        }
        stock := turned;
        waste := [];
      }
    }

    /** `flipOrigin`: turn up the newly exposed top of the source tableau pile. */
    method FlipOrigin(sel: Selection)
      requires |tableau| == 7 && (sel.FromTableau? ==> sel.pile < 7)
      modifies this
      ensures stock == old(stock) && waste == old(waste) && foundations == old(foundations)
      ensures tableau == if sel.FromTableau? then old(tableau)[sel.pile := FlipTop(old(tableau)[sel.pile])] else old(tableau)
    {
      if sel.FromTableau? {
        var pile := tableau[sel.pile];
        if |pile| > 0 && !pile[|pile| - 1].faceUp {
          tableau := tableau[sel.pile := pile[..|pile| - 1] + [pile[|pile| - 1].(faceUp := true)]];
        }
      }
    }

    /**
     * `attemptMove`: succeeds exactly when the move is legal; then the board
     * is `Move` of the old one, otherwise nothing changes.
     */
    method AttemptMove(sel: Selection, t: Target) returns (moved: bool)
      requires InRange(State(), sel, t)
      modifies this
      ensures moved == Legal(old(State()), sel, t)
      ensures moved ==> State() == Move(old(State()), sel, t)
      ensures !moved ==> State() == old(State())
    {
      var cards: seq<Card>;
      if sel.FromWaste? {
        if waste == [] {
          // the source reads a property of `undefined` here and throws before changing anything
          return false;
        }
        cards := [waste[|waste| - 1]];
      } else {
        cards := tableau[sel.pile][sel.index..];
      }

      if t.pile == FoundationPile {
        if |cards| != 1 {
          return false;
        }
        var foundation := foundations[t.index];
        if CanMoveToFoundation(cards[0], foundation) {
          if sel.FromWaste? {
            waste := waste[..|waste| - 1];
          } else {
            tableau := tableau[sel.pile := tableau[sel.pile][..sel.index]];
          }
          foundations := foundations[t.index := foundation + cards];
          FlipOrigin(sel);
          return true;
        }
      }

      if t.pile == TableauPile {
        if CanMoveToTableau(cards, tableau[t.index]) {
          if sel.FromWaste? {
            waste := waste[..|waste| - 1];
          } else {
            tableau := tableau[sel.pile := tableau[sel.pile][..sel.index]];
          }
          tableau := tableau[t.index := tableau[t.index] + cards];
          FlipOrigin(sel);
          return true;
        }
      }
      return false;
    }

    /** `checkWin`. */
    method CheckWin() returns (won: bool)
      requires Valid(State())
      ensures won == Won(State())
      ensures won ==> stock == [] && waste == [] && forall i :: 0 <= i < 7 ==> tableau[i] == []
    {
      won := |foundations[0]| == 13 && |foundations[1]| == 13 && |foundations[2]| == 13 && |foundations[3]| == 13;
      if won {
        WonMeansEveryCardHome(State());
      }
    }
  }

  /** Pile `k` as `setup` leaves it: `k + 1` cards, only the last one face up. */
  predicate Dealt(p: seq<Card>, k: nat) {
    |p| == k + 1 && forall m :: 0 <= m <= k ==> p[m].faceUp == (m == k)
  }

  /**
   * The pile that popping `i + 1` cards off the end of `d` builds: the last
   * card of `d` first, and only the last card popped face up.
   */
  function TopRun(d: seq<Card>, i: nat): (p: seq<Card>)
    requires i < |d|
    ensures |p| == i + 1
  {
    seq(i + 1, m requires 0 <= m <= i => d[|d| - 1 - m].(faceUp := m == i))
  }

  /** Tableau pile `k` after dealing: the run popped once the piles before it took 0 + 1 + ... + k cards. */
  function DealtPile(deck: seq<Card>, k: nat): (p: seq<Card>)
  {
    if Triangle(k) + k < |deck| then TopRun(deck[..|deck| - Triangle(k)], k) else []
  }

  /** The seven tableau piles after the first `i` rounds of dealing. */
  function DealtPiles(deck: seq<Card>, i: nat): (ps: seq<seq<Card>>)
    ensures |ps| == 7
  {
    seq(7, k => if 0 <= k < i then DealtPile(deck, k) else [])
  }

  /** Round `i` of dealing fills pile `i` and nothing else. */
  lemma DealtPilesStep(deck: seq<Card>, i: nat)
    requires i < 7
    ensures DealtPiles(deck, i)[i := DealtPile(deck, i)] == DealtPiles(deck, i + 1)
  {
    var before, after := DealtPiles(deck, i), DealtPiles(deck, i + 1);
    forall k | 0 <= k < 7
      ensures before[i := DealtPile(deck, i)][k] == after[k]
    {
    }
  }

  /** The outer dealing loop of `setup`; the rest of the deck becomes the stock. */
  method Deal(deck: seq<Card>) returns (piles: seq<seq<Card>>, rest: seq<Card>)
    requires |deck| >= Triangle(7)
    ensures |piles| == 7 && rest == deck[..|deck| - Triangle(7)]
    ensures piles == DealtPiles(deck, 7)
    ensures Faces(rest) + FacesOf(piles) == Faces(deck)
  {
    var N := |deck|;
    rest := deck;
    piles := DealtPiles(deck, 0);
    FacesOfEmpties(piles);
    Bags.AddEmpty(Faces(deck));
    var i := 0;
    while i < 7
      invariant 0 <= i <= 7
      invariant rest == deck[..N - Triangle(i)]
      invariant piles == DealtPiles(deck, i)
      invariant Faces(rest) + FacesOf(piles) == Faces(deck)
    {
      TriangleMono(i + 1, 7);
      var pile, left := DealPile(rest, i);
      assert piles[i] == [];
      DealStep(deck, i, rest, piles, pile, left);
      DealtPilesStep(deck, i);
      piles := piles[i := pile];
      rest := left;
      i := i + 1;
    }
  }

  /** One round of the outer dealing loop keeps its invariant. */
  lemma DealStep(deck: seq<Card>, i: nat, rest: seq<Card>, piles: seq<seq<Card>>, pile: seq<Card>, left: seq<Card>)
    requires i < |piles| && piles[i] == [] && Triangle(i + 1) <= |deck|
    requires rest == deck[..|deck| - Triangle(i)]
    requires left == rest[..|rest| - (i + 1)] && pile == TopRun(rest, i)
    requires Faces(left) + Faces(pile) == Faces(rest)
    requires Faces(rest) + FacesOf(piles) == Faces(deck)
    ensures left == deck[..|deck| - Triangle(i + 1)]
    ensures pile == DealtPile(deck, i)
    ensures Faces(left) + FacesOf(piles[i := pile]) == Faces(deck)
  {
    assert [] + pile == pile;
    RowAdd(piles, i, pile);
    Bags.Shift(Faces(left), FacesOf(piles), Faces(pile));
  }

  lemma {:induction false} TriangleMono(i: nat, n: nat)
    requires i <= n
    ensures Triangle(i) <= Triangle(n)
  {
    if i < n {
      TriangleMono(i, n - 1);
    }
  }

  /**
   * The inner dealing loop: `tableau[i]` starts empty and takes `i + 1`
   * cards popped from the end of `deck`.
   */
  method DealPile(deck: seq<Card>, i: nat) returns (pile: seq<Card>, rest: seq<Card>)
    requires i < |deck|
    ensures rest == deck[..|deck| - (i + 1)] && pile == TopRun(deck, i)
    ensures Faces(rest) + Faces(pile) == Faces(deck)
  {
    pile := [];
    rest := deck;
    Bags.AddEmpty(Faces(deck));
    var j := 0;
    while j <= i
      invariant 0 <= j <= i + 1
      invariant rest == deck[..|deck| - j]
      invariant |pile| == j
      invariant forall m :: 0 <= m < j ==> pile[m] == deck[|deck| - 1 - m].(faceUp := m == i)
      invariant Faces(rest) + Faces(pile) == Faces(deck)
    {
      var n := |rest| - 1;
      var card := rest[n].(faceUp := j == i);
      PopPush(rest, pile, card);
      rest := rest[..n];
      pile := pile + [card];
      j := j + 1;
    }
  }

  /** Every pile of a full deal has its `k + 1` cards, only the last face up. */
  lemma DealtPileIsDealt(deck: seq<Card>, k: nat)
    requires k < 7 && |deck| >= Triangle(7)
    ensures Dealt(DealtPile(deck, k), k)
  {
    TriangleMono(k + 1, 7);
  }

  /** Popping the top of `deck` and pushing it, turned either way, onto `pile` keeps their faces together. */
  lemma PopPush(deck: seq<Card>, pile: seq<Card>, card: Card)
    requires deck != [] && FaceOf(card) == FaceOf(deck[|deck| - 1])
    ensures Faces(deck[..|deck| - 1]) + Faces(pile + [card]) == Faces(deck) + Faces(pile)
  {
    var n := |deck| - 1;
    FacesSplit(deck, n);
    assert deck[n..] == [deck[n]];
    FacesOne(deck[n]);
    FacesAppend(pile, [card]);
    FacesOne(card);
    Bags.Shift(Faces(deck[..n]), Faces(pile), multiset{FaceOf(card)});
    Bags.Rotate(Faces(pile), Faces(deck));
  }

  /** A shuffled fresh deck still lies face down. */
  lemma ShuffledDeckFaceDown(deck: seq<Card>)
    requires multiset(deck) == multiset(FullDeck())
    ensures forall c :: c in deck ==> !c.faceUp
  {
    forall c | c in deck
      ensures !c.faceUp
    {
      assert c in multiset(FullDeck());
    }
  }

  /** The board right after dealing holds the stock's and the tableau's cards. */
  lemma DealtBoardValid(deck: seq<Card>, piles: seq<seq<Card>>, stock: seq<Card>)
    requires Faces(deck) == Faces(FullDeck()) && Faces(stock) + FacesOf(piles) == Faces(deck)
    requires |piles| == 7
    ensures Valid(Board(stock, [], [[], [], [], []], piles))
  {
    FacesOfEmpties([[], [], [], []]);
    Bags.AddEmpty(Faces(stock));
    Bags.AddEmpty(Faces(stock) + multiset{});
  }

  /** Cards dealt from the deck so far when pile `i` is about to be dealt: 0 + 1 + ... + i. */
  function Triangle(i: nat): nat {
    if i == 0 then 0 else Triangle(i - 1) + i
  }

  function Reverse(s: seq<Card>): (r: seq<Card>)
    ensures |r| == |s| && forall j :: 0 <= j < |s| ==> r[j] == s[|s| - 1 - j]
  {
    if s == [] then [] else [s[|s| - 1]] + Reverse(s[..|s| - 1])
  }

  /** Two orderings of the same cards show the same faces. */
  lemma {:induction false} SameMultisetSameFaces(a: seq<Card>, b: seq<Card>)
    requires multiset(a) == multiset(b)
    ensures Faces(a) == Faces(b)
    decreases |a|
  {
    if a == [] {
      assert b == [];
    } else {
      var x := a[0];
      assert x in multiset(b);
      var k :| 0 <= k < |b| && b[k] == x;
      var left, right := b[..k], b[k + 1..];
      assert b == (left + [x]) + right;
      assert a == [x] + a[1..];
      assert multiset(a[1..]) == multiset(left + right) by {
        Bags.CancelMiddle(multiset{x}, multiset(a[1..]), multiset(left), multiset(right));
      }
      SameMultisetSameFaces(a[1..], left + right);
      FacesAppend(left, right);
      FacesAppend(left + [x], right);
      FacesAppend(left, [x]);
      FacesOne(x);
      FacesAppend([x], a[1..]);
      Bags.Middle(multiset{FaceOf(x)}, Faces(left), Faces(right));
    }
  }

}
