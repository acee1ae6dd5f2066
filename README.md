# js-games rule engines in Dafny

This project models the rule engines inside a collection of browser
mini-games written in JavaScript, and proves properties of them. The
canvas drawing, DOM updates and per-frame physics of those games are not
modelled. The engines covered are:

- Klondike solitaire (`games/solitaire/solitaire.js`): the deck, the deal,
  stock and waste cycling, the foundation and tableau rules, `attemptMove`
  and the win test.
- Blackjack (`games/blackjack/blackjack.js`): the deck, the soft-ace hand
  value, the betting commands, the dealer's draw to 17 and the payouts.
- Ten-pin bowling (`games/bowling/bowling.js`): the rack of pins, the score
  over a flat roll list, the running totals and the frame machine.
- Roulette (`games/roulette/roulette.js`): the pocket table and the chip and
  bet ledger.
- Two mazes (`games/maze/maze.js` with levels and fog, and the classic
  `maze.js`): depth-first carving with an explicit stack, the extra loops,
  the exit and player movement.
- Mini-golf bookkeeping (`games/golf/game.js`): obstacle spans and
  placement, par, the friction classifier, the bunker latch, strokes and
  penalties, and the per-hole scorecard.

Each game file is one module (`Solitaire`, `Blackjack`, `Bowling`,
`Roulette`, `MazeLevels`, `MazeClassic`, `Golf`). `MazeGrid` and `MazeWalk`
hold the grid and the depth-first walk that both mazes share. `Shuffling`
is the in-place Fisher-Yates shuffle that solitaire and blackjack both
use. `Chance` holds the random-number helpers. `Bags` holds multiset
helper lemmas.

Where a game changes module-level variables in place, the module has a
class whose fields are those variables. Each method of the class is
proved to leave the state that a function on a datatype value describes
(`ensures State() == AfterHit(old(State()))`). The lemmas about those
functions state the rules: guards, conservation of cards and chips,
invariants, and round trips. Every `Math.random()` call is a
caller-supplied draw: a real in [0, 1) for each call, grouped by use
(for example one list per placement, or one coin and one pick per maze
cell). The games' physics results are also inputs: the golf
ball's flight and ground height, the pins the bowling ball reaches, and
the roulette pocket the wheel stops on.

## Model

| member | source | states |
|---|---|---|
| Chance.Pick | games/maze/maze.js:97 | `Math.floor(Math.random() * n)` on a draw in [0, 1) is an index below `n` |
| Chance.Floor | games/maze/maze.js:219 | the integer floor of a non-negative real: at most the real and more than the real less one |
| Chance.Round | games/golf/game.js:123 | `Math.round`: the nearest integer, with halves rounded up |
| Shuffling.Swap | games/solitaire/solitaire.js:32 | the destructuring swap exchanges the two entries and keeps every other |
| Shuffling.ShuffledIsPermutation | games/solitaire/solitaire.js:29-34 | whatever the draws, the shuffle only reorders its input (same multiset, same length) |
| Shuffling.Shuffle | games/blackjack/blackjack.js:46-51 | the in-place loop leaves the array in the order `Shuffled` gives for the draws, which is a permutation of the old contents |
| Solitaire.IndexOf | games/solitaire/solitaire.js:8 | `indexOf` returns the first position holding the string, or -1 exactly when no position holds it |
| Solitaire.RankValue | games/solitaire/solitaire.js:7-9 | a rank's value is its 1-based position in `RANKS`, at most 13 |
| Solitaire.RankValueZero | games/solitaire/solitaire.js:7-9 | the value is 0 exactly for strings that are no rank |
| Solitaire.RanksDistinct | games/solitaire/solitaire.js:5 | no rank is listed twice |
| Solitaire.RankValuesAreOneToThirteen | games/solitaire/solitaire.js:5-9 | A..K map to 1..13 in order |
| Solitaire.RankValueAt | games/solitaire/solitaire.js:5-9 | the rank at position i of `RANKS` is worth i + 1 |
| Solitaire.AceIsOne | games/solitaire/solitaire.js:7-9 | the ace is worth 1 |
| Solitaire.CardColor | games/solitaire/solitaire.js:11-13 | red exactly for hearts and diamonds |
| Solitaire.FullDeck | games/solitaire/solitaire.js:21-27 | the fresh deck has 52 cards |
| Solitaire.FullDeckHasEachCardOnce | games/solitaire/solitaire.js:21-27 | every suit-rank pair is in the deck face down, and no two cards share a face |
| Solitaire.CreateDeck | games/solitaire/solitaire.js:21-27 | the nested loops build exactly the 52-card suit-major deck |
| Solitaire.FoundationRuleKeepsRun | games/solitaire/solitaire.js:67-71 | a card the foundation rule accepts extends a same-suit A, 2, 3, ... run into a longer run |
| Solitaire.AceStartsRun | games/solitaire/solitaire.js:68 | an empty foundation accepts an ace, which alone is a run |
| Solitaire.RunExtends | games/solitaire/solitaire.js:69-70 | the next rank in the top card's suit extends a run |
| Solitaire.RunRankValues | games/solitaire/solitaire.js:67-71 | in a run the rank values count up 1, 2, 3, ... from the bottom |
| Solitaire.WonMeansEveryCardHome | games/solitaire/solitaire.js:196-202 | on a valid board that is won, stock, waste and every tableau pile are empty |
| Solitaire.NothingOutsideFoundations | games/solitaire/solitaire.js:196-202 | 52 cards on the foundations leave none in stock, waste or tableau |
| Solitaire.TurnOver | games/solitaire/solitaire.js:60-61 | recycling the waste keeps its length |
| Solitaire.Reverse | games/solitaire/solitaire.js:60 | `reverse()` puts the card at position j at position n - 1 - j and keeps the length |
| Solitaire.TurnOverKeepsFaces | games/solitaire/solitaire.js:60-61 | the reversed, face-down waste holds the same cards |
| Solitaire.DrawKeepsCards | games/solitaire/solitaire.js:54-65 | a draw keeps the multiset of stock plus waste and touches neither foundations nor tableau |
| Solitaire.DrawKeepsValid | games/solitaire/solitaire.js:54-65 | a draw keeps a valid board valid |
| Solitaire.DrawShowsTopCard | games/solitaire/solitaire.js:54-63 | a non-empty stock adds one face-up card to the waste; an empty one empties the waste into a face-down stock |
| Solitaire.Move | games/solitaire/solitaire.js:92-123 | a legal move keeps the stock, keeps all other foundations, and keeps every foundation on a tableau move |
| Solitaire.LiftRemovesPicked | games/solitaire/solitaire.js:93-98 | lifting removes exactly the picked cards: the waste top, or the tableau pile from `index` on |
| Solitaire.PlaceAddsCards | games/solitaire/solitaire.js:106 | putting cards on the target adds exactly their faces |
| Solitaire.RevealKeepsContents | games/solitaire/solitaire.js:83-90 | turning the origin's top card up moves no card |
| Solitaire.FlipTopKeepsFaces | games/solitaire/solitaire.js:86-88 | turning a pile's top card up keeps the pile's faces |
| Solitaire.MoveKeepsContents | games/solitaire/solitaire.js:92-121 | a legal move only relocates cards: the board holds the same faces afterwards |
| Solitaire.MoveKeepsRuns | games/solitaire/solitaire.js:100-110 | after a legal move every foundation is still a run |
| Solitaire.TargetStaysRun | games/solitaire/solitaire.js:100-110 | the foundation a legal move builds on stays a run |
| Solitaire.FlipTopKeepsBuilt | games/solitaire/solitaire.js:83-90 | turning a pile's top card up keeps the pile built |
| Solitaire.TableauRuleKeepsBuilt | games/solitaire/solitaire.js:73-81 | a face-up run `canMoveToTableau` accepts keeps a built pile built: a king on an empty pile, else alternating colour one rank down |
| Solitaire.DealtIsBuilt | games/solitaire/solitaire.js:39-46 | a freshly dealt pile is built |
| Solitaire.LiftKeepsBuilt | games/solitaire/solitaire.js:93-98 | lifting keeps every pile built and lifts a built run |
| Solitaire.MoveKeepsBuilt | games/solitaire/solitaire.js:92-121 | a legal move of a face-up run keeps every tableau pile built: face-up cards alternate colour and descend by one |
| Solitaire.MoveKeepsValid | games/solitaire/solitaire.js:92-121 | a legal move keeps a valid board valid and leaves the stock alone |
| Solitaire.MovePlacesCardsOnTarget | games/solitaire/solitaire.js:92-121 | a legal move appends the picked cards, in order, to the target, and leaves the origin cut (and its new top turned up) |
| Solitaire.Klondike.Setup | games/solitaire/solitaire.js:36-52 | after the deal, pile i holds i + 1 cards with only the last face up, the stock holds the other 24 face down, waste and foundations are empty, and all 52 cards are there |
| Solitaire.Klondike.DrawFromStock | games/solitaire/solitaire.js:54-65 | the piles change exactly as `Draw` says |
| Solitaire.Klondike.FlipOrigin | games/solitaire/solitaire.js:83-90 | only the source tableau pile's top card is turned up |
| Solitaire.Klondike.AttemptMove | games/solitaire/solitaire.js:92-123 | true exactly for a legal move, which changes the piles as `Move` says; a failed move changes nothing |
| Solitaire.Klondike.CheckWin | games/solitaire/solitaire.js:196-202 | won exactly when every foundation holds 13 cards, and then every other pile is empty |
| Solitaire.TopRun | games/solitaire/solitaire.js:41-45 | the run the inner dealing loop pops has one more card than the round number |
| Solitaire.DealtPilesStep | games/solitaire/solitaire.js:39-46 | round i of the deal fills pile i and no other |
| Solitaire.Deal | games/solitaire/solitaire.js:39-47 | the dealing loops produce the seven dealt piles and leave the rest of the deck as the stock, losing no card |
| Solitaire.DealPile | games/solitaire/solitaire.js:41-45 | one round pops the top i + 1 cards of the deck, as `TopRun` lays them out, and loses none |
| Solitaire.DealStep | games/solitaire/solitaire.js:39-46 | after round i the rest of the deck is the prefix left by the first i + 1 rounds, pile i is the dealt pile, and no card is lost |
| Solitaire.DealtPileIsDealt | games/solitaire/solitaire.js:39-46 | each dealt pile has its k + 1 cards with only the last face up |
| Solitaire.ShuffledDeckFaceDown | games/solitaire/solitaire.js:37-38 | a shuffled fresh deck still lies face down |
| Solitaire.DealtBoardValid | games/solitaire/solitaire.js:47-49 | the board right after the deal is valid |
| Blackjack.FullDeck | games/blackjack/blackjack.js:37-44 | the fresh deck has 52 cards |
| Blackjack.RankNamesDistinct | games/blackjack/blackjack.js:11-26 | no two ranks share a name |
| Blackjack.FullDeckHasEveryCard | games/blackjack/blackjack.js:37-44 | every suit-rank pair is in the deck |
| Blackjack.FullDeckHasOnlyTableRanks | games/blackjack/blackjack.js:37-44 | every card's name and value come from the rank table |
| Blackjack.FullDeckDistinct | games/blackjack/blackjack.js:37-44 | no card is in the deck twice |
| Blackjack.CreateDeck | games/blackjack/blackjack.js:37-44 | the nested loops build exactly the suit-major deck |
| Blackjack.ShuffledDeck | games/blackjack/blackjack.js:128-129 | `createDeck` then `shuffle` yields the deck in the order the draws give |
| Blackjack.AcesAsOneIsFewestNeeded | games/blackjack/blackjack.js:57-65 | the number of aces counted as 1 is at most the aces, brings the total to 21 or less unless all are used, and is the fewest that does |
| Blackjack.BustHasNoSoftAce | games/blackjack/blackjack.js:57-65 | a hand over 21 already counts every ace as 1, and the value never exceeds the card sum |
| Blackjack.HandValue | games/blackjack/blackjack.js:57-65 | the while loop returns the card sum less 10 for each ace the fewest-needed count turns to 1 |
| Blackjack.PayoutRules | games/blackjack/blackjack.js:219-239 | a hand is paid exactly when it did not bust and did not lose, twice its bet exactly on a win, its bet back exactly on a push with neither side bust, and never more |
| Blackjack.WinningsBounds | games/blackjack/blackjack.js:219-239 | the round's payouts lie between nothing and twice the total stake |
| Blackjack.DealPlayer | games/blackjack/blackjack.js:53-55 | dealing to hand i keeps the number of hands and adds at most one card to hand i |
| Blackjack.DealPlayerKeepsCards | games/blackjack/blackjack.js:53-55 | dealing to a player moves a card from the deck to the hand, losing and creating none |
| Blackjack.DealDealerKeepsCards | games/blackjack/blackjack.js:53-55 | dealing to the dealer moves a card from the deck to the dealer, losing and creating none |
| Blackjack.DealPlayerKeepsValid | games/blackjack/blackjack.js:53-55 | dealing puts the deck's last card on hand i and touches no chips, bets or round flags |
| Blackjack.Opening | games/blackjack/blackjack.js:134-137 | the opening deal leaves one player hand |
| Blackjack.OpeningIsFourDeals | games/blackjack/blackjack.js:134-137 | the opening deal is player, dealer, player, dealer |
| Blackjack.OpeningKeepsCards | games/blackjack/blackjack.js:134-137 | the opening deal loses and creates no card |
| Blackjack.NaturalsPay | games/blackjack/blackjack.js:139-154 | two blackjacks refund the bet, a lone player blackjack pays twice it, a lone dealer blackjack pays nothing, and any natural ends the round |
| Blackjack.NaturalsKeepCards | games/blackjack/blackjack.js:139-154 | settling naturals moves no card |
| Blackjack.NextHandKeepsCards | games/blackjack/blackjack.js:209-217 | moving to the next hand, the dealer's play included, loses and creates no card |
| Blackjack.ResetHoldsDeck | games/blackjack/blackjack.js:130-133 | with empty hands every card in play is in the deck |
| Blackjack.ShuffledDeckSize | games/blackjack/blackjack.js:46-51 | the shuffled deck still has 52 cards |
| Blackjack.StartRules | games/blackjack/blackjack.js:122-157 | nothing during a round or without chips; otherwise the bet is min(25, chips), chips stay non-negative, a fresh shuffled deck deals two cards each, and a natural settles at once |
| Blackjack.BeginRules | games/blackjack/blackjack.js:126-154 | the round set up on any deck of four or more cards takes the bet and deals the opening hands |
| Blackjack.StartKeepsCards | games/blackjack/blackjack.js:122-157 | a new round is played with exactly the 52 cards of a fresh deck |
| Blackjack.BeginKeepsCards | games/blackjack/blackjack.js:126-154 | a round begun with a deck holds exactly that deck's cards |
| Blackjack.AfterDealerPlay | games/blackjack/blackjack.js:203-207 | the dealer's drawing touches no chips, player hands, bets or round flags |
| Blackjack.DealerStandsOnSeventeen | games/blackjack/blackjack.js:203-207 | the dealer stops at 17 or more unless the deck ran out, and never loses a card |
| Blackjack.DealerPlayKeepsCards | games/blackjack/blackjack.js:203-207 | the dealer's drawing loses and creates no card |
| Blackjack.NextHandRules | games/blackjack/blackjack.js:209-217 | either the next split hand becomes current, or the dealer plays and the settlement is paid; chips plus stakes are accounted for |
| Blackjack.HitRules | games/blackjack/blackjack.js:159-168 | nothing outside a round; otherwise the current hand takes the deck's last card and play moves on only on a bust |
| Blackjack.HitKeepsCards | games/blackjack/blackjack.js:159-168 | a hit loses and creates no card |
| Blackjack.Stake | games/blackjack/blackjack.js:173-175 | doubling's bookkeeping keeps the hands and the current hand |
| Blackjack.DoubleRules | games/blackjack/blackjack.js:170-182 | only on a two-card hand whose bet the chips can match; then the bet is paid again and doubled, exactly one card is dealt and play moves on |
| Blackjack.DoubleKeepsCards | games/blackjack/blackjack.js:170-182 | doubling loses and creates no card |
| Blackjack.SplitOff | games/blackjack/blackjack.js:186-197 | splitting's bookkeeping adds one hand and one bet |
| Blackjack.SplitRules | games/blackjack/blackjack.js:184-201 | only on a single two-card pair of equal values with chips for a second bet; then two two-card hands with equal bets and one bet fewer in chips |
| Blackjack.SplitKeepsCards | games/blackjack/blackjack.js:184-201 | splitting loses and creates no card |
| Blackjack.StandRules | games/blackjack/blackjack.js:241-245 | nothing outside a round; otherwise play moves to the next hand or the round is settled |
| Blackjack.StandKeepsCards | games/blackjack/blackjack.js:241-245 | standing loses and creates no card |
| Blackjack.Initial | games/blackjack/blackjack.js:28-34 | the game starts out of a round with 500 chips |
| Blackjack.Game.constructor | games/blackjack/blackjack.js:28-34 | the globals start as `Initial` says |
| Blackjack.Game.DealToPlayer | games/blackjack/blackjack.js:53-55 | the state changes as `DealPlayer` says |
| Blackjack.Game.DealToDealer | games/blackjack/blackjack.js:53-55 | the state changes as `DealDealer` says |
| Blackjack.Game.StartRound | games/blackjack/blackjack.js:122-157 | the state changes as `AfterStart` says |
| Blackjack.Game.DealOpening | games/blackjack/blackjack.js:134-137 | the state changes as `Opening` says |
| Blackjack.Game.SettleNaturals | games/blackjack/blackjack.js:139-154 | the state changes as `Naturals` says |
| Blackjack.Game.Hit | games/blackjack/blackjack.js:159-168 | the state changes as `AfterHit` says |
| Blackjack.Game.DoubleDown | games/blackjack/blackjack.js:170-182 | the state changes as `AfterDouble` says |
| Blackjack.Game.DoubleStake | games/blackjack/blackjack.js:173-175 | the state changes as `Stake` says |
| Blackjack.Game.SplitHand | games/blackjack/blackjack.js:184-201 | the state changes as `AfterSplit` says |
| Blackjack.Game.DealerPlay | games/blackjack/blackjack.js:203-207 | the draw loop leaves the state `AfterDealerPlay` describes |
| Blackjack.Game.MoveToNextHand | games/blackjack/blackjack.js:209-217 | the state changes as `AfterNextHand` says |
| Blackjack.Game.UpdateResult | games/blackjack/blackjack.js:219-239 | the payout loop leaves the state `AfterResult` describes |
| Blackjack.Game.Stand | games/blackjack/blackjack.js:241-245 | the state changes as `AfterStand` says |
| Bowling.RackRow | games/bowling/bowling.js:45-48 | row r of the rack holds r + 1 pins |
| Bowling.RowStep | games/bowling/bowling.js:45-48 | the inner loop builds a row pin by pin |
| Bowling.RowsLength | games/bowling/bowling.js:44-49 | rows 1 to n hold 1 + 2 + ... + n pins |
| Bowling.RackSize | games/bowling/bowling.js:40-50 | the rack has ten pins, and every row and position within the first four rows indexes one of them |
| Bowling.RackPins | games/bowling/bowling.js:40-50 | pin i of row r stands at height 100 + 26r, (2i - r) * 13 off the middle of the lane |
| Bowling.RackStanding | games/bowling/bowling.js:40-50 | every pin of a fresh rack stands |
| Bowling.RackSymmetric | games/bowling/bowling.js:40-50 | each row is symmetric about the middle of the lane |
| Bowling.StandingBelow | games/bowling/bowling.js:108 | no more pins stand than there are |
| Bowling.ComputeScore | games/bowling/bowling.js:176-197 | the loop returns the score of `Score`: strikes, spares and open frames over at most ten frames |
| Bowling.ScoreboardTotals | games/bowling/bowling.js:199-221 | the loop returns one running total per begun frame, as `Totals` says |
| Bowling.TotalsEndInScoreTo | games/bowling/bowling.js:199-221 | at most one total per frame, none before the first roll, the last equal to the score so far |
| Bowling.LastTotalIsScore | games/bowling/bowling.js:199-225 | at most ten totals, the last equal to the game score, and no rolls score 0 |
| Bowling.FramePointsRange | games/bowling/bowling.js:180-194 | a frame of pin counts is worth 0 to 30 |
| Bowling.ScoreToRange | games/bowling/bowling.js:176-197 | n frames of pin counts score between 0 and 30n |
| Bowling.ScoreRange | games/bowling/bowling.js:176-197 | a game of pin counts scores between 0 and 300 |
| Bowling.PerfectGame | games/bowling/bowling.js:176-197 | twelve strikes score 300 |
| Bowling.StrikesScore | games/bowling/bowling.js:182-184 | with twelve strikes the first n frames score 30n |
| Bowling.TotalsAscend | games/bowling/bowling.js:199-221 | the running totals never go down |
| Bowling.ScoreGrows | games/bowling/bowling.js:110-112 | the score shown after a roll is never below the one shown before it |
| Bowling.Knock | games/bowling/bowling.js:98-104 | knocking pins down keeps the rack's size |
| Bowling.KnockFells | games/bowling/bowling.js:98-104 | knocking pins down never raises the count of those standing |
| Bowling.LoadedRules | games/bowling/bowling.js:26-34 | after loading the state is valid, in frame 1 with no rolls and 21 rolls left, and a lane of 50 or more leaves room for the ball |
| Bowling.RackIsValid | games/bowling/bowling.js:40-50 | a fresh rack has ten pins, all standing |
| Bowling.FinishRollRules | games/bowling/bowling.js:106-112 | a roll records `pinsStanding - standing`, between none and all that stood, leaves a valid state with fewer rolls to come, and the score never falls |
| Bowling.OpenFrameRules | games/bowling/bowling.js:119-127 | in frames 1 to 9 a first-roll strike, a second roll or a cleared rack starts the next frame with ten pins; otherwise roll 2 at the pins left |
| Bowling.TenthFrameRules | games/bowling/bowling.js:130-153 | in frame 10 a strike or a cleared rack re-racks for the next roll; a second roll that leaves pins gives roll 3 after an opening strike and ends the game otherwise; roll 3 ends the game |
| Bowling.TenthFrameAsWrittenEndsEarly | games/bowling/bowling.js:144-149 | as written, a second roll that leaves pins ends the game even after an opening strike |
| Bowling.StrikeThenSevenInTenth | games/bowling/bowling.js:144-149 | after nine gutter frames, a strike and a seven end the game as written at 17, while the corrected rules give roll 3 |
| Bowling.LastTenthBranchUnreachable | games/bowling/bowling.js:150-153 | the last branch of the tenth-frame chain can never be taken |
| Bowling.UpdateRules | games/bowling/bowling.js:88-96 | a tick keeps the state valid and records at most one roll |
| Bowling.TickRules | games/bowling/bowling.js:89-91 | a tick of a rolling ball keeps the state valid, keeps the ball rolling and records no roll |
| Bowling.StartRollRules | games/bowling/bowling.js:241-246 | the ball starts rolling only when it is waiting and the game is not over |
| Bowling.MoveBallRules | games/bowling/bowling.js:233-239 | the ball is steered only while waiting, and is clamped to the lane less a ball radius |
| Bowling.Lane.constructor | games/bowling/bowling.js:26-34 | the globals start as `Loaded` says |
| Bowling.Lane.ResetBall | games/bowling/bowling.js:36-38 | the state changes as `AfterResetBall` says |
| Bowling.Lane.SetupPins | games/bowling/bowling.js:40-50 | the nested loops leave the rack `Rack` describes |
| Bowling.Lane.NextFrame | games/bowling/bowling.js:160-166 | the state changes as `AfterNextFrame` says |
| Bowling.Lane.HandleTenthFrame | games/bowling/bowling.js:130-158 | the state changes as the corrected `AfterTenthFrame` says |
| Bowling.Lane.FinishRoll | games/bowling/bowling.js:106-128 | the state changes as `AfterFinishRoll` says |
| Bowling.Lane.Update | games/bowling/bowling.js:88-96 | the state changes as `AfterUpdate` says |
| Bowling.Lane.StartRoll | games/bowling/bowling.js:241-246 | the state changes as `AfterStartRoll` says |
| Bowling.Lane.MoveBall | games/bowling/bowling.js:233-239 | the state changes as `AfterMoveBall` says |
| Roulette.NumbersTable | games/roulette/roulette.js:6-44 | 37 pockets, pocket i holds number i, only 0 is green, and red and black follow the usual single-zero rule |
| Roulette.PocketAt | games/roulette/roulette.js:6-44 | the same facts for one pocket |
| Roulette.StakedPositive | games/roulette/roulette.js:51 | with only positive bets, chips are staked exactly when some bet is placed |
| Roulette.AddChipRules | games/roulette/roulette.js:111-116 | nothing while spinning or without chips; otherwise one chip moves from the hand to the bet on `num` alone, keeping chips plus stakes |
| Roulette.RemoveChipRules | games/roulette/roulette.js:118-124 | nothing while spinning or without a bet on `num`; otherwise one chip comes back, keeping chips plus stakes, and no empty bet is kept |
| Roulette.RemoveUndoesAdd | games/roulette/roulette.js:111-124 | taking back a chip just placed restores the table |
| Roulette.ClearBetsRules | games/roulette/roulette.js:126-133 | when idle every stake comes back to the hand and the bets are empty, keeping chips plus stakes |
| Roulette.ResolveAsWrittenNeverLoses | games/roulette/roulette.js:135-145 | as written, resolving pays the winnings and then refunds every stake, so the player never ends below their holdings |
| Roulette.LosingBetRefunded | games/roulette/roulette.js:135-145 | one chip on 5 with the ball on 7: as written the chip comes back, corrected it is lost |
| Roulette.ResolveRules | games/roulette/roulette.js:135-145 | corrected: 36 chips for each chip on the winning number, every stake kept by the house, the bets emptied |
| Roulette.SpinRules | games/roulette/roulette.js:147-152 | the wheel starts exactly when idle with some bet placed, chips and bets unchanged |
| Roulette.SpinningFreezesBets | games/roulette/roulette.js:111-133 | no chip is placed, removed or cleared while the wheel turns |
| Roulette.StopRules | games/roulette/roulette.js:159-166 | a spinning wheel stops, pays the pocket's winnings onto the chips and clears every bet; an idle table is left as it is |
| Roulette.Game.constructor | games/roulette/roulette.js:50-51 | 100 chips, no bets, the wheel idle |
| Roulette.Game.AddChip | games/roulette/roulette.js:111-116 | the state changes as `AfterAddChip` says |
| Roulette.Game.RemoveChip | games/roulette/roulette.js:118-124 | the state changes as `AfterRemoveChip` says |
| Roulette.Game.ClearBets | games/roulette/roulette.js:126-133 | the loop over the keys leaves the state `AfterClearBets` describes |
| Roulette.Game.Resolve | games/roulette/roulette.js:135-145 | the winnings loop and the clearing leave the state the corrected `AfterResolve` describes |
| Roulette.Game.Spin | games/roulette/roulette.js:147-152 | the state changes as `AfterSpin` says |
| Roulette.Game.Stop | games/roulette/roulette.js:159-166 | the state changes as `AfterStop` says |
| MazeGrid.Toward | games/maze/maze.js:87-94 | the cell one step to a side is a neighbour |
| MazeGrid.Facing | games/maze/maze.js:58-75 | the side facing a neighbour leads to it, and the opposite side leads back |
| MazeGrid.Cleared | games/maze/maze.js:61 | clearing a wall takes down that side and keeps the other three |
| MazeGrid.FreshGridRules | games/maze/maze.js:41-56 | the fresh grid is well formed, each cell knows its coordinates, has all four walls and is unvisited |
| MazeGrid.CreateGrid | games/maze/maze.js:41-56 | the nested loops build the fresh grid |
| MazeGrid.OpenSideRules | games/maze/maze.js:58-75 | opening a wall between two cells takes down exactly its two copies and keeps the copies in agreement and the border intact |
| MazeGrid.OpenedRules | games/maze/maze.js:58-75 | opening the wall between neighbours keeps the grid well formed, adds no wall, and links them both ways |
| MazeGrid.MarkRules | games/maze/maze.js:101 | marking a cell visited changes that flag alone |
| MazeGrid.CrossedExtend | games/maze/maze.js:58-75 | one more passage crosses exactly its wall from each of its two cells |
| MazeGrid.OpenedAlongStep | games/maze/maze.js:58-75 | opening one more wall between neighbours extends the list of opened walls |
| MazeGrid.CarvedAlongStep | maze.js:51-57 | opening and marking a cell extends the list of carved passages |
| MazeGrid.OpenedAlongLowers | games/maze/maze.js:111-129 | walls opened along a list of passages never come back up |
| MazeGrid.OpenedAlongLinks | games/maze/maze.js:111-129 | every passage on the list links its two cells both ways |
| MazeGrid.CarveRules | games/maze/maze.js:99-101 | a carving step keeps the grid well formed, adds no wall, links the two cells and marks exactly the new one |
| MazeGrid.ConnectedKept | games/maze/maze.js:124 | taking walls down never disconnects anything |
| MazeGrid.AllConnectedKept | games/maze/maze.js:111-129 | taking walls down keeps every cell reachable from the corner |
| MazeGrid.Reachable | games/maze/maze.js:77-109 | in a maze whose cells are all reachable from the corner, any cell can be reached from any other |
| MazeGrid.CellsCount | games/maze/maze.js:83 | a grid of `cols` columns and `rows` rows has cols * rows cells |
| MazeGrid.Spread | games/maze/maze.js:77-109 | a set of cells holding the corner and closed under neighbours is the whole grid, of cols * rows cells |
| MazeGrid.Filled | games/maze/maze.js:85-106 | a set of in-grid cells at least as large as the grid holds every cell |
| MazeGrid.StepInGrid | games/maze/maze.js:230-235 | with an intact border a move keeps the player in the grid, at most one cell along each axis |
| MazeGrid.ArrowStep | games/maze/maze.js:230-235 | an arrow key moves to the neighbour exactly when the wall on that side is down |
| MazeGrid.ArrowBack | maze.js:148-153 | the opposite key undoes a move |
| MazeWalk.Unvisited | maze.js:45-49 | the candidates are exactly the listed cells that are on the grid and unvisited |
| MazeWalk.WalkStarts | maze.js:37-40 | a fresh grid with the corner visited starts the walk |
| MazeWalk.CarveInto | maze.js:51-57 | carving into an unvisited neighbour adds exactly that cell to the visited ones and keeps the walk's invariant |
| MazeWalk.BackStep | maze.js:58-60 | popping the stack when stuck keeps the walk's invariant |
| MazeWalk.Stuck | maze.js:43-61 | with no candidate and an empty stack every cell has been visited |
| MazeWalk.RecordStarts | maze.js:37-40 | before any carving, the fresh grid with the corner visited has all its walls and an empty record |
| MazeWalk.RecordCarve | maze.js:51-57 | carving into an unvisited neighbour adds its passage to the record: every wall is up exactly when no recorded passage crosses it |
| MazeLevels.RemoveWalls | games/maze/maze.js:58-75 | `removeWalls` keeps the grid's shape |
| MazeLevels.RemoveWallsOpens | games/maze/maze.js:58-75 | on neighbours `removeWalls` opens exactly their shared wall |
| MazeLevels.Candidates | games/maze/maze.js:86-94 | the candidates are exactly the unvisited in-grid neighbours, and none means every neighbour is visited |
| MazeLevels.CarveStep | games/maze/maze.js:96-102 | carving with `removeWalls` into a candidate keeps the walk going and adds the passage to the record of carves |
| MazeLevels.GenerateMaze | games/maze/maze.js:77-109 | the walk ends with a well-formed maze, every cell visited and reachable from the corner, whose walls are the fresh grid's minus exactly size * size - 1 carved passages between neighbours, each entering a new cell other than the corner |
| MazeLevels.WalkStep | games/maze/maze.js:85-106 | with candidates, the draw's pick among them is carved into: `removeWalls`, marked visited, the current cell pushed; with none, the stack is popped and the grid untouched; the walk's invariant and the record of carves are kept |
| MazeLevels.LoopNeighbours | games/maze/maze.js:116-120 | the neighbours `addLoops` draws from are exactly the in-grid neighbours |
| MazeLevels.Knock | games/maze/maze.js:115-126 | a cell knocks through at most one wall, from itself to a neighbour |
| MazeLevels.NextCell | games/maze/maze.js:113-126 | the knock of cell (x, y) extends the knocks of the cells before it in row order |
| MazeLevels.NextRow | games/maze/maze.js:113-114 | the end of a row is the start of the next |
| MazeLevels.KnockedAll | games/maze/maze.js:111-129 | the knocks of all cells cross exactly the walls `Knocked` names |
| MazeLevels.KnockStep | games/maze/maze.js:115-126 | one cell's knock keeps the maze well formed and the visited flags, and extends the list of opened walls |
| MazeLevels.KnockThrough | games/maze/maze.js:115-126 | a cell whose coin is below the probability and that has neighbours opens exactly the wall to the neighbour its pick chooses; otherwise the grid is unchanged |
| MazeLevels.AddLoops | games/maze/maze.js:111-129 | the extra loops keep the maze well formed, keep the visited flags, and leave a wall up exactly when it was up and no cell's draws knocked it down |
| MazeLevels.LoopsOpen | games/maze/maze.js:115-126 | after the loops, every cell whose coin came up is linked to the neighbour its pick chose |
| MazeLevels.ExitRules | games/maze/maze.js:217-226 | the exit is on the board, in the far corner except on level index 4, where both coordinates are in [floor(0.6 size), size) |
| MazeLevels.LastLevelExit | games/maze/maze.js:218-223 | on the last level the exit lies in [24, 40) on both axes |
| MazeLevels.FirstSight | games/maze/maze.js:212-215 | the fog map is size by size |
| MazeLevels.FirstSightRules | games/maze/maze.js:212-215 | at the start only the corner is seen |
| MazeLevels.Sight | games/maze/maze.js:236 | lifting the fog keeps the map's shape |
| MazeLevels.SightRules | games/maze/maze.js:236 | lifting the fog marks the player's cell and keeps the rest |
| MazeLevels.Game.constructor | games/maze/maze.js:260 | level 0 starts with the player and fog at the corner and the exit in the far corner |
| MazeLevels.Game.StartLevel | games/maze/maze.js:205-228 | a new solvable maze of the level's size, the player at the corner, only the corner seen, the exit placed by `ExitFor` |
| MazeLevels.Game.Move | games/maze/maze.js:230-246 | the player steps through open walls, the fog lifts there, and reaching the exit goes up a level or, after the fifth, stops |
| MazeLevels.ExitInReach | games/maze/maze.js:205-228 | from wherever the player stands, the exit can be reached |
| MazeClassic.RemoveWalls | maze.js:65-81 | `removeWalls` keeps the grid's shape |
| MazeClassic.RemoveWallsOpens | maze.js:65-81 | on neighbours the else-if chain opens exactly their shared wall |
| MazeClassic.Neighbours | maze.js:46-49 | the tested cells are exactly the in-grid neighbours |
| MazeClassic.Candidates | maze.js:44-49 | the candidates are exactly the unvisited in-grid neighbours, and none means every neighbour is visited |
| MazeClassic.CarveStep | maze.js:51-57 | carving with `removeWalls` into a candidate keeps the walk going and adds the passage to the record of carves |
| MazeClassic.GenerateMaze | maze.js:28-63 | the walk ends with a well-formed maze, every cell visited and reachable from the corner, whose walls are the fresh grid's minus exactly cols * rows - 1 carved passages between neighbours, each entering a new cell other than the corner |
| MazeClassic.WalkStep | maze.js:43-61 | with candidates, the draw's pick among them is carved into: `removeWalls`, marked visited, the current cell pushed; with none, the stack is popped and the grid untouched; the walk's invariant and the record of carves are kept |
| MazeClassic.Game.constructor | maze.js:199 | level 0 starts with the player at the corner |
| MazeClassic.Game.StartLevel | maze.js:188-194 | a new solvable maze of the level's size with the player at the corner |
| MazeClassic.Game.Move | maze.js:148-169 | the player steps through open walls; the far corner goes up a level or, after the fifth, wins; once won nothing changes |
| MazeClassic.CornerInReach | maze.js:158-169 | from wherever the player stands, the far corner can be reached |
| Golf.RandomRange | games/golf/game.js:76-78 | a draw in [0, 1) lands in [min, max) |
| Golf.ObstacleRange | games/golf/game.js:80-85 | a tree spans x ± width/2, anything else [x, x + width] |
| Golf.OverlapIsSymmetric | games/golf/game.js:93-95 | the overlap test is symmetric |
| Golf.TouchingIsNoOverlap | games/golf/game.js:93-95 | stretches that only touch do not overlap |
| Golf.OverlapMeansSharedGround | games/golf/game.js:93-95 | for stretches of positive width, overlap holds exactly when some point lies strictly inside both |
| Golf.TreeOverlapCases | game.test.js:45-60 | the overlap cases the repository's tests check hold |
| Golf.Candidate | games/golf/game.js:101-102 | each attempt is an obstacle of the requested type and width |
| Golf.Kept | games/golf/game.js:97-113 | the attempt kept is one of the 100 |
| Golf.KeptRules | games/golf/game.js:97-113 | every attempt before the kept one collided, and the kept one is free unless it is the last |
| Golf.KeptIsFirst | games/golf/game.js:97-113 | the first free attempt is the one kept, or the last one if none is free |
| Golf.Place | games/golf/game.js:97-113 | the obstacle returned has the requested type and width and lies in [minX, maxX) |
| Golf.PlaceFits | games/golf/game.js:97-113 | if any attempt is free, the obstacle returned overlaps nothing |
| Golf.CreateObstacle | games/golf/game.js:97-113 | the do-while loop returns the obstacle `Place` describes |
| Golf.Par | games/golf/game.js:124-130 | par 3 exactly for 75 to 225 yards, 4 exactly for 226 to 420, 5 for everything else |
| Golf.ParGrows | games/golf/game.js:124-130 | from 75 yards on a longer hole never has a smaller par |
| Golf.PinHoleRules | games/golf/game.js:117-130 | the pin lies in [0.7w, w - 80), the overshoot is in [0.2w, 0.4w), the yardage is the rounded distance from the tee, and the par is `Par` of it |
| Golf.TreeCount | games/golf/game.js:140 | one to three trees |
| Golf.Requests | games/golf/game.js:139-181 | the placement requests are the trees, then the hill, water and bunker, each with a non-empty band; a tree's width is the base width scaled by a draw in [1.5, 3) |
| Golf.Placed | games/golf/game.js:139-181 | one obstacle per request |
| Golf.PlacedRules | games/golf/game.js:139-181 | each obstacle is the one `createObstacle` places given those before it |
| Golf.LayoutRules | games/golf/game.js:132-181 | one to three trees of width in [30, 60), then a hill of width 100, water of 60 and a bunker of 80, each the one `createObstacle` places and inside its band |
| Golf.LayoutSpread | games/golf/game.js:132-181 | no obstacle overlaps the green or an earlier obstacle unless all 100 of its attempts did |
| Golf.Friction | games/golf/game.js:335-340 | the bunker wins, then the green within its radius, else the fairway |
| Golf.FrictionOrder | games/golf/game.js:335-340 | sand slows the ball most and the green least |
| Golf.FrictionCases | game.test.js:79-113 | the surface cases the repository's tests check hold |
| Golf.StartRules | games/golf/game.js:197-200 | a new game is hole 1 with no strokes, an empty scorecard, and the ball at rest on the tee of a freshly drawn hole |
| Golf.RetakeAfterLaunch | games/golf/game.js:862-885 | a shot taken back with R leaves the ball where it was; it costs the shot and one more stroke, except on the hole's first stroke |
| Golf.RetakeAfterPenalty | games/golf/game.js:875-880 | after a hazard penalty one R is free; a second one costs a stroke past the first |
| Golf.SwingSetsPower | games/golf/game.js:889-902 | the second space press launches with velocity from the meter and the aim alone, whatever the power was |
| Golf.SpaceStartsMeter | games/golf/game.js:890-894 | the first space press only starts the meter |
| Golf.LatchRules | games/golf/game.js:391-398 | at rest in a bunker the power drops once, never below 5 and never up from 5 or more; leaving the sand re-arms the latch |
| Golf.WaterRules | games/golf/game.js:448-465 | a ball over water at ground level costs a stroke and stops on the near side, on the ground; any other ball is untouched |
| Golf.AfterHazards | games/golf/game.js:429-467 | the collision loop touches only the ball, the strokes and the hazard flag, at most one stroke per obstacle |
| Golf.OvershootRules | games/golf/game.js:470-483 | past the limit the ball comes back inside it, at rest on the tee line, for a stroke; otherwise nothing changes |
| Golf.RestartRules | games/golf/game.js:259-283 | N keeps the pin, layout and scorecard, clears the strokes, puts the ball on the tee, and a second N changes nothing |
| Golf.NextHoleRules | games/golf/game.js:242-257 | past hole 18 only the counter moves; otherwise a fresh hole, no strokes, the ball on its tee, the scorecard kept |
| Golf.FallRules | games/golf/game.js:359-378 | the dropping ball speeds up and shrinks; once below the cup the hole is complete and its strokes and par go onto the card together |
| Golf.ApplyKeepsLedger | games/golf/game.js:356-516 | every event extends the scorecard by whole holes, a score and a par together, or not at all |
| Golf.LedgerAlways | games/golf/game.js:356-516 | over any run of events the scorecard keeps one par per score and only grows |
| Golf.TotalIsDifference | games/golf/game.js:226 | the total against par is all strokes less the par of the holes played |
| Golf.ParPushedTwice | games/golf/game.js:486-498 | as written, a shot that lands in the cup, R during the drop and a second sink leave two pars and no score |
| Golf.ResunkRecordsNothing | games/golf/game.js:365-376 | corrected, the same play records nothing until the ball is down |
| Golf.PushObstacle | games/golf/game.js:143-181 | one `obstacles.push(createObstacle(...))` extends the placed obstacles by the one for its request |
| Golf.PlaceObstacles | games/golf/game.js:139-181 | the tree loop and the three further placements give the layout `Layout` describes |
| Golf.Game.constructor | games/golf/game.js:197-200 | the globals start as `Start` says |
| Golf.Game.SetupCourse | games/golf/game.js:115-190 | the state changes as `SetUp` says |
| Golf.Game.Launch | games/golf/game.js:342-354 | the state changes as `AfterLaunch` says: nothing while moving, else one stroke |
| Golf.Game.Space | games/golf/game.js:889-902 | the state changes as `AfterSpace` says |
| Golf.Game.Retake | games/golf/game.js:862-885 | the state changes as `AfterRetake` says |
| Golf.Game.Restart | games/golf/game.js:259-283 | the state changes as `AfterRestart` says |
| Golf.Game.NextHole | games/golf/game.js:242-257 | the state changes as `AfterNextHole` says |
| Golf.Game.Resize | games/golf/game.js:192-196 | the state changes as `AfterResize` says |
| Golf.Game.Update | games/golf/game.js:356-516 | the state changes as the corrected `AfterUpdate` says |
| Golf.Game.Drop | games/golf/game.js:359-378 | the state changes as the corrected `AfterFall` says |
| Golf.Game.Latch | games/golf/game.js:391-398 | only the shot changes, as `AfterLatch` says |
| Golf.Game.Hazards | games/golf/game.js:429-467 | the collision loop leaves the state `AfterHazards` describes |
| Golf.Game.Splash | games/golf/game.js:448-465 | the state changes as `AfterWater` says |
| Golf.Game.Overshoot | games/golf/game.js:470-483 | the state changes as `AfterOvershoot` says |
| Golf.Game.Sink | games/golf/game.js:486-498 | the state changes as the corrected `AfterSink` says |

## Left out

- Drawing, DOM updates, messages, event-listener wiring, `requestAnimationFrame` loops and timers. A timer's effect is an operation the caller invokes: golf's delayed `nextHole` is the `Advance` event and `NextHole`, and the roulette wheel's last tick is `Stop`.
- `Math.random()`: every call is a caller-supplied draw in [0, 1). A shuffle is exactly the permutation the draws select.
- Golf physics: gravity, bounce, friction integration, slope, tree push-out, `groundHeightAt`, `groundSlopeAt`, the camera and the aim angle. A frame's flight and the ground height are inputs (`Frame`), and the aim is given as its cosine and sine. The meter's oscillation is left out too, and its reading is an input to the space bar. The golfer position, swing animation, `aimAtHole` and the arrow keys only affect drawing.
- Golf.Par: follows the code, which gives par 5 below 75 yards, where a description of the game would suggest par 3 for a short hole.
- Golf.Place: follows the code, which returns the last candidate even when all 100 attempts overlapped, and `setupCourse` pushes it anyway.
- Golf.SwingSetsPower: the second space press overwrites the bunker latch's power reduction before launching, so the reduction never reaches a metered shot. The model keeps this behaviour.
- The roulette wheel's spin and the angle-to-pocket arithmetic. The pocket the wheel stops on is an input to `Stop`.
- Bowling ball motion and the collision test (`Math.hypot`). The pins the ball reaches in a tick are an input (`hits`). The lane width is modelled as the source computes it, and the resize handler's re-racking mid-game is not modelled.
- Blackjack.DealPlayer, Blackjack.DealDealer: dealing from an empty deck leaves the hand unchanged, where the source would push `undefined`. A round deals from a fresh 52-card deck, so the deck cannot run out.
- Solitaire.Klondike.AttemptMove: a selection from an empty waste raises a TypeError in the source before anything changes. The model returns false with no change.
- Maze positions stand for the cell objects the source keeps on its stack. A wall change is a new grid value rather than an update through a shared reference.
- MazeLevels.Game.Move: after the fifth level, `drawMaze` fails on the missing level before the exit test. The model stops the move there and keeps the level count at 5.
- The other files of the repository are not part of this model. These are the fighting games, baseball, archery, the tilting-floor `game.js`, the theme and menu scripts, and the lint configuration. They hold physics, random damage and page plumbing rather than rules.

## Findings

| source | as written | input that shows it | evidently intended | confidence | as-written member | corrected member |
|---|---|---|---|---|---|---|
| games/bowling/bowling.js:144 | in frame 10, any second roll that leaves pins standing ends the game, even after an opening strike | nine gutter frames, then a strike and a 7 in frame 10: the game ends at 17 with no bonus roll | after an opening strike the second and third rolls are both bonus rolls; the branch at line 150 (roll 3 at the pins left) is otherwise unreachable | high, not executed | Bowling.StrikeThenSevenInTenth | Bowling.TenthFrameRules |
| games/roulette/roulette.js:144 | `resolve` pays the winnings and then calls `clearBets`, which returns every stake to the player, losing ones included | 99 chips in hand and one chip on 5, ball on 7: the player ends with 100 chips | the house keeps the stakes: a losing chip is lost, and a winning chip returns 36 | high, not executed | Roulette.LosingBetRefunded | Roulette.ResolveRules |
| games/golf/game.js:495 | the par is pushed when the drop into the cup starts, while the score is pushed only when the drop ends (line 370); R or N during the drop takes the ball back without completing the hole | a first shot that lands in the cup, R during the drop, then a second shot that lands in the cup: two pars and no score on the card | one par per completed hole, pushed together with its score, so `updateScoreboard` pairs each score with its own par | medium, not executed | Golf.ParPushedTwice | Golf.LedgerAlways |
