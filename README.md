# Monopoly rules engine in Dafny

This project models the rules engine of a browser Monopoly game (the
TypeScript classes under `src/models/`) and proves properties of it:

- **Board**: the four themed 40-square boards, sorted by square id; movement
  round the ring; lookups; group queries; mortgage values; board edges; the
  JSON round trip.
- **Square**: the six square kinds and what happens when a token lands on
  each of them:
  - rent paid to the first other owner;
  - the offer to buy;
  - tax;
  - the "Go To Jail" corner;
  - drawing a card.
- **Card**: the eight card effects, and the card deck with its cyclic cursor
  and its shuffle.
- **Player**: the ledger of one player:
  - cash, with guarded and unguarded debits;
  - the token position and the previous position;
  - owned properties, each with a house count and a mortgage flag;
  - pardons.
- **GameState**: the turn state, i.e. the players, the turn pointer, the dice,
  the lock and the selected property. It covers `movePlayer`, `endTurn`,
  `addPlayer`, `rollDice`, `buyHouse` and `getCurrentPlayer`.

## How the model is built

Each source file maps to one module:

| module | file | source |
|---|---|---|
| `Common` | `common.dfy` | `Option`/`Result`, JavaScript's truncating `%` (`JsRem`), modular arithmetic lemmas, and permutations of sequences |
| `Squares` | `squares.dfy` | `Square.ts`: the square variants as one datatype, `calculateRent`, and `toJSON` with its inverse |
| `Cards` | `cards.dfy` | `Card.ts`: the card variants as one datatype, the `CardDeck` class over an `array<Card>`, and the two deck factories |
| `Catalogue` | `catalogue.dfy` | the four theme tables of `Board.initializeSquares`, in push order |
| `Boards` | `boards.dfy` | `Board.ts`: the sort by id, the queries and the `Board` class |
| `Players` | `players.dfy` | `Player.ts` |
| `Game` | `game.dfy` | `GameState.ts`, and the landing and card effects from `Square.ts` and `Card.ts` |

The landing and card effects sit in module `Game` because they mutate the game
state; `Square.ts` and `Card.ts` import `GameState`.

Player rules are stated twice, once as a value and once as a class:
- `PlayerRecord` is a value. Each ledger operation is a function on it, and
  the lemmas are about these functions.
- The `Player` class has the source's mutable fields. Each of its methods is
  proved to change them exactly as the matching function says.

The landing rules follow the same pattern:
- Two snapshot values stand for the game. `Table` holds the read-only part
  (squares, ring length, deck contents). `World` holds what a landing changes
  (the player records, both deck cursors, the selected property, the dice).
- The functions `Land`, `ApplyCard`, `LandAt` and `Turn` state the rules on
  these snapshots.
- Each `GameState` method is proved to move the live objects exactly as its
  function says. For example, `MovePlayer` ensures
  `WorldNow() == Turn(TableNow(), old(WorldNow()).(dice := dice), currentPlayerIndex, LandingDepth)`.

A card can move a token onto a card square, which draws another card.
- This recursion is bounded by a budget, `LandingDepth` = 8.
- Each move made by a card spends one unit of the budget.

Randomness is a nondeterministic choice within the source's bounds:
- the swap index in the shuffle is any `j` with `0 <= j <= i`;
- each die is any value in `1..6`.

Where the code and its documentation disagree, the model follows the code:
- Rent on a mortgaged property is charged in full. `handleLanding` never
  reads the mortgage flag (`MortgageDoesNotWaiveRent`).
- Corners dispatch on their name, not their `action`. The "bry" board's
  go-to-jail corner is named "Go To Detention", so landing on it does
  nothing (`DetentionCornerIsInert`).
- `movePlayer` credits nothing for passing Go (`TurnMovesThenLands`). Only a
  `MoveCard` with `collectPassGo` does (`MoveCardEffect`).
- `CollectFromPlayersCard` credits the drawer for every other player, even a
  player who could not pay. Money is therefore created in that case
  (`CollectFromPlayersMoney`).
- `buyHouse` never asks whether the buyer owns the whole colour group.
  Neither `Player.buyHouse` nor `GameState.buyHouse` calls
  `ownsPropertyGroup`, so the owner of one street of a group can build on it
  (`HouseWithoutMonopoly`, `OldKentRoadHouseWithoutWhitechapel`).

## Model

| member | source | states |
|---|---|---|
| `Squares.CalculateRent` | src/models/Square.ts:148-150 | the rent-table entry for the house count, or 0 when the table has no such entry |
| `Squares.ToJson` | src/models/Square.ts:33-39 | the record carries the square's id, name and type tag; a price is present exactly for the buyable kinds |
| `Squares.FromJson` | src/models/Board.ts:326-349 | rebuilding succeeds iff the tag is one of the six known ones; it keeps the id, name and tag; a corner comes back without its action |
| `Squares.RoundTrip` | src/models/Board.ts:313-354 | `FromJson(ToJson(sq))` gives back the square, except that a corner's action is dropped |
| `Squares.FromJsonAll` | src/models/Board.ts:324-350 | the whole list is rebuilt iff every tag is known, element by element |
| `Squares.ToJsonAll` | src/models/Board.ts:317 | one record per square, in order |
| `Squares.RoundTripAll` | src/models/Board.ts:321-354 | exporting a board's squares and importing them back restores every square (corners lose their action) |
| `Squares.TagIsKnown` | src/models/Square.ts:15-24 | every square has one of the six type tags; it is buyable iff its tag is property, station or utility |
| `Cards.ChanceCards` | src/models/Card.ts:366-407 | the chance deck holds 11 cards |
| `Cards.CommunityChestCards` | src/models/Card.ts:409-471 | the community chest deck holds 16 cards |
| `Cards.CursorAfterDraws` | src/models/Card.ts:349-356 | after `k` draws the cursor is `(cursor + k) % n` |
| `Cards.FullCycleRestoresCursor` | src/models/Card.ts:351 | `n` draws from an `n`-card deck bring the cursor back to where it started |
| `Cards.DealtAt` | src/models/Card.ts:350-351 | draw number `i` deals `cards[(cursor + i) % n]` |
| `Cards.DrawRepeatsAfterFullCycle` | src/models/Card.ts:349-356 | draw `n + 1` deals the same card as draw 1 |
| `Cards.FullCycleDealsEachCardOnce` | src/models/Card.ts:349-355 | `n` draws deal the deck rotated to the cursor: every card exactly once |
| `Cards.DealtCardIsListed` | src/models/Card.ts:349-356 | a deck whose cards are a permutation of a card list deals only cards of that list |
| `Cards.CardDeck.constructor` | src/models/Card.ts:336-340 | the deck holds a permutation of the given cards, and the cursor is 0 |
| `Cards.CardDeck.Shuffle` | src/models/Card.ts:342-347 | the swaps leave the multiset of cards unchanged |
| `Cards.CardDeck.DrawCard` | src/models/Card.ts:349-356 | deals the card at the cursor and advances the cursor by one, modulo the deck size; a card is dealt iff the deck is not empty |
| `Cards.CardDeck.CreateChanceDeck` | src/models/Card.ts:366-407 | a fresh deck holding a permutation of the 11 chance cards, cursor 0 |
| `Cards.CardDeck.CreateCommunityChestDeck` | src/models/Card.ts:409-471 | a fresh deck holding a permutation of the 16 community chest cards, cursor 0 |
| `Catalogue.ParseBoardName` | src/models/Board.ts:25-198 | exactly "uk", "us", "world" and "bry" are themes, each read as itself; any other name fails with "Board name not recognized" |
| `Boards.InsertById` | src/models/Board.ts:201 | inserting into an id-sorted list keeps it sorted and adds exactly that square |
| `Boards.SortById` | src/models/Board.ts:201 | the result is sorted by id and is a permutation of the input |
| `Boards.InitializeSquares` | src/models/Board.ts:22-202 | a theme's squares, sorted by id, as a permutation of what the theme pushes |
| `Boards.LayoutShape` | src/models/Board.ts:25-196 | every theme pushes exactly one square for each id 0..39, corners at multiples of 10, and even prices |
| `Boards.CatalogueIsDense` | src/models/Board.ts:22-202 | every sorted theme has 40 squares with square `i` at index `i`, corners exactly every tenth square, and even prices |
| `Boards.SortedCoverIsDense` | src/models/Board.ts:201 | sorting a list that holds each id 0..39 once puts id `i` at index `i` |
| `Boards.GetSquareFromIndex` | src/models/Board.ts:208-210 | the first square with that id, or none iff no square has it |
| `Boards.DenseLookup` | src/models/Board.ts:208-210 | on a densely numbered board the lookup is indexing, and it is empty outside the ring |
| `Boards.GetPropertiesByGroup` | src/models/Board.ts:229-231 | exactly the property squares of that group |
| `Boards.HasMonopoly` | src/models/Board.ts:244-247 | true iff every property of the group is among the given ids |
| `Boards.GetPositionAfterMove` | src/models/Board.ts:250-252 | `(position + steps) % totalSquares`, in `[0, totalSquares)` for non-negative sums; JavaScript's sign for negative ones |
| `Boards.EdgeTypeByQuarter` | src/models/Board.ts:282-297 | on a ring of any positive length n, with the side length n/4 kept exact as JavaScript does, a position p is a corner iff 4p is 0, n, 2n or 3n, and otherwise lies on the bottom, left, top or right side by quarter |
| `Boards.UnevenRingHasTwoCorners` | src/models/Board.ts:282-297 | on a 42-square ring, as `importFromJSON` can set, only positions 0 and 21 are corners |
| `Boards.EdgeTypeBySide` | src/models/Board.ts:282-297 | the edge is "corner" on multiples of the side length, otherwise bottom, left, top or right by quarter |
| `Boards.IsCorner` | src/models/Board.ts:270-273 | true iff the first square carrying that id is a corner |
| `Boards.DenseCornersOnCorners` | src/models/Board.ts:270-273 | on a theme board, `isCorner` agrees with `getEdgeType` being "corner" |
| `Boards.CalculateMortgageValue` | src/models/Board.ts:305-311 | half the price of a property square, 0 for any other id |
| `Boards.DenseMortgageIsHalfPrice` | src/models/Board.ts:305-311 | with even prices, twice the mortgage value is exactly the price |
| `Boards.CatalogueMortgageIsHalfPrice` | src/models/Board.ts:305-311 | on every theme board the mortgage value of a property is exactly half its price |
| `Boards.Board.constructor` | src/models/Board.ts:14-20 | the ring length is `(size - 1) * 4`; two distinct fresh decks, one holding a permutation of the 11 chance cards and the other of the 16 community chest cards, both cursors at 0 |
| `Boards.Board.FreshDecks` | src/models/Board.ts:17-18 | two distinct fresh decks holding permutations of the chance and of the community chest cards, cursors at 0 |
| `Boards.Board.Create` | src/models/Board.ts:14-20 | the squares are the theme sorted by id, the ring length is `(size - 1) * 4`, and the decks hold permutations of the chance and of the community chest cards, cursors at 0 |
| `Boards.Board.CreateDefault` | src/models/Board.ts:14-20 | with the default size 11 the ring has 40 squares; squares and decks as for `Create` |
| `Boards.Board.DrawChanceCard` | src/models/Board.ts:220-222 | deals the chance card at the cursor and advances the chance cursor modulo the deck size |
| `Boards.Board.DrawCommunityChestCard` | src/models/Board.ts:224-226 | the same, for the community chest deck |
| `Boards.Board.FindNextSquareOfType` | src/models/Board.ts:255-267 | the first position strictly after the start, going round the ring, whose square has the type; the start itself when no other square has it |
| `Boards.Board.ResetCardDecks` | src/models/Board.ts:276-279 | both decks are replaced by fresh decks holding permutations of the chance and of the community chest cards, cursors at 0 |
| `Boards.Board.ToJson` | src/models/Board.ts:313-319 | the record holds the size and ring length, and its squares import back to the board's squares |
| `Boards.Board.ImportFromJson` | src/models/Board.ts:321-354 | size and ring length are taken (a missing length reads as 0); it succeeds iff every tag is known, and then the squares are the rebuilt ones; otherwise it fails with "Failed to import board from JSON" and keeps the old squares |
| `Players.FindOwned` | src/models/Player.ts:146-148 | the index of the first owned entry with that id, or none iff there is no such entry |
| `Players.FindOwnedAfterUpdate` | src/models/Player.ts:155 | changing an entry in place without changing its id leaves every lookup unchanged |
| `Players.CountOfType` | src/models/Player.ts:182-187 | the count of owned entries whose square has the type is at most the number of entries; how it changes is stated by `CountOfTypeAppend` and `CountOfTypeUpdate` |
| `Players.CountOfTypeAppend` | src/models/Player.ts:182-187 | appending an entry raises the count of its square's type by one and leaves the others |
| `Players.PlayerRecord.Owned` | src/models/Player.ts:146-148 | the owned entry with that id, or none iff there is no such entry |
| `Players.PlayerRecord.OwnsProperty` | src/models/Player.ts:126-128 | true iff some owned entry has that id |
| `Players.PlayerRecord.IsPropertyMortgaged` | src/models/Player.ts:68-74 | a property is mortgaged only if it is owned |
| `Players.PlayerRecord.PropertyCount` | src/models/Player.ts:182-187 | the count of owned entries whose square has the type; at most the number of entries |
| `Players.PlayerRecord.OwnsPropertyGroup` | src/models/Player.ts:130-134 | true iff every property square of the group is owned, i.e. `hasMonopoly` over the owned ids |
| `Players.PlayerRecord.PassedGo` | src/models/Player.ts:201-204 | true only with a previous position above the current one, and never on square 10 |
| `Players.PlayerRecord.SetPosition` | src/models/Player.ts:77-80 | the new position, with the old one recorded as previous; nothing else changes |
| `Players.PlayerRecord.MoveForward` | src/models/Player.ts:101-104 | the position becomes `(old + steps) % totalSquares`, in range, with the old position recorded; nothing else changes |
| `Players.PlayerRecord.AddMoney` | src/models/Player.ts:106-108 | money rises by the amount; nothing else changes |
| `Players.PlayerRecord.RemoveMoney` | src/models/Player.ts:110-116 | succeeds iff money covers the amount, and then takes it, leaving money non-negative; on failure nothing changes |
| `Players.PlayerRecord.ForceRemoveMoney` | src/models/Player.ts:118-120 | money drops by the amount whatever the balance |
| `Players.PlayerRecord.AddProperty` | src/models/Player.ts:122-124 | appends an unimproved, unmortgaged entry; the property is then owned |
| `Players.PlayerRecord.BuyProperty` | src/models/Player.ts:136-143 | succeeds iff money covers the price; the price is debited and the entry appended, and every other field is unchanged; on failure nothing changes |
| `Players.PlayerRecord.BuyHouse` | src/models/Player.ts:145-158 | succeeds iff the property is owned, affordable and has fewer than 5 houses; then the cost is debited and the first entry with that id gains one house; the new ledger is exactly the old one with that entry replaced, and every other field is unchanged; on failure nothing changes |
| `Players.PlayerRecord.AddPardon` | src/models/Player.ts:189-191 | pardons rise by exactly one |
| `Players.PlayerRecord.UsePardon` | src/models/Player.ts:193-199 | succeeds iff there is a pardon, and uses exactly one; pardons never go negative |
| `Players.PlayerRecord.Mortgage` | src/models/Player.ts:160-180 | succeeds iff the property is owned and, when it is mortgaged, the owner can pay half the price back; on success the new ledger is exactly the old one with the flag of the first entry with that id flipped, and only money and the ledger change; a failure changes nothing; the money is stated by `MortgageEffect` |
| `Players.MortgageEffect` | src/models/Player.ts:160-180 | succeeds iff owned and, when unmortgaging, affordable; mortgaging credits half the price, unmortgaging debits it; the flag flips, the other entries are unchanged, only money and the ledger change, and a failure changes nothing |
| `Players.BuyHouseKeepsHousesInRange` | src/models/Player.ts:150-155 | house counts stay within 0..5 |
| `Players.MortgageKeepsHousesInRange` | src/models/Player.ts:160-180 | mortgaging leaves house counts within 0..5 |
| `Players.MortgageTwiceRestores` | src/models/Player.ts:160-180 | when both calls succeed, mortgaging and unmortgaging restore money and flag |
| `Players.PassedGoAfterMove` | src/models/Player.ts:201-204 | a forward move by less than one lap reports passing Go iff it wrapped past square 0 and did not end on square 10 |
| `Players.BuyPropertyCounts` | src/models/Player.ts:136-143 | a successful purchase raises the count of the square's type by one |
| `Players.HouseWithoutMonopoly` | src/models/Player.ts:145-158 | the owner of one street of a group whose other street is not owned still buys a house, while `ownsPropertyGroup` is false |
| `Players.OldKentRoadHouseWithoutWhitechapel` | src/models/Player.ts:145-158 | owning only Old Kent Road, a player with 1500 buys a house there without holding the brown group |
| `Players.Player.constructor` | src/models/Player.ts:25-40 | position 0, no previous position, the given money, no properties, no pardons |
| `Players.Player.SetPosition` | src/models/Player.ts:77-80 | the fields change exactly as `PlayerRecord.SetPosition` says |
| `Players.Player.MoveForward` | src/models/Player.ts:101-104 | exactly as `PlayerRecord.MoveForward` over the board's ring length |
| `Players.Player.AddMoney` | src/models/Player.ts:106-108 | exactly as `PlayerRecord.AddMoney` |
| `Players.Player.RemoveMoney` | src/models/Player.ts:110-116 | exactly as `PlayerRecord.RemoveMoney`, returning its verdict |
| `Players.Player.ForceRemoveMoney` | src/models/Player.ts:118-120 | exactly as `PlayerRecord.ForceRemoveMoney` |
| `Players.Player.AddProperty` | src/models/Player.ts:122-124 | exactly as `PlayerRecord.AddProperty` |
| `Players.Player.BuyProperty` | src/models/Player.ts:136-143 | exactly as `PlayerRecord.BuyProperty`, returning its verdict |
| `Players.Player.BuyHouse` | src/models/Player.ts:145-158 | the found entry is updated in place exactly as `PlayerRecord.BuyHouse` says |
| `Players.Player.Mortgage` | src/models/Player.ts:160-180 | the found entry is updated in place exactly as `PlayerRecord.Mortgage` says |
| `Players.Player.AddPardon` | src/models/Player.ts:189-191 | exactly as `PlayerRecord.AddPardon` |
| `Players.Player.UsePardon` | src/models/Player.ts:193-199 | exactly as `PlayerRecord.UsePardon`, returning its verdict |
| `Game.OwnerIndex` | src/models/Square.ts:120-124 | the first player, other than the lander, who owns the position; none iff there is no such player |
| `Game.PayRent` | src/models/Square.ts:135-136 | the lander is debited and the owner credited by the same amount; others unchanged; total money conserved |
| `Game.LandOnBuyable` | src/models/Square.ts:117-145 | a landing keeps the players and their ids |
| `Game.RentIsTransferred` | src/models/Square.ts:126-141 | with another owner, exactly the rent moves from lander to the first owner; total money is conserved |
| `Game.UnownedSquareIsOffered` | src/models/Square.ts:142-145 | with no other owner, including when the lander owns it, landing only selects the square |
| `Game.PropertyRent` | src/models/Square.ts:130-133 | property rent is the entry for the owner's house count, 0 when out of range |
| `Game.StationRent` | src/models/Square.ts:194-195 | station rent is the entry for the number of stations held, capped at the fourth |
| `Game.UtilityRent` | src/models/Square.ts:252-254 | utility rent is the dice roll times the multiplier for one utility or for two or more (1 when missing) |
| `Game.MortgageDoesNotWaiveRent` | src/models/Square.ts:111-146 | mortgaging flips the flag but leaves the rent of the square unchanged |
| `Game.CountOfTypeUpdate` | src/models/Player.ts:182-187 | changing an entry without changing its id keeps every count by type |
| `Game.CornerLanding` | src/models/Square.ts:57-74 | a corner named "Go To Jail" sends the lander to 10 and records the old position; every other corner changes nothing |
| `Game.DetentionCornerIsInert` | src/models/Board.ts:159 | the "bry" board's corner 30 has the jail action yet landing on it changes nothing |
| `Game.TaxIsAlwaysCharged` | src/models/Square.ts:294 | tax takes exactly its amount whatever the balance; total money falls by that amount |
| `Game.CardSquareDrawsFromItsDeck` | src/models/Square.ts:324-329 | the next community card is applied iff the card type is "community", otherwise the next chance card; that deck's cursor advances |
| `Game.MoveCardEffect` | src/models/Card.ts:53-79 | 200 is credited iff the card collects on passing Go and the destination is behind the token; then the token moves there and lands |
| `Game.MoveRelativeCardEffect` | src/models/Card.ts:105-128 | the token moves to `(position + spaces) % totalSquares` and lands there |
| `Game.RelativeDestination` | src/models/Card.ts:109-114 | the destination is always on the ring; `RelativeDestinationIsModulo` shows it is the true modulus |
| `Game.RelativeDestinationIsModulo` | src/models/Card.ts:109-114 | the truncating remainder shifted up when negative is the true modulus, always in range |
| `Game.DrawerCardEffects` | src/models/Card.ts:153-230 | collect credits the amount; pay takes it only when affordable; jail moves the token to 10; a pardon card adds exactly one; nothing else changes |
| `Game.PayPerBuildingEffect` | src/models/Card.ts:260-274 | the charge is houses times the house rate plus hotels times the hotel rate, taken only when affordable |
| `Game.BuildingCharge` | src/models/Card.ts:265-271 | one entry costs its houses (1 to 4 of them) times the house rate, or the hotel rate when it has 5 |
| `Game.BuildingCost` | src/models/Card.ts:260-272 | the running total equals houses times the house rate plus hotels times the hotel rate |
| `Game.BuildingCostNonNegative` | src/models/Card.ts:260-270 | with houses in 0..5 and non-negative rates the charge is never negative |
| `Game.TotalBuildingCost` | src/models/Card.ts:256-270 | the loop's total is the building charge of every owned entry |
| `Game.Charged` | src/models/Card.ts:308-313 | every other player makes a guarded payment of the amount; the drawer and the seating are unchanged |
| `Game.ChargedBelow` | src/models/Card.ts:308-313 | after the whole seating has been charged, the loop's state is the full charge |
| `Game.CollectedIsProduct` | src/models/Card.ts:305-313 | the running total is the amount times the number of other players |
| `Game.ChargedTotal` | src/models/Card.ts:308-313 | total money falls by the amount for each other player who could pay |
| `Game.CollectFromPlayers` | src/models/Card.ts:305-315 | the seating and ids are unchanged |
| `Game.CollectFromPlayersMoney` | src/models/Card.ts:305-315 | the drawer gains the amount per other player; total money grows by the amount per player who could not pay |
| `Game.NextTurn` | src/models/GameState.ts:111-114 | the next index wraps round to 0 after the last player, always in range |
| `Game.TurnsAfter` | src/models/GameState.ts:111-114 | the turn pointer stays in range however many turns end |
| `Game.TurnsAfterIsModulo` | src/models/GameState.ts:111-114 | after `k` ended turns the pointer is `(index + k) % playerCount` |
| `Game.EveryPlayerGetsATurn` | src/models/GameState.ts:111-114 | every player gets the turn within one round, and the round ends where it began |
| `Game.TurnMovesThenLands` | src/models/GameState.ts:128-140 | the player steps forward modulo the ring, with no pass-Go credit, then lands on the square there if there is one |
| `Game.LandKeepsIds` | src/models/Square.ts:51-330 | however deep cards chain, a landing keeps the seating and every player's id |
| `Game.ApplyCardKeepsIds` | src/models/Card.ts:48-321 | a card effect keeps the seating and every player's id |
| `Game.LandAtKeepsIds` | src/models/Card.ts:72-79 | landing after a card move keeps the seating and every player's id |
| `Game.TurnKeepsIds` | src/models/GameState.ts:128-140 | a whole move keeps the seating and every player's id |
| `Game.GameState.constructor` | src/models/GameState.ts:26-33 | one player with id 0, the first palette colour and 1500; turn 0, dice (1, 1), unlocked, nothing selected |
| `Game.GameState.GetCurrentPlayer` | src/models/GameState.ts:41-47 | the current player iff the index is in range, otherwise "Current player is undefined" |
| `Game.GameState.AddPlayer` | src/models/GameState.ts:91-102 | below 9 players it appends a player whose id is the old count, with that palette colour and 1500; at 9 nothing changes |
| `Game.GameState.RollDice` | src/models/GameState.ts:104-109 | both dice in 1..6, stored and returned |
| `Game.GameState.EndTurn` | src/models/GameState.ts:111-114 | the pointer moves to the next player modulo the count, and the game is unlocked |
| `Game.GameState.BuyHouse` | src/models/GameState.ts:116-125 | fails with "Invalid property square" iff the id is not a property square; otherwise the current player's `buyHouse` verdict and effect |
| `Game.GameState.MovePlayer` | src/models/GameState.ts:128-140 | locks the game, rolls dice in 1..6, and leaves the game exactly as `Turn` says for the current player |
| `Game.GameState.HandleLanding` | src/models/Square.ts:51-330 | the live objects change exactly as `Land` says; the board is untouched |
| `Game.GameState.SettleSquare` | src/models/Square.ts:57-74 | a corner or tax landing changes the live objects exactly as `Land` says |
| `Game.GameState.DrawAndApply` | src/models/Square.ts:318-330 | a card-square landing draws from the right deck and applies the card, exactly as `Land` says |
| `Game.GameState.ChargeRentOrOffer` | src/models/Square.ts:111-146 | a buyable landing charges rent or selects the square, exactly as `LandOnBuyable` says |
| `Game.GameState.Transfer` | src/models/Square.ts:135-136 | the payer and owner change exactly as `PayRent` says |
| `Game.GameState.LandOn` | src/models/Card.ts:72-79 | landing after a card move, exactly as `LandAt` says |
| `Game.GameState.MoveByCard` | src/models/Card.ts:53-79 | credit, move and landing of a move card, exactly as `LandAt` after the move says |
| `Game.GameState.ApplyCardEffect` | src/models/Card.ts:48-321 | every card's effect on the live objects is exactly `ApplyCard` |
| `Game.GameState.ApplyToDrawer` | src/models/Card.ts:148-280 | the effects that touch only the drawer, exactly as `ApplyCard` says |
| `Game.GameState.CollectFrom` | src/models/Card.ts:300-321 | the players change exactly as `CollectFromPlayers` says |
| `Game.GameState.ChargeOthers` | src/models/Card.ts:305-313 | the loop charges every other player exactly as `Charged` says, and totals the amount times their number |
| `Game.GameState.ChargeOne` | src/models/Card.ts:309-312 | one iteration: a player other than the drawer makes the guarded payment; the drawer is skipped |

## Left out

- Toast callbacks and their messages are dropped. They only display text.
- Math.random: the shuffle's index and the dice are nondeterministic choices
  within the source's bounds. The random source itself is not modelled.
- Card landing chains: a landing reached through cards stops after 8 card
  moves (`LandingDepth`). The source has no bound. A deeper chain is not
  modelled.
- `CardDeck.drawCard` throws "No card available to draw" when the cursor is
  on an undefined card. Every deck built by the source holds 11 or 16 cards,
  so `Board.Valid` keeps both decks non-empty and the throw cannot happen.
  `DrawCard` returns `None` for an empty deck instead.
- Player ids are natural numbers equal to the seat index, as `GameState`
  assigns them. `Player.ts` types the id as a string.
- `Square.ts` calls `payMoney` and `collectMoney`. `Player.ts` does not define
  them. They are modelled as `forceRemoveMoney` (an unconditional debit) and
  `addMoney`.
- `GameState`'s constructor calls `new Board(boardSize)` and
  `new Player(0, colour, board, 1500)`. These do not match the constructors
  in `Board.ts` and `Player.ts`. As written, `new Board(11)` passes 11 as the
  board name; no case of `initializeSquares` matches it, so the constructor
  throws "Board name not recognized" (`Board.ts:197-198`). The model therefore
  takes a built board as a parameter, and gives players an empty name and
  their palette colour.
- `price / 2` is a JavaScript number. It is modelled as integer halving.
  `CatalogueMortgageIsHalfPrice` proves that every catalogue price is even,
  so nothing is lost on the shipped boards.
- Owned-property entries are mutated in place in the source. Other code that
  holds a reference to an entry, through `getOwnedProperties`, sees the
  change. The model stores entries as values in a sequence, so that aliasing
  is not modelled.
- The `houses` and `mortgaged` fields of an owned entry are optional in the
  source; a missing value reads as 0 or false. The model stores 0 and false
  explicitly.
- `Players.PlayerRecord.IsPropertyMortgaged`: states only that a mortgaged
  property is owned. Its value is read through `Owned` in `MortgageEffect`.
- `Players.PlayerRecord.PassedGo`: states one direction. The other direction,
  for a move forward, is `PassedGoAfterMove`.
- `Players.CountOfType`: states only the upper bound. How the count changes
  when an entry is appended or updated is `CountOfTypeAppend` and
  `CountOfTypeUpdate`.
- `Game.LandOnBuyable`: states only that the seating is kept. Its outcome is
  stated by `RentIsTransferred` and `UnownedSquareIsOffered`.
- `Game.CollectFromPlayers`: states only that the seating is kept. Its effect
  on money is `CollectFromPlayersMoney`.
- The rent, landing and card-effect functions (`Rent`, `Land`, `ApplyCard`,
  `LandAt`, `Turn`) define the rules. Their properties are the lemmas listed
  above.
- `Boards.Board.FindNextSquareOfType`: requires the start to be on the ring.
  The source's loop stops only on reaching the start again, and the start
  is never reached from an off-ring position. So when no square has the
  type, the source never returns for such a start.
- `Boards.GetEdgeType` has no contract of its own. `EdgeTypeByQuarter` states
  it for positions on a ring of any positive length, and `EdgeTypeBySide` for
  lengths that are multiples of 4. Positions off the ring and negative ring
  lengths are modelled but nothing is proved about them.
- `getId`: `Square.ts:123`, `186` and `243` (the owner search on landing),
  `Square.ts:62` (the jail message) and `Card.ts:309` (the birthday card)
  call `getId()` on players. `Player.ts` declares a `readonly id` field and no
  `getId` method, so as written each of those calls throws a TypeError. On
  a property, station or utility it throws before any rent or offer, and on
  the birthday card before any collection. On "Go To Jail" it throws after
  the move to 10, and the model keeps that move. The model reads the `id`
  field instead (`OwnerIndex`, `IsOther`, `ChargeOne`). So
  `RentIsTransferred`, `UnownedSquareIsOffered` and `CollectFromPlayersMoney`
  describe the evident intent, not a path the code as written completes.
- `hasMonopoly` takes a `playerId` argument that it never reads. The model
  omits that argument.
- `getStations` and `getUtilities` filter on the square itself, so they
  return every square. Nothing calls them, and they are not modelled.
- `getBuildableProperties`, the getters and the setters of every class are
  not modelled. They are plain field access.
- The `toJSON` of Player, Card and CardDeck is not modelled. Nothing in the
  rules reads it back.
- JSON fields are not checked. A variant field missing from a record is
  read as 0, the empty list or the empty string. The source would build the
  square with `undefined` in that field.
- `src/models/Game.ts` and `src/models/types.ts` are not part of this model,
  except for the `Group` names that squares carry as strings.
- Trades, the message log and `GameState` serialisation are not part of this
  model. No implementation of them exists under `src/models/`.
- Numbers are unbounded integers. JavaScript's floating point plays no part
  for the amounts the game uses.
- A ring length of 0 would make JavaScript's `%` return NaN. Every function
  and method that divides by the ring length requires it to be positive; a
  theme board has 40 squares.
