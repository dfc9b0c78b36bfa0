// The turn state of src/models/GameState.ts together with what happens when a
// token lands on a square (the `handleLanding` of each variant in
// src/models/Square.ts) and what each card does (the `applyEffect` of each
// variant in src/models/Card.ts). These all mutate players, deck cursors and
// the game state, so they live here. The rules are first stated as functions
// over a snapshot (`Table` for what a landing reads, `World` for what it
// changes), with their properties as lemmas; the `GameState` methods are
// then proved to change the objects exactly as those functions say.

module Game {
  import opened Common
  import opened Squares
  import opened Cards
  import opened Catalogue
  import opened Boards
  import opened Players

  /** The colours handed to players in joining order; their number bounds the player count. */
  const PlayerColors: seq<string> := [
    "bg-red-500", "bg-orange-500", "bg-yellow-500", "bg-green-500", "bg-blue-500",
    "bg-purple-500", "bg-pink-500", "bg-gray-500", "bg-black"
  ]

  const StartingMoney := 1500
  const JailPosition := 10
  const PassGoReward := 200

  /**
   * How many landings one move may chain (a card square whose card moves the
   * token onto another square, and so on). The bound is generous: on the UK
   * board a chance card at 36 that goes back three spaces reaches the
   * community chest at 33, whose "Advance to GO" ends the chain after two
   * card moves. That no board chains deeper is not proved here.
   */
  const LandingDepth: nat := 8

  // ---------------------------------------------------------------------------
  // Snapshots

  /** What a landing reads and never changes: the board and the contents of its decks. */
  datatype Table = Table(
    squares: seq<Square>, totalSquares: int,
    chance: seq<Card>, community: seq<Card>)

  /**
   * The game state a landing works on: the players, the two deck cursors,
   * the offered property and the dice (which a landing reads but never changes).
   */
  datatype World = World(
    players: seq<PlayerRecord>,
    chanceCursor: int, communityCursor: int,
    selectedProperty: Option<int>,
    dice: (int, int))
  {
    function DiceTotal(): int { dice.0 + dice.1 }

    /** Replace the record of one player. */
    function Put(who: nat, p: PlayerRecord): (r: World)
      requires who < |players|
      ensures |r.players| == |players| && r.players[who] == p
      ensures forall k :: 0 <= k < |players| && k != who ==> r.players[k] == players[k]
      ensures r.(players := players) == this
    {
      this.(players := players[who := p])
    }
  }

  /** Every player keeps its id. */
  predicate SameIds(a: seq<PlayerRecord>, b: seq<PlayerRecord>) {
    |a| == |b| && forall k :: 0 <= k < |a| ==> a[k].id == b[k].id
  }

  /** The money held by all players together. */
  function TotalMoney(players: seq<PlayerRecord>): int {
    if players == [] then 0 else TotalMoney(players[..|players| - 1]) + players[|players| - 1].money
  }

  /** Changing one player's balance changes the total by the same amount. */
  lemma {:induction false} TotalMoneyPut(players: seq<PlayerRecord>, k: nat, p: PlayerRecord)
    requires k < |players|
    ensures TotalMoney(players[k := p]) == TotalMoney(players) - players[k].money + p.money
    decreases |players|
  {
    var n := |players| - 1;
    if k < n {
      assert players[k := p][..n] == players[..n][k := p];
      TotalMoneyPut(players[..n], k, p);
    } else {
      assert players[k := p][..n] == players[..n];
    }
  }

  // ---------------------------------------------------------------------------
  // Landing on a square

  /**
   * The `findIndex` of the owners' search: the first player, other than the
   * one with id `payerId`, who owns the square at `position`.
   */
  function OwnerIndex(players: seq<PlayerRecord>, payerId: nat, position: int): (r: Option<nat>)
    ensures r.Some? ==> r.value < |players| && players[r.value].id != payerId && players[r.value].OwnsProperty(position)
    ensures r.Some? ==> forall j :: 0 <= j < r.value ==> !(players[j].id != payerId && players[j].OwnsProperty(position))
    ensures r.None? <==> forall j :: 0 <= j < |players| ==> !(players[j].id != payerId && players[j].OwnsProperty(position))
  {
    if players == [] then None
    else if players[0].id != payerId && players[0].OwnsProperty(position) then Some(0)
    else
      match OwnerIndex(players[1..], payerId, position)
      case None => None
      case Some(j) => Some(j + 1)
  }

  /**
   * The rent the owner of a buyable square charges: a property by its
   * improvement level, a station by how many stations the owner holds, a
   * utility by a multiplier of the dice roll.
   */
  function Rent(squares: seq<Square>, square: Square, owner: PlayerRecord, position: int, diceRoll: int): int
    requires square.IsBuyable()
  {
    match square
    case PropertySquare(_, _, _, _, _, _) =>
      var e := owner.Owned(position);
      CalculateRent(square, if e.Some? then e.value.houses else 0)
    case StationSquare(_, _, _, rent) =>
      ElementOr(rent, Min(owner.PropertyCount(squares, "station") - 1, 3), 0)
    case UtilitySquare(_, _, _, multipliers) =>
      ElementOr(multipliers, Min(owner.PropertyCount(squares, "utility") - 1, 1), 1) * diceRoll
  }

  /** The lander pays the rent unconditionally and the owner collects it. */
  function PayRent(players: seq<PlayerRecord>, payer: nat, owner: nat, amount: int): (r: seq<PlayerRecord>)
    requires payer < |players| && owner < |players| && payer != owner
    ensures SameIds(players, r)
    ensures r[payer] == players[payer].ForceRemoveMoney(amount)
    ensures r[owner] == players[owner].AddMoney(amount)
    ensures forall k :: 0 <= k < |players| && k != payer && k != owner ==> r[k] == players[k]
    ensures TotalMoney(r) == TotalMoney(players)
  {
    var debited := players[payer := players[payer].ForceRemoveMoney(amount)];
    TotalMoneyPut(players, payer, players[payer].ForceRemoveMoney(amount));
    TotalMoneyPut(debited, owner, players[owner].AddMoney(amount));
    debited[owner := players[owner].AddMoney(amount)]
  }

  /**
   * Landing on a buyable square: rent to the first other owner, or, when no
   * other player owns it, the square is offered by selecting it.
   */
  function LandOnBuyable(t: Table, w: World, who: nat, square: Square, diceRoll: int): (r: World)
    requires who < |w.players| && square.IsBuyable()
    ensures SameIds(w.players, r.players)
  {
    var p := w.players[who];
    match OwnerIndex(w.players, p.id, p.position)
    case None => w.(selectedProperty := Some(p.position))
    case Some(o) => w.(players := PayRent(w.players, who, o, Rent(t.squares, square, w.players[o], p.position, diceRoll)))
  }

  /** The two outcomes of landing on a buyable square. */
  lemma LandOnBuyableCases(t: Table, w: World, who: nat, square: Square, diceRoll: int)
    requires who < |w.players| && square.IsBuyable()
    ensures var p := w.players[who];
      var o := OwnerIndex(w.players, p.id, p.position);
      (o.None? ==> LandOnBuyable(t, w, who, square, diceRoll) == w.(selectedProperty := Some(p.position))) &&
      (o.Some? ==>
        LandOnBuyable(t, w, who, square, diceRoll) ==
          w.(players := PayRent(w.players, who, o.value, Rent(t.squares, square, w.players[o.value], p.position, diceRoll))))
  {
  }

  /**
   * `handleLanding` of the square the player with index `who` stands on.
   * The decreasing measure is the landing budget: each card that moves the
   * token spends one unit before the next landing.
   */
  function Land(t: Table, w: World, who: nat, square: Square, diceRoll: int, fuel: nat): (r: World)
    requires t.totalSquares > 0 && who < |w.players|
    decreases fuel, 2
  {
    var p := w.players[who];
    match square
    case CornerSquare(_, name, _) =>
      if name == "Go To Jail" then w.Put(who, p.SetPosition(JailPosition)) else w
    case PropertySquare(_, _, _, _, _, _) => LandOnBuyable(t, w, who, square, diceRoll)
    case StationSquare(_, _, _, _) => LandOnBuyable(t, w, who, square, diceRoll)
    case UtilitySquare(_, _, _, _) => LandOnBuyable(t, w, who, square, diceRoll)
    case TaxSquare(_, _, amount) => w.Put(who, p.ForceRemoveMoney(amount))
    case CardSquare(_, _, cardType) =>
      if cardType == "community" then
        match CardAt(t.community, w.communityCursor)
        case None => w
        case Some(card) =>
          ApplyCard(t, w.(communityCursor := NextCursor(w.communityCursor, |t.community|)), card, who, fuel)
      else
        match CardAt(t.chance, w.chanceCursor)
        case None => w
        case Some(card) =>
          ApplyCard(t, w.(chanceCursor := NextCursor(w.chanceCursor, |t.chance|)), card, who, fuel)
  }

  /** After a card moved the token to `position`: land on the square there, if the board has one. */
  function LandAt(t: Table, w: World, who: nat, position: int, fuel: nat): (r: World)
    requires t.totalSquares > 0 && who < |w.players|
    decreases fuel, 0
  {
    if fuel == 0 then w
    else
      match GetSquareFromIndex(t.squares, position)
      case None => w
      case Some(square) => Land(t, w, who, square, w.DiceTotal(), fuel - 1)
  }

  /** With budget left and a square at `position`, `LandAt` is the landing on that square. */
  lemma LandAtSquare(t: Table, w: World, who: nat, position: int, fuel: nat, r: World)
    requires t.totalSquares > 0 && who < |w.players| && fuel > 0
    requires GetSquareFromIndex(t.squares, position).Some?
    requires r == Land(t, w, who, GetSquareFromIndex(t.squares, position).value, w.DiceTotal(), fuel - 1)
    ensures r == LandAt(t, w, who, position, fuel)
  {
  }

  /** `MoveRelativeCard`: the JavaScript remainder of the move, shifted up into range when negative. */
  function RelativeDestination(position: int, spaces: int, totalSquares: int): (r: int)
    requires totalSquares > 0
    ensures 0 <= r < totalSquares
  {
    var q := JsRem(position + spaces, totalSquares);
    if q < 0 then q + totalSquares else q
  }

  /** Houses on entries with 1 to 4 of them, and hotels. */
  function HouseCount(props: seq<OwnedProperty>): int {
    if props == [] then 0
    else
      var e := props[|props| - 1];
      HouseCount(props[..|props| - 1]) + (if e.houses != 0 && e.houses < 5 then e.houses else 0)
  }

  function HotelCount(props: seq<OwnedProperty>): nat {
    if props == [] then 0
    else HotelCount(props[..|props| - 1]) + (if props[|props| - 1].houses == 5 then 1 else 0)
  }

  /**
   * What `PayPerBuildingCard` charges for one owned entry: the house rate for
   * each of its houses, or the hotel rate for its hotel.
   */
  function BuildingCharge(e: OwnedProperty, perHouse: int, perHotel: int): (r: int)
    ensures r == HouseCount([e]) * perHouse + HotelCount([e]) * perHotel
  {
    assert [e][..0] == [];
    if e.houses != 0 && e.houses < 5 then e.houses * perHouse
    else if e.houses == 5 then perHotel
    else 0
  }

  /**
   * The total `PayPerBuildingCard` charges, accumulated in list order: the
   * house rate times the houses plus the hotel rate times the hotels.
   */
  function BuildingCost(props: seq<OwnedProperty>, perHouse: int, perHotel: int): (r: int)
    ensures r == HouseCount(props) * perHouse + HotelCount(props) * perHotel
    decreases |props|
  {
    if props == [] then 0
    else
      var init, e := props[..|props| - 1], props[|props| - 1];
      var h := if e.houses != 0 && e.houses < 5 then e.houses else 0;
      var k := if e.houses == 5 then 1 else 0;
      assert [e][..0] == [];
      assert (HouseCount(init) + h) * perHouse == HouseCount(init) * perHouse + h * perHouse;
      assert (HotelCount(init) + k) * perHotel == HotelCount(init) * perHotel + k * perHotel;
      BuildingCost(init, perHouse, perHotel) + BuildingCharge(e, perHouse, perHotel)
  }

  /** With houses kept in 0..5 and non-negative rates, the charge is never negative. */
  lemma {:induction false} BuildingCostNonNegative(props: seq<OwnedProperty>, perHouse: int, perHotel: int)
    requires HousesInRange(props) && perHouse >= 0 && perHotel >= 0
    ensures BuildingCost(props, perHouse, perHotel) >= 0
    decreases |props|
  {
    if props != [] {
      assert HousesInRange(props[..|props| - 1]);
      BuildingCostNonNegative(props[..|props| - 1], perHouse, perHotel);
    }
  }

  /** Whether the `CollectFromPlayersCard` loop charges this player (every player whose id differs from the drawer's). */
  predicate IsOther(p: PlayerRecord, drawerId: nat) {
    p.id != drawerId
  }

  /** The players after each other player's guarded debit of `amount`. */
  function Charged(players: seq<PlayerRecord>, drawerId: nat, amount: int): (r: seq<PlayerRecord>)
    ensures SameIds(players, r)
    ensures forall k :: 0 <= k < |players| ==>
      r[k] == if IsOther(players[k], drawerId) then players[k].RemoveMoney(amount).0 else players[k]
  {
    seq(|players|, k requires 0 <= k < |players| =>
      if IsOther(players[k], drawerId) then players[k].RemoveMoney(amount).0 else players[k])
  }

  /** The players after the debits of the first `n` of them. */
  function ChargedBelow(players: seq<PlayerRecord>, drawerId: nat, amount: int, n: nat): (r: seq<PlayerRecord>)
    requires n <= |players|
    ensures n == |players| ==> r == Charged(players, drawerId, amount)
  {
    seq(|players|, k requires 0 <= k < |players| =>
      if k < n && IsOther(players[k], drawerId) then players[k].RemoveMoney(amount).0 else players[k])
  }

  /** How many players the loop charges. */
  function OthersCount(players: seq<PlayerRecord>, drawerId: nat): nat {
    if players == [] then 0
    else OthersCount(players[..|players| - 1], drawerId) + (if IsOther(players[|players| - 1], drawerId) then 1 else 0)
  }

  /** What the loop adds up: `amount` for each charged player, in seat order. */
  function Collected(players: seq<PlayerRecord>, drawerId: nat, amount: int): int {
    if players == [] then 0
    else Collected(players[..|players| - 1], drawerId, amount) + (if IsOther(players[|players| - 1], drawerId) then amount else 0)
  }

  /** The running total is `amount` times the number of players charged. */
  lemma {:induction false} CollectedIsProduct(players: seq<PlayerRecord>, drawerId: nat, amount: int)
    ensures Collected(players, drawerId, amount) == amount * OthersCount(players, drawerId)
    decreases |players|
  {
    if players != [] {
      var n := |players| - 1;
      CollectedIsProduct(players[..n], drawerId, amount);
      var o := if IsOther(players[n], drawerId) then 1 else 0;
      assert amount * (OthersCount(players[..n], drawerId) + o) == amount * OthersCount(players[..n], drawerId) + amount * o;
    }
  }

  /** How many of the charged players could not pay. */
  function ShortCount(players: seq<PlayerRecord>, drawerId: nat, amount: int): nat {
    if players == [] then 0
    else
      var p := players[|players| - 1];
      ShortCount(players[..|players| - 1], drawerId, amount) + (if IsOther(p, drawerId) && p.money < amount then 1 else 0)
  }

  /** `CollectFromPlayersCard`: every other player is charged, and the drawer is credited for each of them. */
  function CollectFromPlayers(players: seq<PlayerRecord>, who: nat, amount: int): (r: seq<PlayerRecord>)
    requires who < |players|
    ensures SameIds(players, r)
  {
    var charged := Charged(players, players[who].id, amount);
    charged[who := charged[who].AddMoney(amount * OthersCount(players, players[who].id))]
  }

  /** `applyEffect` of each card, for the player with index `who`. */
  function ApplyCard(t: Table, w: World, card: Card, who: nat, fuel: nat): (r: World)
    requires t.totalSquares > 0 && who < |w.players|
    decreases fuel, 1
  {
    var p := w.players[who];
    match card
    case MoveCard(_, _, destination, collectPassGo) =>
      var paid := if collectPassGo && destination < p.position then p.AddMoney(PassGoReward) else p;
      LandAt(t, w.Put(who, paid.SetPosition(destination)), who, destination, fuel)
    case MoveRelativeCard(_, _, spaces) =>
      var destination := RelativeDestination(p.position, spaces, t.totalSquares);
      LandAt(t, w.Put(who, p.SetPosition(destination)), who, destination, fuel)
    case CollectCard(_, _, amount) => w.Put(who, p.AddMoney(amount))
    case PayCard(_, _, amount) => w.Put(who, p.RemoveMoney(amount).0)
    case JailCard(_, _) => w.Put(who, p.SetPosition(JailPosition))
    case GetOutOfJailCard(_, _) => w.Put(who, p.AddPardon())
    case PayPerBuildingCard(_, _, perHouse, perHotel) =>
      w.Put(who, p.RemoveMoney(BuildingCost(p.ownedProperties, perHouse, perHotel)).0)
    case CollectFromPlayersCard(_, _, amount) =>
      w.(players := CollectFromPlayers(w.players, who, amount))
  }

  /**
   * `movePlayer` after the dice are rolled: the current player steps forward
   * by the dice total, then lands on the square at the new position, if the
   * board has one.
   */
  function Turn(t: Table, w: World, who: nat, fuel: nat): (r: World)
    requires t.totalSquares > 0 && who < |w.players|
  {
    var moved := w.Put(who, w.players[who].MoveForward(w.DiceTotal(), t.totalSquares));
    match GetSquareFromIndex(t.squares, moved.players[who].position)
    case None => moved
    case Some(square) => Land(t, moved, who, square, w.DiceTotal(), fuel)
  }

  /** `Turn` unfolded once: the step forward, then the landing when the board has a square there. */
  lemma TurnSteps(t: Table, w: World, who: nat, fuel: nat, moved: World, r: World)
    requires t.totalSquares > 0 && who < |w.players|
    requires moved == w.Put(who, w.players[who].MoveForward(w.DiceTotal(), t.totalSquares))
    requires var sq := GetSquareFromIndex(t.squares, moved.players[who].position);
      r == if sq.None? then moved else Land(t, moved, who, sq.value, w.DiceTotal(), fuel)
    ensures r == Turn(t, w, who, fuel)
  {
  }

  /** `endTurn`: the turn passes to the next player, wrapping round to the first. */
  function NextTurn(index: int, playerCount: int): (r: int)
    requires 0 <= index < playerCount
    ensures 0 <= r < playerCount
    ensures r == if index + 1 < playerCount then index + 1 else 0
  {
    NextOnRing(index, playerCount);
    (index + 1) % playerCount
  }

  /** The current player after `k` turns end. */
  function TurnsAfter(index: int, k: nat, playerCount: int): (r: int)
    requires 0 <= index < playerCount
    ensures 0 <= r < playerCount
  {
    if k == 0 then index else NextTurn(TurnsAfter(index, k - 1, playerCount), playerCount)
  }

  // ---------------------------------------------------------------------------
  // Properties of landings, cards and turns

  /**
   * Landing on a buyable square that another player owns moves exactly the
   * rent from the lander to the first such owner: no money is created or lost.
   */
  lemma RentIsTransferred(t: Table, w: World, who: nat, square: Square, diceRoll: int, fuel: nat)
    requires t.totalSquares > 0 && who < |w.players| && square.IsBuyable()
    requires OwnerIndex(w.players, w.players[who].id, w.players[who].position).Some?
    ensures var r := Land(t, w, who, square, diceRoll, fuel);
      var p := w.players[who];
      var o := OwnerIndex(w.players, p.id, p.position).value;
      var rent := Rent(t.squares, square, w.players[o], p.position, diceRoll);
      r.players[who].money == p.money - rent &&
      r.players[o].money == w.players[o].money + rent &&
      TotalMoney(r.players) == TotalMoney(w.players) &&
      r.selectedProperty == w.selectedProperty
  {
  }

  /**
   * When no other player owns the buyable square (it is free, or the lander
   * owns it), landing only selects it; nothing else changes.
   */
  lemma UnownedSquareIsOffered(t: Table, w: World, who: nat, square: Square, diceRoll: int, fuel: nat)
    requires t.totalSquares > 0 && who < |w.players| && square.IsBuyable()
    requires forall j :: 0 <= j < |w.players| && j != who && w.players[j].id != w.players[who].id ==>
      !w.players[j].OwnsProperty(w.players[who].position)
    ensures Land(t, w, who, square, diceRoll, fuel) == w.(selectedProperty := Some(w.players[who].position))
  {
  }

  /**
   * A property charges the rent-table entry for its owner's house count (the
   * base rent when the owner's entry records no houses), and nothing when the
   * table has no such entry.
   */
  lemma PropertyRent(squares: seq<Square>, square: Square, owner: PlayerRecord, position: int, diceRoll: int)
    requires square.PropertySquare?
    ensures var e := owner.Owned(position);
      var houses := if e.Some? then e.value.houses else 0;
      var r := Rent(squares, square, owner, position, diceRoll);
      (0 <= houses < |square.rent| ==> r == square.rent[houses]) &&
      (!(0 <= houses < |square.rent|) ==> r == 0)
  {
  }

  /**
   * A station charges the entry for the number of stations its owner holds,
   * capped at the fourth entry, and nothing when the entry is missing.
   */
  lemma StationRent(squares: seq<Square>, square: Square, owner: PlayerRecord, position: int, diceRoll: int)
    requires square.StationSquare?
    ensures var n := owner.PropertyCount(squares, "station");
      var r := Rent(squares, square, owner, position, diceRoll);
      (1 <= n <= 4 && n <= |square.rent| ==> r == square.rent[n - 1]) &&
      (n >= 4 && |square.rent| >= 4 ==> r == square.rent[3]) &&
      (n == 0 ==> r == 0)
  {
  }

  /**
   * A utility charges the dice roll times the multiplier for one utility or
   * for two or more, and the bare dice roll when the multiplier is missing.
   */
  lemma UtilityRent(squares: seq<Square>, square: Square, owner: PlayerRecord, position: int, diceRoll: int)
    requires square.UtilitySquare?
    ensures var n := owner.PropertyCount(squares, "utility");
      var r := Rent(squares, square, owner, position, diceRoll);
      (n == 1 && |square.multipliers| >= 1 ==> r == square.multipliers[0] * diceRoll) &&
      (n >= 2 && |square.multipliers| >= 2 ==> r == square.multipliers[1] * diceRoll) &&
      (n == 0 ==> r == diceRoll)
  {
  }

  /** The rent does not look at the mortgage flag: a mortgaged property charges full rent. */
  lemma MortgageDoesNotWaiveRent(squares: seq<Square>, square: Square, owner: PlayerRecord, position: int, diceRoll: int)
    requires square.IsBuyable() && square.id == position && owner.Mortgage(square).1
    ensures Rent(squares, square, owner.Mortgage(square).0, position, diceRoll) ==
      Rent(squares, square, owner, position, diceRoll)
    ensures owner.Mortgage(square).0.IsPropertyMortgaged(position) != owner.IsPropertyMortgaged(position)
  {
    MortgageEffect(owner, square);
    var m := owner.Mortgage(square).0;
    var i := FindOwned(owner.ownedProperties, square.id).value;
    var e := owner.ownedProperties[i].(mortgaged := !owner.ownedProperties[i].mortgaged);
    assert m.ownedProperties == owner.ownedProperties[i := e];
    CountOfTypeUpdate(squares, owner.ownedProperties, i, e, "station");
    CountOfTypeUpdate(squares, owner.ownedProperties, i, e, "utility");
  }

  /** Replacing an entry by one with the same id keeps every count by type. */
  lemma {:induction false} CountOfTypeUpdate(squares: seq<Square>, props: seq<OwnedProperty>, i: int, e: OwnedProperty, tag: string)
    requires 0 <= i < |props| && e.id == props[i].id
    ensures CountOfType(squares, props[i := e], tag) == CountOfType(squares, props, tag)
    decreases |props|
  {
    if i > 0 {
      assert props[i := e][1..] == props[1..][i - 1 := e];
      CountOfTypeUpdate(squares, props[1..], i - 1, e, tag);
    } else {
      assert props[i := e][1..] == props[1..];
    }
  }

  /**
   * Only a corner named exactly "Go To Jail" does anything: it sends the
   * lander to square 10. The `action` field is never consulted.
   */
  lemma CornerLanding(t: Table, w: World, who: nat, id: int, name: string, action: Option<string>, diceRoll: int, fuel: nat)
    requires t.totalSquares > 0 && who < |w.players|
    ensures var r := Land(t, w, who, CornerSquare(id, name, action), diceRoll, fuel);
      (name == "Go To Jail" ==>
        (r.players[who].position == JailPosition &&
         r.players[who].previousPosition == Some(w.players[who].position) &&
         r.players[who].money == w.players[who].money)) &&
      (name != "Go To Jail" ==> r == w)
  {
  }

  /** On the "bry" board the go-to-jail corner is named "Go To Detention", so landing there does nothing. */
  lemma DetentionCornerIsInert(t: Table, w: World, who: nat, diceRoll: int, fuel: nat)
    requires t.totalSquares > 0 && who < |w.players|
    ensures BrySquares()[3].CornerSquare? && BrySquares()[3].id == 30
    ensures BrySquares()[3].action == Some("jail")
    ensures Land(t, w, who, BrySquares()[3], diceRoll, fuel) == w
  {
    CornerLanding(t, w, who, 30, "Go To Detention", Some("jail"), diceRoll, fuel);
  }

  /** A tax square takes exactly its amount, whatever the lander's balance. */
  lemma TaxIsAlwaysCharged(t: Table, w: World, who: nat, id: int, name: string, amount: int, diceRoll: int, fuel: nat)
    requires t.totalSquares > 0 && who < |w.players|
    ensures var r := Land(t, w, who, TaxSquare(id, name, amount), diceRoll, fuel);
      r.players[who].money == w.players[who].money - amount &&
      TotalMoney(r.players) == TotalMoney(w.players) - amount
  {
    TotalMoneyPut(w.players, who, w.players[who].ForceRemoveMoney(amount));
  }

  /**
   * A card square deals the next card of the community deck exactly when its
   * card type is "community", and of the chance deck otherwise.
   */
  lemma CardSquareDrawsFromItsDeck(t: Table, w: World, who: nat, id: int, name: string, cardType: string, fuel: nat)
    requires t.totalSquares > 0 && who < |w.players|
    requires 0 <= w.chanceCursor < |t.chance| && 0 <= w.communityCursor < |t.community|
    ensures var r := Land(t, w, who, CardSquare(id, name, cardType), 0, fuel);
      cardType == "community" ==>
        r == ApplyCard(t, w.(communityCursor := (w.communityCursor + 1) % |t.community|), t.community[w.communityCursor], who, fuel)
    ensures var r := Land(t, w, who, CardSquare(id, name, cardType), 0, fuel);
      cardType != "community" ==>
        r == ApplyCard(t, w.(chanceCursor := (w.chanceCursor + 1) % |t.chance|), t.chance[w.chanceCursor], who, fuel)
  {
  }

  /**
   * `MoveCard`: 200 is credited exactly when the card collects on passing Go
   * and the destination lies behind the token; the token then stands on the
   * destination and lands there.
   */
  lemma MoveCardEffect(t: Table, w: World, card: Card, who: nat, fuel: nat)
    requires t.totalSquares > 0 && who < |w.players| && card.MoveCard?
    ensures var p := w.players[who];
      var credit := if card.collectPassGo && card.destinationPosition < p.position then PassGoReward else 0;
      var moved := p.(money := p.money + credit, position := card.destinationPosition, previousPosition := Some(p.position));
      ApplyCard(t, w, card, who, fuel) == LandAt(t, w.Put(who, moved), who, card.destinationPosition, fuel)
  {
  }

  /**
   * The cards that act on the drawer alone: `CollectCard` credits its amount,
   * `PayCard` takes its amount only when the drawer can pay it, `JailCard`
   * puts the token on square 10 and `GetOutOfJailCard` adds exactly one
   * pardon. No other player and no other field changes.
   */
  lemma DrawerCardEffects(t: Table, w: World, card: Card, who: nat, fuel: nat)
    requires t.totalSquares > 0 && who < |w.players|
    requires card.CollectCard? || card.PayCard? || card.JailCard? || card.GetOutOfJailCard?
    ensures var p := w.players[who]; var r := ApplyCard(t, w, card, who, fuel);
      |r.players| == |w.players| &&
      (forall k :: 0 <= k < |w.players| && k != who ==> r.players[k] == w.players[k]) &&
      r.chanceCursor == w.chanceCursor && r.communityCursor == w.communityCursor &&
      r.selectedProperty == w.selectedProperty
    ensures var p := w.players[who]; var q := ApplyCard(t, w, card, who, fuel).players[who];
      (card.CollectCard? ==> q == p.(money := p.money + card.amount)) &&
      (card.PayCard? && p.money >= card.amount ==> q == p.(money := p.money - card.amount)) &&
      (card.PayCard? && p.money < card.amount ==> q == p) &&
      (card.JailCard? ==> q == p.(position := JailPosition, previousPosition := Some(p.position))) &&
      (card.GetOutOfJailCard? ==> q == p.(pardons := p.pardons + 1))
  {
  }

  /**
   * `MoveRelativeCard` puts the token on its destination, recording where it
   * stood, and lands there.
   */
  lemma MoveRelativeCardEffect(t: Table, w: World, card: Card, who: nat, fuel: nat)
    requires t.totalSquares > 0 && who < |w.players| && card.MoveRelativeCard?
    ensures var p := w.players[who];
      var destination := (p.position + card.spaces) % t.totalSquares;
      ApplyCard(t, w, card, who, fuel) ==
        LandAt(t, w.Put(who, p.(position := destination, previousPosition := Some(p.position))), who, destination, fuel)
  {
    RelativeDestinationIsModulo(w.players[who].position, card.spaces, t.totalSquares);
  }

  /** `MoveRelativeCard` always lands in range: its destination is the move reduced modulo the ring. */
  lemma RelativeDestinationIsModulo(position: int, spaces: int, totalSquares: int)
    requires totalSquares > 0
    ensures RelativeDestination(position, spaces, totalSquares) == (position + spaces) % totalSquares
    ensures 0 <= RelativeDestination(position, spaces, totalSquares) < totalSquares
  {
    JsRemWrapped(position + spaces, totalSquares);
  }

  /**
   * `PayPerBuildingCard` charges the house rate per house and the hotel rate
   * per hotel, and only when the drawer can pay all of it; otherwise nothing
   * is taken.
   */
  lemma PayPerBuildingEffect(t: Table, w: World, card: Card, who: nat, fuel: nat)
    requires t.totalSquares > 0 && who < |w.players| && card.PayPerBuildingCard?
    ensures var p := w.players[who];
      var cost := HouseCount(p.ownedProperties) * card.perHouse + HotelCount(p.ownedProperties) * card.perHotel;
      var r := ApplyCard(t, w, card, who, fuel);
      r.players[who].money == (if p.money >= cost then p.money - cost else p.money) &&
      r.players[who].ownedProperties == p.ownedProperties &&
      forall k :: 0 <= k < |w.players| && k != who ==> r.players[k] == w.players[k]
  {
  }

  /** Charging the others removes `amount` from each of them who could pay. */
  lemma {:induction false} ChargedTotal(players: seq<PlayerRecord>, drawerId: nat, amount: int)
    ensures TotalMoney(Charged(players, drawerId, amount)) ==
      TotalMoney(players) - amount * OthersCount(players, drawerId) + amount * ShortCount(players, drawerId, amount)
    decreases |players|
  {
    if players != [] {
      var n := |players| - 1;
      var c := Charged(players, drawerId, amount);
      var p := players[n];
      assert c[..n] == Charged(players[..n], drawerId, amount);
      assert TotalMoney(c) == TotalMoney(c[..n]) + c[n].money;
      ChargedTotal(players[..n], drawerId, amount);
      var o := if IsOther(p, drawerId) then 1 else 0;
      var sh := if IsOther(p, drawerId) && p.money < amount then 1 else 0;
      assert c[n].money == p.money - amount * o + amount * sh;
      var others := OthersCount(players[..n], drawerId);
      var short := ShortCount(players[..n], drawerId, amount);
      assert amount * (others + o) == amount * others + amount * o;
      assert amount * (short + sh) == amount * short + amount * sh;
    }
  }

  /**
   * `CollectFromPlayersCard` credits the drawer for every other player, even
   * those too poor to pay: the players' total money grows by `amount` for
   * each of them, so it is conserved only when every other player can pay.
   */
  lemma CollectFromPlayersMoney(players: seq<PlayerRecord>, who: nat, amount: int)
    requires who < |players|
    ensures var id := players[who].id;
      TotalMoney(CollectFromPlayers(players, who, amount)) ==
        TotalMoney(players) + amount * ShortCount(players, id, amount)
    ensures CollectFromPlayers(players, who, amount)[who].money ==
      players[who].money + amount * OthersCount(players, players[who].id)
  {
    var id := players[who].id;
    var charged := Charged(players, id, amount);
    ChargedTotal(players, id, amount);
    TotalMoneyPut(charged, who, charged[who].AddMoney(amount * OthersCount(players, id)));
  }

  /** `k` ended turns move the turn `k` places round the table. */
  lemma {:induction false} TurnsAfterIsModulo(index: int, k: nat, playerCount: int)
    requires 0 <= index < playerCount
    ensures TurnsAfter(index, k, playerCount) == (index + k) % playerCount
  {
    if k == 0 {
      ModUnique(index, playerCount, 0, index);
    } else {
      TurnsAfterIsModulo(index, k - 1, playerCount);
      ModAddOne(index + k - 1, playerCount);
    }
  }

  /** Within one round of `playerCount` ended turns, every player gets the turn, and the round ends where it began. */
  lemma EveryPlayerGetsATurn(index: int, playerCount: int, j: int)
    requires 0 <= index < playerCount && 0 <= j < playerCount
    ensures exists k :: 0 <= k < playerCount && TurnsAfter(index, k, playerCount) == j
    ensures TurnsAfter(index, playerCount, playerCount) == index
  {
    var k := if j >= index then j - index else j - index + playerCount;
    TurnsAfterIsModulo(index, k, playerCount);
    if j >= index {
      ModUnique(index + k, playerCount, 0, j);
    } else {
      ModUnique(index + k, playerCount, 1, j);
    }
    TurnsAfterIsModulo(index, playerCount, playerCount);
    ModUnique(index + playerCount, playerCount, 1, index);
  }

  /**
   * `movePlayer` moves the token first and credits nothing for passing Go:
   * the balance the landing starts from is the balance before the move.
   */
  lemma TurnMovesThenLands(t: Table, w: World, who: nat, fuel: nat)
    requires t.totalSquares > 0 && who < |w.players|
    requires 0 <= w.players[who].position && w.DiceTotal() >= 0
    ensures var p := w.players[who];
      var position := (p.position + w.DiceTotal()) % t.totalSquares;
      var moved := w.Put(who, p.(position := position, previousPosition := Some(p.position)));
      0 <= position < t.totalSquares &&
      Turn(t, w, who, fuel) ==
        match GetSquareFromIndex(t.squares, position)
        case None => moved
        case Some(square) => Land(t, moved, who, square, w.DiceTotal(), fuel)
  {
  }

  /**
   * However deep the chain of cards goes, a landing keeps the seating:
   * the same number of players, each with the id it had.
   */
  lemma {:induction false} LandKeepsIds(t: Table, w: World, who: nat, square: Square, diceRoll: int, fuel: nat)
    requires t.totalSquares > 0 && who < |w.players|
    ensures SameIds(w.players, Land(t, w, who, square, diceRoll, fuel).players)
    decreases fuel, 2
  {
    match square
    case CardSquare(_, _, cardType) =>
      if cardType == "community" {
        match CardAt(t.community, w.communityCursor)
        case None =>
        case Some(card) =>
          ApplyCardKeepsIds(t, w.(communityCursor := NextCursor(w.communityCursor, |t.community|)), card, who, fuel);
      } else {
        match CardAt(t.chance, w.chanceCursor)
        case None =>
        case Some(card) =>
          ApplyCardKeepsIds(t, w.(chanceCursor := NextCursor(w.chanceCursor, |t.chance|)), card, who, fuel);
      }
    case _ =>
  }

  /** The card half of `LandKeepsIds`. */
  lemma {:induction false} ApplyCardKeepsIds(t: Table, w: World, card: Card, who: nat, fuel: nat)
    requires t.totalSquares > 0 && who < |w.players|
    ensures SameIds(w.players, ApplyCard(t, w, card, who, fuel).players)
    decreases fuel, 1
  {
    var p := w.players[who];
    match card
    case MoveCard(_, _, destination, collectPassGo) =>
      var paid := if collectPassGo && destination < p.position then p.AddMoney(PassGoReward) else p;
      var moved := w.Put(who, paid.SetPosition(destination));
      LandAtKeepsIds(t, moved, who, destination, fuel);
    case MoveRelativeCard(_, _, spaces) =>
      var destination := RelativeDestination(p.position, spaces, t.totalSquares);
      var moved := w.Put(who, p.SetPosition(destination));
      LandAtKeepsIds(t, moved, who, destination, fuel);
    case _ =>
  }

  /** The `LandAt` half of `LandKeepsIds`. */
  lemma {:induction false} LandAtKeepsIds(t: Table, w: World, who: nat, position: int, fuel: nat)
    requires t.totalSquares > 0 && who < |w.players|
    ensures SameIds(w.players, LandAt(t, w, who, position, fuel).players)
    decreases fuel, 0
  {
    if fuel > 0 {
      match GetSquareFromIndex(t.squares, position)
      case None =>
      case Some(square) => LandKeepsIds(t, w, who, square, w.DiceTotal(), fuel - 1);
    }
  }

  /** A whole turn keeps the seating too. */
  lemma TurnKeepsIds(t: Table, w: World, who: nat, fuel: nat)
    requires t.totalSquares > 0 && who < |w.players|
    ensures SameIds(w.players, Turn(t, w, who, fuel).players)
  {
    var moved := w.Put(who, w.players[who].MoveForward(w.DiceTotal(), t.totalSquares));
    match GetSquareFromIndex(t.squares, moved.players[who].position)
    case None =>
    case Some(square) => LandKeepsIds(t, moved, who, square, w.DiceTotal(), fuel);
  }

  // ---------------------------------------------------------------------------
  // The game state object

  /** The `PayPerBuildingCard` loop: add up the charge for every owned property. */
  method TotalBuildingCost(props: seq<OwnedProperty>, perHouse: int, perHotel: int) returns (totalCost: int)
    ensures totalCost == BuildingCost(props, perHouse, perHotel)
  {
    totalCost := 0;
    var i := 0;
    while i < |props|
      invariant 0 <= i <= |props|
      invariant totalCost == BuildingCost(props[..i], perHouse, perHotel)
    {
      assert props[..i + 1][..i] == props[..i];
      var houses := props[i].houses;
      if houses != 0 && houses < 5 {
        totalCost := totalCost + houses * perHouse;
      } else if houses == 5 {
        totalCost := totalCost + perHotel;
      }
      i := i + 1;
    }
    assert props[..|props|] == props;
  }

  /** The states of the given players as values. */
  function RecordsOf(ps: seq<Player>): (r: seq<PlayerRecord>)
    reads ps
    ensures |r| == |ps| && forall k :: 0 <= k < |ps| ==> r[k] == ps[k].Rec()
  {
    seq(|ps|, k reads ps requires 0 <= k < |ps| => ps[k].Rec())
  }

  class GameState {
    var players: seq<Player>
    var currentPlayerIndex: int
    var dice: (int, int)
    var gameLocked: bool
    var selectedProperty: Option<int>
    const board: Board

    /**
     * Between one and nine players, each holding its index as id and sharing
     * the game's board; the turn points at one of them; the board is a ring
     * of at least one square with two valid decks.
     */
    ghost predicate Valid()
      reads this`players, this`currentPlayerIndex, board, board.chanceDeck, board.communityChestDeck
    {
      1 <= |players| <= |PlayerColors| &&
      0 <= currentPlayerIndex < |players| &&
      (forall k :: 0 <= k < |players| ==> players[k].id == k && players[k].board == board) &&
      board.totalSquares > 0 && board.Valid()
    }

    /** The players' states as values, in turn order. */
    function Records(): (r: seq<PlayerRecord>)
      reads this`players, players
      ensures |r| == |players| && forall k :: 0 <= k < |players| ==> r[k] == players[k].Rec()
    {
      RecordsOf(players)
    }

    /** What a landing reads. */
    ghost function TableNow(): Table
      reads board, board.chanceDeck.cards, board.communityChestDeck.cards
    {
      Table(board.squares, board.totalSquares, board.chanceDeck.cards[..], board.communityChestDeck.cards[..])
    }

    /** What a landing may change. */
    ghost function WorldNow(): World
      reads this, players, board, board.chanceDeck, board.communityChestDeck
    {
      World.World(Records(), board.chanceDeck.currentIndex, board.communityChestDeck.currentIndex, selectedProperty, dice)
    }

    /**
     * A game on the given board with one player (id 0, the first colour,
     * 1500 in cash), dice showing 1 and 1, unlocked and nothing selected.
     */
    constructor (board: Board)
      requires board.Valid() && board.totalSquares > 0
      ensures Valid() && this.board == board
      ensures Records() == [PlayerRecord(0, "", PlayerColors[0], 0, None, StartingMoney, [], 0)]
      ensures currentPlayerIndex == 0 && dice == (1, 1) && !gameLocked && selectedProperty == None
    {
      var first := new Player(0, "", PlayerColors[0], board, StartingMoney);
      players := [first];
      currentPlayerIndex := 0;
      dice := (1, 1);
      gameLocked := false;
      selectedProperty := None;
      this.board := board;
    }

    /** `getCurrentPlayer`: the player whose turn it is, or the error the game code throws. */
    method GetCurrentPlayer() returns (r: Result<Player>)
      ensures r.Ok? <==> 0 <= currentPlayerIndex < |players|
      ensures r.Ok? ==> r.value == players[currentPlayerIndex]
      ensures r.Err? ==> r.message == "Current player is undefined"
    {
      if 0 <= currentPlayerIndex < |players| {
        return Ok(players[currentPlayerIndex]);
      }
      return Err("Current player is undefined");
    }

    /** `addPlayer`: while a colour is free, seat a new player with the next id and that colour. */
    method AddPlayer()
      requires Valid()
      modifies this`players
      ensures Valid()
      ensures var n := old(|players|);
        n < |PlayerColors| ==>
          Records() == old(Records()) + [PlayerRecord(n, "", PlayerColors[n], 0, None, StartingMoney, [], 0)]
      ensures old(|players|) == |PlayerColors| ==> Records() == old(Records())
    {
      if |players| < |PlayerColors| {
        var newPlayerId := |players|;
        var newPlayer := new Player(newPlayerId, "", PlayerColors[newPlayerId], board, StartingMoney);
        players := players + [newPlayer];
      }
    }

    /** `rollDice`: two values from 1 to 6, chosen freely. */
    method RollDice() returns (rolled: (int, int))
      modifies this`dice
      ensures 1 <= rolled.0 <= 6 && 1 <= rolled.1 <= 6
      ensures dice == rolled
    {
      var dice1 :| 1 <= dice1 <= 6;
      var dice2 :| 1 <= dice2 <= 6;
      dice := (dice1, dice2);
      return (dice1, dice2);
    }

    /** `endTurn`: pass the turn on round the table and unlock the game. */
    method EndTurn()
      requires Valid()
      modifies this`currentPlayerIndex, this`gameLocked
      ensures Valid() && !gameLocked
      ensures currentPlayerIndex == NextTurn(old(currentPlayerIndex), |players|)
    {
      currentPlayerIndex := (currentPlayerIndex + 1) % |players|;
      gameLocked := false;
    }

    /**
     * `buyHouse`: the id must name a property square, or the game code
     * throws; otherwise the current player tries to buy a house on it.
     */
    method BuyHouse(propertyId: int) returns (r: Result<bool>)
      requires Valid()
      modifies players[currentPlayerIndex]
      ensures Valid()
      ensures var square := GetSquareFromIndex(board.squares, propertyId);
        r.Ok? <==> square.Some? && square.value.PropertySquare?
      ensures r.Err? ==> r.message == "Invalid property square" && Records() == old(Records())
      ensures r.Ok? ==>
        var square := GetSquareFromIndex(board.squares, propertyId).value;
        var (bought, ok) := old(Records())[currentPlayerIndex].BuyHouse(square);
        r.value == ok && Records() == old(Records())[currentPlayerIndex := bought]
    {
      var currentPlayer := players[currentPlayerIndex];
      var square := GetSquareFromIndex(board.squares, propertyId);
      if square.None? || !square.value.PropertySquare? {
        return Err("Invalid property square");
      }
      var ok := currentPlayer.BuyHouse(square.value);
      return Ok(ok);
    }

    /**
     * `movePlayer`: lock the game, roll, step the current player forward by
     * the dice total and land on the square there.
     */
    method MovePlayer()
      requires Valid()
      modifies this`gameLocked, this`dice, this`selectedProperty, players
      modifies board.chanceDeck`currentIndex, board.communityChestDeck`currentIndex
      ensures Valid() && gameLocked
      ensures 1 <= dice.0 <= 6 && 1 <= dice.1 <= 6
      ensures WorldNow() == Turn(TableNow(), old(WorldNow()).(dice := dice), currentPlayerIndex, LandingDepth)
    {
      gameLocked := true;
      var rolled := RollDice();
      ghost var T, W := TableNow(), WorldNow();
      assert T == old(TableNow()) && W == old(WorldNow()).(dice := dice);
      var total := rolled.0 + rolled.1;
      var who := currentPlayerIndex;
      var currentPlayer := players[who];
      forall k | 0 <= k < |players| && k != who
        ensures players[k] != currentPlayer
      {
        assert players[k].id == k;
      }
      currentPlayer.MoveForward(total);
      ghost var moved := W.Put(who, W.players[who].MoveForward(W.DiceTotal(), T.totalSquares));
      assert WorldNow() == moved;
      var newSquare := GetSquareFromIndex(board.squares, currentPlayer.position);
      assert newSquare == GetSquareFromIndex(T.squares, moved.players[who].position);
      if newSquare.Some? {
        assert TableNow() == T && total == W.DiceTotal();
        HandleLanding(who, newSquare.value, total, LandingDepth);
        assert WorldNow() == Land(T, moved, who, newSquare.value, W.DiceTotal(), LandingDepth);
      }
      TurnSteps(T, W, who, LandingDepth, moved, WorldNow());
      assert TableNow() == T;
    }

    /** `handleLanding` of a square, for the player with index `who`. */
    method HandleLanding(who: nat, square: Square, diceRoll: int, fuel: nat)
      requires Valid() && who < |players|
      modifies players, this`selectedProperty, board.chanceDeck`currentIndex, board.communityChestDeck`currentIndex
      ensures Valid() && TableNow() == old(TableNow())
      ensures WorldNow() == Land(old(TableNow()), old(WorldNow()), who, square, diceRoll, fuel)
      decreases fuel, 4
    {
      match square
      case CornerSquare(_, _, _) => SettleSquare(who, square, diceRoll, fuel);
      case PropertySquare(_, _, _, _, _, _) => ChargeRentOrOffer(who, square, diceRoll);
      case StationSquare(_, _, _, _) => ChargeRentOrOffer(who, square, diceRoll);
      case UtilitySquare(_, _, _, _) => ChargeRentOrOffer(who, square, diceRoll);
      case TaxSquare(_, _, _) => SettleSquare(who, square, diceRoll, fuel);
      case CardSquare(_, _, _) => DrawAndApply(who, square, diceRoll, fuel);
    }

    /** The corner and tax landings, which touch only the lander. */
    method SettleSquare(who: nat, square: Square, diceRoll: int, fuel: nat)
      requires Valid() && who < |players| && (square.CornerSquare? || square.TaxSquare?)
      modifies players[who]
      ensures WorldNow() == Land(old(TableNow()), old(WorldNow()), who, square, diceRoll, fuel)
    {
      ghost var W := WorldNow();
      var player := players[who];
      forall k | 0 <= k < |players| && k != who
        ensures players[k] != player
      {
        assert players[k].id == k;
      }
      if square.CornerSquare? {
        if square.name == "Go To Jail" {
          player.SetPosition(JailPosition);
          assert Records() == W.players[who := W.players[who].SetPosition(JailPosition)];
        }
      } else {
        player.ForceRemoveMoney(square.amount);
        assert Records() == W.players[who := W.players[who].ForceRemoveMoney(square.amount)];
      }
    }

    /** The card squares' landing: deal from the square's deck and apply the card. */
    method DrawAndApply(who: nat, square: Square, diceRoll: int, fuel: nat)
      requires Valid() && who < |players| && square.CardSquare?
      modifies players, this`selectedProperty, board.chanceDeck`currentIndex, board.communityChestDeck`currentIndex
      ensures Valid() && TableNow() == old(TableNow())
      ensures WorldNow() == Land(old(TableNow()), old(WorldNow()), who, square, diceRoll, fuel)
      decreases fuel, 3
    {
      var card;
      if square.cardType == "community" {
        card := board.DrawCommunityChestCard();
      } else {
        card := board.DrawChanceCard();
      }
      ApplyCardEffect(card.value, who, fuel);
    }

    /** The buyable squares' landing: pay the first other owner, or offer the square. */
    method ChargeRentOrOffer(who: nat, square: Square, diceRoll: int)
      requires Valid() && who < |players| && square.IsBuyable()
      modifies players, this`selectedProperty
      ensures Valid() && TableNow() == old(TableNow())
      ensures WorldNow() == LandOnBuyable(old(TableNow()), old(WorldNow()), who, square, diceRoll)
    {
      ghost var T, W := TableNow(), WorldNow();
      var player := players[who];
      var position := player.position;
      var ownerIndex := OwnerIndex(Records(), player.id, position);
      if ownerIndex.None? {
        selectedProperty := Some(position);
      } else {
        var o := ownerIndex.value;
        var rentAmount := Rent(board.squares, square, players[o].Rec(), position, diceRoll);
        Transfer(who, o, rentAmount);
      }
      assert unchanged(board, board.chanceDeck, board.communityChestDeck);
      LandOnBuyableCases(T, W, who, square, diceRoll);
    }

    /** The lander's `payMoney` and the owner's `collectMoney`: an unconditional debit and a credit. */
    method Transfer(payer: nat, payee: nat, amount: int)
      requires Valid() && payer < |players| && payee < |players| && payer != payee
      modifies players[payer], players[payee]
      ensures Records() == PayRent(old(Records()), payer, payee, amount)
    {
      players[payer].ForceRemoveMoney(amount);
      players[payee].AddMoney(amount);
    }

    /** After a card moved the token: land on the square at `position`, if there is one. */
    method LandOn(who: nat, position: int, fuel: nat)
      requires Valid() && who < |players|
      modifies players, this`selectedProperty, board.chanceDeck`currentIndex, board.communityChestDeck`currentIndex
      ensures Valid() && TableNow() == old(TableNow())
      ensures WorldNow() == LandAt(old(TableNow()), old(WorldNow()), who, position, fuel)
      decreases fuel, 0
    {
      if fuel == 0 {
        return;
      }
      var square := GetSquareFromIndex(board.squares, position);
      if square.Some? {
        ghost var T, W := TableNow(), WorldNow();
        var diceRoll := dice.0 + dice.1;
        assert GetSquareFromIndex(T.squares, position) == square && W.DiceTotal() == diceRoll;
        HandleLanding(who, square.value, diceRoll, fuel - 1);
        LandAtSquare(T, W, who, position, fuel, WorldNow());
      }
    }

    /** A moving card's effect: the pass-Go reward if one is due, the jump to `destination`, then the landing there. */
    method MoveByCard(who: nat, destination: int, reward: bool, fuel: nat)
      requires Valid() && who < |players|
      modifies players, this`selectedProperty, board.chanceDeck`currentIndex, board.communityChestDeck`currentIndex
      ensures Valid() && TableNow() == old(TableNow())
      ensures var p := old(Records())[who];
        var paid := if reward then p.AddMoney(PassGoReward) else p;
        WorldNow() == LandAt(old(TableNow()), old(WorldNow()).Put(who, paid.SetPosition(destination)), who, destination, fuel)
      decreases fuel, 1
    {
      ghost var T, W := TableNow(), WorldNow();
      var player := players[who];
      ghost var paid := if reward then W.players[who].AddMoney(PassGoReward) else W.players[who];
      forall k | 0 <= k < |players| && k != who
        ensures players[k] != player
      {
        assert players[k].id == k;
      }
      if reward {
        player.AddMoney(PassGoReward);
      }
      player.SetPosition(destination);
      assert Records() == W.players[who := paid.SetPosition(destination)];
      assert WorldNow() == W.Put(who, paid.SetPosition(destination));
      LandOn(who, destination, fuel);
    }

    /** `applyEffect` of a card, for the player with index `who`. */
    method ApplyCardEffect(card: Card, who: nat, fuel: nat)
      requires Valid() && who < |players|
      modifies players, this`selectedProperty, board.chanceDeck`currentIndex, board.communityChestDeck`currentIndex
      ensures Valid() && TableNow() == old(TableNow())
      ensures WorldNow() == ApplyCard(old(TableNow()), old(WorldNow()), card, who, fuel)
      decreases fuel, 2
    {
      ghost var T, W := TableNow(), WorldNow();
      var player := players[who];
      assert player.position == W.players[who].position;
      match card
      case MoveCard(_, _, destinationPosition, collectPassGo) =>
        MoveByCard(who, destinationPosition, collectPassGo && destinationPosition < player.position, fuel);
      case MoveRelativeCard(_, _, spaces) =>
        var newPosition := JsRem(player.position + spaces, board.totalSquares);
        if newPosition < 0 {
          newPosition := newPosition + board.totalSquares;
        }
        assert newPosition == RelativeDestination(W.players[who].position, spaces, T.totalSquares);
        MoveByCard(who, newPosition, false, fuel);
      case CollectFromPlayersCard(_, _, amount) => CollectFrom(who, amount);
      case _ => ApplyToDrawer(card, who, fuel);
    }

    /** The cards that touch only the drawer: collect, pay, jail, pardon and repairs. */
    method ApplyToDrawer(card: Card, who: nat, fuel: nat)
      requires Valid() && who < |players|
      requires !card.MoveCard? && !card.MoveRelativeCard? && !card.CollectFromPlayersCard?
      modifies players[who]
      ensures WorldNow() == ApplyCard(old(TableNow()), old(WorldNow()), card, who, fuel)
    {
      ghost var W := WorldNow();
      var player := players[who];
      forall k | 0 <= k < |players| && k != who
        ensures players[k] != player
      {
        assert players[k].id == k;
      }
      ghost var p := W.players[who];
      match card
      case CollectCard(_, _, amount) =>
        player.AddMoney(amount);
        assert Records() == W.players[who := p.AddMoney(amount)];
      case PayCard(_, _, amount) =>
        var _ := player.RemoveMoney(amount);
        assert Records() == W.players[who := p.RemoveMoney(amount).0];
      case JailCard(_, _) =>
        player.SetPosition(JailPosition);
        assert Records() == W.players[who := p.SetPosition(JailPosition)];
      case GetOutOfJailCard(_, _) =>
        player.AddPardon();
        assert Records() == W.players[who := p.AddPardon()];
      case PayPerBuildingCard(_, _, perHouse, perHotel) =>
        var totalCost := TotalBuildingCost(player.ownedProperties, perHouse, perHotel);
        var _ := player.RemoveMoney(totalCost);
        assert Records() == W.players[who := p.RemoveMoney(BuildingCost(p.ownedProperties, perHouse, perHotel)).0];
    }

    /** `CollectFromPlayersCard`: charge every other player, then credit the drawer for each. */
    method CollectFrom(who: nat, amount: int)
      requires Valid() && who < |players|
      modifies players
      ensures Valid()
      ensures Records() == CollectFromPlayers(old(Records()), who, amount)
    {
      ghost var before := Records();
      var drawer := players[who];
      var totalCollected := ChargeOthers(drawer.id, amount);
      ghost var charged := Charged(before, drawer.id, amount);
      forall k | 0 <= k < |players| && k != who
        ensures players[k] != drawer
      {
        assert players[k].id == k;
      }
      drawer.AddMoney(totalCollected);
      assert Records() == charged[who := charged[who].AddMoney(amount * OthersCount(before, drawer.id))];
    }

    /** The loop of `CollectFromPlayersCard`: every player but the drawer is charged; returns what the drawer is owed. */
    method ChargeOthers(drawerId: nat, amount: int) returns (totalCollected: int)
      requires Valid()
      modifies players
      ensures Valid()
      ensures Records() == Charged(old(Records()), drawerId, amount)
      ensures totalCollected == amount * OthersCount(old(Records()), drawerId)
    {
      ghost var before := Records();
      totalCollected := 0;
      var i := 0;
      while i < |players|
        invariant 0 <= i <= |players| && Valid()
        invariant Records() == ChargedBelow(before, drawerId, amount, i)
        invariant totalCollected == Collected(before[..i], drawerId, amount)
      {
        assert before[..i + 1][..i] == before[..i];
        var charged := ChargeOne(i, drawerId, amount);
        if charged {
          totalCollected := totalCollected + amount;
        }
        assert Records() == ChargedBelow(before, drawerId, amount, i + 1);
        i := i + 1;
      }
      assert before[..|players|] == before;
      assert Records() == Charged(before, drawerId, amount);
      CollectedIsProduct(before, drawerId, amount);
    }

    /** One step of that loop: the player at `i` pays `amount` unless it is the drawer. */
    method ChargeOne(i: nat, drawerId: nat, amount: int) returns (charged: bool)
      requires Valid() && i < |players|
      modifies players[i]
      ensures Valid()
      ensures var p := old(Records())[i];
        charged == IsOther(p, drawerId) &&
        Records() == old(Records())[i := if charged then p.RemoveMoney(amount).0 else p]
    {
      var otherPlayer := players[i];
      forall k | 0 <= k < |players| && k != i
        ensures players[k] != otherPlayer
      {
        assert players[k].id == k;
      }
      charged := otherPlayer.id != drawerId;
      if charged {
        var _ := otherPlayer.RemoveMoney(amount);
      }
    }
  }
}
