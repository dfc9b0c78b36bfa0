// The player ledger of src/models/Player.ts. `PlayerRecord` is a player's
// state as a value, with the rules of every ledger operation as functions on
// it (guarded and forced debits, purchases, houses, mortgages, pardons,
// movement); `Player` is the object the game mutates, whose methods are proved
// to move its state exactly as those functions say.

module Players {
  import opened Common
  import opened Squares
  import opened Boards

  /**
   * One entry of `ownedProperties`: the square id, its houses (5 stands for
   * a hotel) and the mortgage flag. A missing `houses` or `mortgaged` reads
   * as 0 or false everywhere the game code uses it.
   */
  datatype OwnedProperty = OwnedProperty(id: int, houses: int, mortgaged: bool)

  /** `ownedProperties.find(p => p.id === id)`, as the index of the first entry for the id. */
  function FindOwned(props: seq<OwnedProperty>, id: int): (r: Option<nat>)
    ensures r.Some? ==> r.value < |props| && props[r.value].id == id
    ensures r.Some? ==> forall j :: 0 <= j < r.value ==> props[j].id != id
    ensures r.None? <==> forall j :: 0 <= j < |props| ==> props[j].id != id
  {
    if props == [] then None
    else if props[0].id == id then Some(0)
    else
      match FindOwned(props[1..], id)
      case None => None
      case Some(i) => Some(i + 1)
  }

  /** Replacing an entry by one with the same id leaves every lookup pointing where it did. */
  lemma {:induction false} FindOwnedAfterUpdate(props: seq<OwnedProperty>, i: int, e: OwnedProperty, q: int)
    requires 0 <= i < |props| && e.id == props[i].id
    ensures FindOwned(props[i := e], q) == FindOwned(props, q)
    decreases |props|
  {
    if props[0].id != q && i > 0 {
      assert props[i := e][1..] == props[1..][i - 1 := e];
      FindOwnedAfterUpdate(props[1..], i - 1, e, q);
    }
  }

  /** The ids of the owned entries, in order. */
  function OwnedIds(props: seq<OwnedProperty>): (r: seq<int>)
    ensures |r| == |props| && forall k :: 0 <= k < |props| ==> r[k] == props[k].id
  {
    seq(|props|, k requires 0 <= k < |props| => props[k].id)
  }

  /** No entry has fewer than 0 or more than 5 houses. */
  predicate HousesInRange(props: seq<OwnedProperty>) {
    forall k :: 0 <= k < |props| ==> 0 <= props[k].houses <= 5
  }

  /** How many owned entries name a square of the given type. */
  function CountOfType(squares: seq<Square>, props: seq<OwnedProperty>, tag: string): (r: nat)
    ensures r <= |props|
  {
    if props == [] then 0
    else
      var sq := GetSquareFromIndex(squares, props[0].id);
      (if sq.Some? && sq.value.Tag() == tag then 1 else 0) + CountOfType(squares, props[1..], tag)
  }

  /** A new entry adds one to the count of its square's type and leaves other types alone. */
  lemma {:induction false} CountOfTypeAppend(squares: seq<Square>, props: seq<OwnedProperty>, e: OwnedProperty, tag: string)
    ensures var sq := GetSquareFromIndex(squares, e.id);
      CountOfType(squares, props + [e], tag) ==
        CountOfType(squares, props, tag) + (if sq.Some? && sq.value.Tag() == tag then 1 else 0)
    decreases |props|
  {
    if props != [] {
      assert (props + [e])[1..] == props[1..] + [e];
      CountOfTypeAppend(squares, props[1..], e, tag);
    }
  }

  /** A player's state as a value. `id` is the player's index in the game. */
  datatype PlayerRecord = PlayerRecord(
    id: nat, name: string, colour: string,
    position: int, previousPosition: Option<int>,
    money: int, ownedProperties: seq<OwnedProperty>, pardons: int)
  {
    /** The entry the game code finds for a square id. */
    function Owned(propertyId: int): (r: Option<OwnedProperty>)
      ensures r.Some? ==> r.value.id == propertyId && r.value in ownedProperties
      ensures r.None? <==> forall k :: 0 <= k < |ownedProperties| ==> ownedProperties[k].id != propertyId
    {
      match FindOwned(ownedProperties, propertyId)
      case None => None
      case Some(i) => Some(ownedProperties[i])
    }

    /** `ownsProperty`: some entry has this id. */
    function OwnsProperty(propertyId: int): (r: bool)
      ensures r <==> exists k :: 0 <= k < |ownedProperties| && ownedProperties[k].id == propertyId
    {
      Owned(propertyId).Some?
    }

    /** `isPropertyMortgaged`: the entry for the id exists and is flagged. */
    function IsPropertyMortgaged(propertyId: int): (r: bool)
      ensures r ==> OwnsProperty(propertyId)
    {
      var e := Owned(propertyId);
      e.Some? && e.value.mortgaged
    }

    /** `getPropertyCount`: how many owned ids name a square of the given type. */
    function PropertyCount(squares: seq<Square>, tag: string): (r: nat)
      ensures r <= |ownedProperties|
    {
      CountOfType(squares, ownedProperties, tag)
    }

    /**
     * `ownsPropertyGroup`: no property of the group is missing from the
     * owned ids, which is `hasMonopoly` on those ids.
     */
    function OwnsPropertyGroup(squares: seq<Square>, group: Group): (r: bool)
      ensures r <==> HasMonopoly(squares, group, OwnedIds(ownedProperties))
      ensures r <==> forall k :: 0 <= k < |squares| && squares[k].PropertySquare? && squares[k].group == group ==>
        OwnsProperty(squares[k].id)
    {
      var props := GetPropertiesByGroup(squares, group);
      assert forall k :: 0 <= k < |squares| && squares[k].PropertySquare? && squares[k].group == group ==>
        squares[k] in props;
      assert forall id :: id in OwnedIds(ownedProperties) <==> OwnsProperty(id);
      !(exists sq :: sq in props && !OwnsProperty(sq.id))
    }

    /**
     * `passedGo`: the last move went from a higher position to a lower one,
     * and not to jail (position 10). False before the first move.
     */
    function PassedGo(): (r: bool)
      ensures r ==> previousPosition.Some? && position < previousPosition.value
      ensures r ==> position != 10
    {
      match previousPosition
      case None => false
      case Some(previous) => previous > position && position != 10
    }

    /** `setPosition`: remember where the player was and put them at `p`. */
    function SetPosition(p: int): (r: PlayerRecord)
      ensures r.position == p && r.previousPosition == Some(position)
      ensures r.(position := position, previousPosition := previousPosition) == this
    {
      this.(previousPosition := Some(position), position := p)
    }

    /** `moveForward`: step round the ring of `totalSquares` squares. */
    function MoveForward(steps: int, totalSquares: int): (r: PlayerRecord)
      requires totalSquares > 0
      ensures r.previousPosition == Some(position)
      ensures position + steps >= 0 ==> r.position == (position + steps) % totalSquares
      ensures position + steps >= 0 ==> 0 <= r.position < totalSquares
      ensures r.(position := position, previousPosition := previousPosition) == this
    {
      SetPosition(GetPositionAfterMove(totalSquares, position, steps))
    }

    /** `addMoney`. */
    function AddMoney(amount: int): (r: PlayerRecord)
      ensures r.money == money + amount && r.(money := money) == this
    {
      this.(money := money + amount)
    }

    /** `removeMoney`: debit only when the balance covers the amount. */
    function RemoveMoney(amount: int): (r: (PlayerRecord, bool))
      ensures r.1 <==> money >= amount
      ensures r.1 ==> r.0.money == money - amount && r.0.money >= 0 && r.0.(money := money) == this
      ensures !r.1 ==> r.0 == this
    {
      if money >= amount then (this.(money := money - amount), true) else (this, false)
    }

    /** `forceRemoveMoney`: debit whatever the balance, possibly below zero. */
    function ForceRemoveMoney(amount: int): (r: PlayerRecord)
      ensures r.money == money - amount && r.(money := money) == this
    {
      this.(money := money - amount)
    }

    /** `addProperty`: append an entry with no houses and no mortgage. */
    function AddProperty(propertyId: int): (r: PlayerRecord)
      ensures r.ownedProperties == ownedProperties + [OwnedProperty(propertyId, 0, false)]
      ensures r.OwnsProperty(propertyId)
      ensures HousesInRange(ownedProperties) ==> HousesInRange(r.ownedProperties)
      ensures r.(ownedProperties := ownedProperties) == this
    {
      var r := this.(ownedProperties := ownedProperties + [OwnedProperty(propertyId, 0, false)]);
      assert r.ownedProperties[|ownedProperties|].id == propertyId;
      r
    }

    /** `buyProperty`: pay the price and take the square, only if the balance covers it. */
    function BuyProperty(square: Square): (r: (PlayerRecord, bool))
      requires square.IsBuyable()
      ensures r.1 <==> money >= square.price
      ensures r.1 ==> r.0.money == money - square.price && r.0.money >= 0
      ensures r.1 ==> r.0.ownedProperties == ownedProperties + [OwnedProperty(square.id, 0, false)] && r.0.OwnsProperty(square.id)
      ensures r.1 ==> r.0.(money := money, ownedProperties := ownedProperties) == this
      ensures !r.1 ==> r.0 == this
    {
      if money >= square.price then (this.(money := money - square.price).AddProperty(square.id), true)
      else (this, false)
    }

    /**
     * `buyHouse`: fails, changing nothing, unless the property is owned, the
     * balance covers the house cost and the property has fewer than 5 houses;
     * otherwise pays the house cost and adds one house to that entry.
     */
    function BuyHouse(property: Square): (r: (PlayerRecord, bool))
      requires property.PropertySquare?
      ensures var e := Owned(property.id);
        r.1 <==> e.Some? && money >= property.houseCost && e.value.houses < 5
      ensures r.1 ==> r.0.money == money - property.houseCost && r.0.money >= 0
      ensures r.1 ==> var e := Owned(property.id).value; r.0.Owned(property.id) == Some(e.(houses := e.houses + 1))
      ensures r.1 ==> forall q :: q != property.id ==> r.0.Owned(q) == Owned(q)
      ensures r.1 ==> |r.0.ownedProperties| == |ownedProperties|
      ensures r.1 ==> var i := FindOwned(ownedProperties, property.id).value;
        r.0.ownedProperties == ownedProperties[i := ownedProperties[i].(houses := ownedProperties[i].houses + 1)]
      ensures r.1 ==> r.0.(money := money, ownedProperties := ownedProperties) == this
      ensures !r.1 ==> r.0 == this
    {
      match FindOwned(ownedProperties, property.id)
      case None => (this, false)
      case Some(i) =>
        if money < property.houseCost then (this, false)
        else if ownedProperties[i].houses >= 5 then (this, false)
        else
          var e := ownedProperties[i].(houses := ownedProperties[i].houses + 1);
          var r := this.(money := money - property.houseCost, ownedProperties := ownedProperties[i := e]);
          assert forall q :: FindOwned(r.ownedProperties, q) == FindOwned(ownedProperties, q) by {
            forall q {
              FindOwnedAfterUpdate(ownedProperties, i, e, q);
            }
          }
          (r, true)
    }

    /**
     * `mortgage`: on an owned, unmortgaged property, credit half the price and
     * set the flag; on a mortgaged one, pay half the price back and clear the
     * flag, only if the balance covers it. An unowned property changes nothing.
     */
    function Mortgage(square: Square): (r: (PlayerRecord, bool))
      requires square.IsBuyable()
      ensures var e := Owned(square.id);
        r.1 <==> e.Some? && (e.value.mortgaged ==> money >= square.price / 2)
      ensures r.1 ==> var i := FindOwned(ownedProperties, square.id).value;
        r.0.ownedProperties == ownedProperties[i := ownedProperties[i].(mortgaged := !ownedProperties[i].mortgaged)]
      ensures r.1 ==> r.0.(money := money, ownedProperties := ownedProperties) == this
      ensures !r.1 ==> r.0 == this
    {
      match FindOwned(ownedProperties, square.id)
      case None => (this, false)
      case Some(i) =>
        var mortgageValue := square.price / 2;
        if ownedProperties[i].mortgaged && money < mortgageValue then (this, false)
        else
          var e := ownedProperties[i].(mortgaged := !ownedProperties[i].mortgaged);
          var m := if ownedProperties[i].mortgaged then money - mortgageValue else money + mortgageValue;
          (this.(money := m, ownedProperties := ownedProperties[i := e]), true)
    }

    /** `addPardon`: one more get-out-of-jail card. */
    function AddPardon(): (r: PlayerRecord)
      ensures r.pardons == pardons + 1 && r.(pardons := pardons) == this
    {
      this.(pardons := pardons + 1)
    }

    /** `usePardon`: spend a pardon if there is one; the count never goes below zero. */
    function UsePardon(): (r: (PlayerRecord, bool))
      ensures r.1 <==> pardons > 0
      ensures r.1 ==> r.0.pardons == pardons - 1 && r.0.pardons >= 0 && r.0.(pardons := pardons) == this
      ensures !r.1 ==> r.0 == this
    {
      if pardons > 0 then (this.(pardons := pardons - 1), true) else (this, false)
    }
  }

  // ---------------------------------------------------------------------------
  // Properties of the ledger rules

  /** Buying a house keeps every entry between 0 and 5 houses. */
  lemma BuyHouseKeepsHousesInRange(p: PlayerRecord, property: Square)
    requires property.PropertySquare? && HousesInRange(p.ownedProperties)
    ensures HousesInRange(p.BuyHouse(property).0.ownedProperties)
  {
    var r := p.BuyHouse(property);
    if r.1 {
      var i := FindOwned(p.ownedProperties, property.id).value;
      assert r.0.ownedProperties == p.ownedProperties[i := p.ownedProperties[i].(houses := p.ownedProperties[i].houses + 1)];
    }
  }

  /**
   * What `mortgage` does: it succeeds exactly on an owned square that is
   * unmortgaged or can be redeemed from the balance; it then credits or
   * debits half the price and flips that square's flag, and leaves every
   * other entry alone. A refused call changes nothing.
   */
  lemma MortgageEffect(p: PlayerRecord, square: Square)
    requires square.IsBuyable()
    ensures var (r, ok) := p.Mortgage(square); var e := p.Owned(square.id);
      ok <==> e.Some? && (e.value.mortgaged ==> p.money >= square.price / 2)
    ensures var (r, ok) := p.Mortgage(square);
      ok && !p.IsPropertyMortgaged(square.id) ==>
        r.money == p.money + square.price / 2 && r.IsPropertyMortgaged(square.id)
    ensures var (r, ok) := p.Mortgage(square);
      ok && p.IsPropertyMortgaged(square.id) ==>
        r.money == p.money - square.price / 2 && !r.IsPropertyMortgaged(square.id)
    ensures var (r, ok) := p.Mortgage(square);
      ok ==> var e := p.Owned(square.id).value;
        r.Owned(square.id) == Some(e.(mortgaged := !e.mortgaged)) &&
        (forall q :: q != square.id ==> r.Owned(q) == p.Owned(q)) &&
        |r.ownedProperties| == |p.ownedProperties|
    ensures var (r, ok) := p.Mortgage(square);
      ok ==> r.(money := p.money, ownedProperties := p.ownedProperties) == p
    ensures var (r, ok) := p.Mortgage(square); !ok ==> r == p
  {
    var (r, ok) := p.Mortgage(square);
    if ok {
      var i := FindOwned(p.ownedProperties, square.id).value;
      var e := p.ownedProperties[i].(mortgaged := !p.ownedProperties[i].mortgaged);
      assert r.ownedProperties == p.ownedProperties[i := e];
      forall q {
        FindOwnedAfterUpdate(p.ownedProperties, i, e, q);
      }
    }
  }

  /** Mortgaging or redeeming never changes a house count. */
  lemma MortgageKeepsHousesInRange(p: PlayerRecord, square: Square)
    requires square.IsBuyable() && HousesInRange(p.ownedProperties)
    ensures HousesInRange(p.Mortgage(square).0.ownedProperties)
  {
    var r := p.Mortgage(square);
    if r.1 {
      var i := FindOwned(p.ownedProperties, square.id).value;
      assert r.0.ownedProperties == p.ownedProperties[i := p.ownedProperties[i].(mortgaged := !p.ownedProperties[i].mortgaged)];
    }
  }

  /**
   * Mortgaging and then redeeming (or redeeming and then mortgaging) the same
   * square gives back the original money and flag; when the first call
   * mortgages a property of a solvent player, the second always succeeds.
   */
  lemma MortgageTwiceRestores(p: PlayerRecord, square: Square)
    requires square.IsBuyable()
    ensures var (q, ok1) := p.Mortgage(square); var (s, ok2) := q.Mortgage(square);
      ok1 && ok2 ==> s == p
    ensures var (q, ok1) := p.Mortgage(square);
      ok1 && !p.IsPropertyMortgaged(square.id) && p.money >= 0 ==> q.Mortgage(square).1
  {
    var (q, ok1) := p.Mortgage(square);
    if ok1 {
      var i := FindOwned(p.ownedProperties, square.id).value;
      var e := p.ownedProperties[i].(mortgaged := !p.ownedProperties[i].mortgaged);
      assert q.ownedProperties == p.ownedProperties[i := e];
      FindOwnedAfterUpdate(p.ownedProperties, i, e, square.id);
      assert FindOwned(q.ownedProperties, square.id) == Some(i);
      var (s, ok2) := q.Mortgage(square);
      if ok2 {
        assert s.ownedProperties == p.ownedProperties[i := e][i := p.ownedProperties[i]];
        assert s.money == p.money;
      }
    }
  }

  /**
   * After a forward move of fewer steps than the ring has squares, `passedGo`
   * holds exactly when the move wrapped past square 0 and did not end on
   * square 10.
   */
  lemma PassedGoAfterMove(p: PlayerRecord, steps: int, totalSquares: int)
    requires totalSquares > 0 && 0 <= p.position < totalSquares && 0 < steps < totalSquares
    ensures var q := p.MoveForward(steps, totalSquares);
      q.PassedGo() <==> p.position + steps >= totalSquares && q.position != 10
  {
    var q := p.MoveForward(steps, totalSquares);
    if p.position + steps < totalSquares {
      ModUnique(p.position + steps, totalSquares, 0, p.position + steps);
    } else {
      ModUnique(p.position + steps, totalSquares, 1, p.position + steps - totalSquares);
    }
  }

  /** Buying a square adds one to the owner's count of that square's type. */
  lemma BuyPropertyCounts(p: PlayerRecord, squares: seq<Square>, square: Square, tag: string)
    requires square.IsBuyable() && p.BuyProperty(square).1
    ensures var sq := GetSquareFromIndex(squares, square.id);
      p.BuyProperty(square).0.PropertyCount(squares, tag) ==
        p.PropertyCount(squares, tag) + (if sq.Some? && sq.value.Tag() == tag then 1 else 0)
  {
    CountOfTypeAppend(squares, p.ownedProperties, OwnedProperty(square.id, 0, false), tag);
  }

  /**
   * `buyHouse` never asks whether the buyer owns the whole colour group: an
   * owner of one street whose group has another, unowned street still gets a
   * house.
   */
  lemma HouseWithoutMonopoly(p: PlayerRecord, squares: seq<Square>, street: Square, other: Square)
    requires street.PropertySquare? && other.PropertySquare? && other.group == street.group && other in squares
    requires p.OwnsProperty(street.id) && !p.OwnsProperty(other.id)
    requires p.money >= street.houseCost && p.Owned(street.id).value.houses < 5
    ensures p.BuyHouse(street).1 && !p.OwnsPropertyGroup(squares, street.group)
  {
    var k :| 0 <= k < |squares| && squares[k] == other;
    assert !p.OwnsProperty(squares[k].id);
  }

  /** The same on the two brown streets of the UK board: a house on Old Kent Road alone. */
  lemma OldKentRoadHouseWithoutWhitechapel()
    ensures var oldKent := PropertySquare(1, "Old Kent Road", 60, [2, 10, 30, 90, 160, 250], 50, "brown");
      var whitechapel := PropertySquare(3, "Whitechapel Road", 60, [4, 20, 60, 180, 320, 450], 50, "brown");
      var p := PlayerRecord(0, "", "", 1, None, 1500, [OwnedProperty(1, 0, false)], 0);
      p.BuyHouse(oldKent).1 && !p.OwnsPropertyGroup([oldKent, whitechapel], "brown")
  {
    var oldKent := PropertySquare(1, "Old Kent Road", 60, [2, 10, 30, 90, 160, 250], 50, "brown");
    var whitechapel := PropertySquare(3, "Whitechapel Road", 60, [4, 20, 60, 180, 320, 450], 50, "brown");
    var p := PlayerRecord(0, "", "", 1, None, 1500, [OwnedProperty(1, 0, false)], 0);
    HouseWithoutMonopoly(p, [oldKent, whitechapel], oldKent, whitechapel);
  }

  // ---------------------------------------------------------------------------
  // The player object

  class Player {
    const id: nat
    const name: string
    var position: int
    var previousPosition: Option<int>
    var colour: string
    var money: int
    var ownedProperties: seq<OwnedProperty>
    var pardons: int
    const board: Board

    /** The player's state as a value. */
    function Rec(): PlayerRecord
      reads this
    {
      PlayerRecord(id, name, colour, position, previousPosition, money, ownedProperties, pardons)
    }

    /**
     * A player on square 0 with the given balance, no properties and no pardons.
     * The source defaults `initialMoney` to 1500; every caller in the model passes it.
     */
    constructor (id: nat, name: string, colour: string, board: Board, initialMoney: int)
      ensures Rec() == PlayerRecord(id, name, colour, 0, None, initialMoney, [], 0)
      ensures this.board == board
    {
      this.id := id;
      this.name := name;
      this.position := 0;
      this.previousPosition := None;
      this.colour := colour;
      this.money := initialMoney;
      this.ownedProperties := [];
      this.pardons := 0;
      this.board := board;
    }

    method SetPosition(p: int)
      modifies this
      ensures Rec() == old(Rec()).SetPosition(p)
    {
      previousPosition := Some(position);
      position := p;
    }

    method MoveForward(steps: int)
      requires board.totalSquares > 0
      modifies this
      ensures Rec() == old(Rec()).MoveForward(steps, board.totalSquares)
    {
      previousPosition := Some(position);
      position := GetPositionAfterMove(board.totalSquares, position, steps);
    }

    method AddMoney(amount: int)
      modifies this
      ensures Rec() == old(Rec()).AddMoney(amount)
    {
      money := money + amount;
    }

    method RemoveMoney(amount: int) returns (ok: bool)
      modifies this
      ensures (Rec(), ok) == old(Rec()).RemoveMoney(amount)
    {
      if money >= amount {
        money := money - amount;
        return true;
      }
      return false;
    }

    method ForceRemoveMoney(amount: int)
      modifies this
      ensures Rec() == old(Rec()).ForceRemoveMoney(amount)
    {
      money := money - amount;
    }

    method AddProperty(propertyId: int)
      modifies this
      ensures Rec() == old(Rec()).AddProperty(propertyId)
    {
      ownedProperties := ownedProperties + [OwnedProperty(propertyId, 0, false)];
    }

    method BuyProperty(square: Square) returns (ok: bool)
      requires square.IsBuyable()
      modifies this
      ensures (Rec(), ok) == old(Rec()).BuyProperty(square)
    {
      if money >= square.price {
        money := money - square.price;
        AddProperty(square.id);
        return true;
      }
      return false;
    }

    method BuyHouse(property: Square) returns (ok: bool)
      requires property.PropertySquare?
      modifies this
      ensures (Rec(), ok) == old(Rec()).BuyHouse(property)
    {
      var found := FindOwned(ownedProperties, property.id);
      if found.None? {
        return false;
      }
      var i := found.value;
      if money < property.houseCost {
        return false;
      }
      if ownedProperties[i].houses >= 5 {
        return false;
      }
      money := money - property.houseCost;
      ownedProperties := ownedProperties[i := ownedProperties[i].(houses := ownedProperties[i].houses + 1)];
      return true;
    }

    method Mortgage(square: Square) returns (ok: bool)
      requires square.IsBuyable()
      modifies this
      ensures (Rec(), ok) == old(Rec()).Mortgage(square)
    {
      var found := FindOwned(ownedProperties, square.id);
      if found.None? {
        return false;
      }
      var i := found.value;
      var mortgageValue := square.price / 2;
      if ownedProperties[i].mortgaged && money < mortgageValue {
        return false;
      }
      money := if ownedProperties[i].mortgaged then money - mortgageValue else money + mortgageValue;
      ownedProperties := ownedProperties[i := ownedProperties[i].(mortgaged := !ownedProperties[i].mortgaged)];
      return true;
    }

    method AddPardon()
      modifies this
      ensures Rec() == old(Rec()).AddPardon()
    {
      pardons := pardons + 1;
    }

    method UsePardon() returns (ok: bool)
      modifies this
      ensures (Rec(), ok) == old(Rec()).UsePardon()
    {
      if pardons > 0 {
        pardons := pardons - 1;
        return true;
      }
      return false;
    }
  }
}
