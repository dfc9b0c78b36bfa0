// The square variants of the board (src/models/Square.ts): their data, rent
// tables and the JSON records the board is serialised to. What happens when a
// token lands on a square changes players and decks, so it lives in module
// Game next to the game state it mutates.

module Squares {
  import opened Common

  /** A colour-set tag of a property square ("brown", "light-blue", ...). */
  type Group = string

  /** The closed set of square variants, each with only its own fields. */
  datatype Square =
    | CornerSquare(id: int, name: string, action: Option<string>)
    | PropertySquare(id: int, name: string, price: int, rent: seq<int>, houseCost: int, group: Group)
    | StationSquare(id: int, name: string, price: int, rent: seq<int>)
    | UtilitySquare(id: int, name: string, price: int, multipliers: seq<int>)
    | TaxSquare(id: int, name: string, amount: int)
    | CardSquare(id: int, name: string, cardType: string)
  {
    /** The `type` discriminator the square carries. */
    function Tag(): string {
      match this
      case CornerSquare(_, _, _) => "corner"
      case PropertySquare(_, _, _, _, _, _) => "property"
      case StationSquare(_, _, _, _) => "station"
      case UtilitySquare(_, _, _, _) => "utility"
      case TaxSquare(_, _, _) => "tax"
      case CardSquare(_, _, _) => "card"
    }

    /** Property, station and utility squares are the ones a player can own. */
    predicate IsBuyable() {
      PropertySquare? || StationSquare? || UtilitySquare?
    }
  }

  /** The six tags `importFromJSON` knows how to rebuild. */
  const KnownTags: set<string> := {"corner", "property", "station", "utility", "tax", "card"}

  lemma TagIsKnown(sq: Square)
    ensures sq.Tag() in KnownTags
    ensures sq.IsBuyable() <==> sq.Tag() in {"property", "station", "utility"}
  {
  }

  /**
   * `PropertySquare.calculateRent`: the rent for a given improvement level,
   * 0 when the rent table has no entry for it.
   */
  function CalculateRent(sq: Square, houses: int): (r: int)
    requires sq.PropertySquare?
    ensures 0 <= houses < |sq.rent| ==> r == sq.rent[houses]
    ensures !(0 <= houses < |sq.rent|) ==> r == 0
  {
    ElementOr(sq.rent, houses, 0)
  }

  /**
   * The record a square serialises to. Every square carries `id`, `name` and
   * the `type` tag; the other fields are present only for the variants that
   * own them.
   */
  datatype SquareJson = SquareJson(
    id: int, name: string, tag: string,
    action: Option<string>,
    price: Option<int>, rent: Option<seq<int>>, houseCost: Option<int>, group: Option<string>,
    multipliers: Option<seq<int>>, amount: Option<int>, cardType: Option<string>)

  /** The base record: only `id`, `name` and `type`. */
  function BaseJson(id: int, name: string, tag: string): SquareJson {
    SquareJson(id, name, tag, None, None, None, None, None, None, None, None)
  }

  /** `toJSON` of each variant. */
  function ToJson(sq: Square): (j: SquareJson)
    ensures j.id == sq.id && j.name == sq.name && j.tag == sq.Tag()
    ensures sq.IsBuyable() <==> j.price.Some?
    ensures sq.IsBuyable() ==> j.price == Some(sq.price)
  {
    var base := BaseJson(sq.id, sq.name, sq.Tag());
    match sq
    case CornerSquare(_, _, action) => base.(action := action)
    case PropertySquare(_, _, price, rent, houseCost, group) =>
      base.(price := Some(price), rent := Some(rent), houseCost := Some(houseCost), group := Some(group))
    case StationSquare(_, _, price, rent) => base.(price := Some(price), rent := Some(rent))
    case UtilitySquare(_, _, price, multipliers) => base.(price := Some(price), multipliers := Some(multipliers))
    case TaxSquare(_, _, amount) => base.(amount := Some(amount))
    case CardSquare(_, _, cardType) => base.(cardType := Some(cardType))
  }

  /**
   * One square of `Board.importFromJSON`: rebuild the variant named by the
   * tag; an unknown tag is an error. A corner is rebuilt without its action.
   */
  function FromJson(j: SquareJson): (r: Result<Square>)
    ensures r.Ok? <==> j.tag in KnownTags
    ensures r.Ok? ==> r.value.id == j.id && r.value.name == j.name && r.value.Tag() == j.tag
    ensures r.Ok? && r.value.CornerSquare? ==> r.value.action == None
  {
    match j.tag
    case "property" =>
      Ok(PropertySquare(j.id, j.name, j.price.GetOr(0), j.rent.GetOr([]), j.houseCost.GetOr(0), j.group.GetOr("")))
    case "station" => Ok(StationSquare(j.id, j.name, j.price.GetOr(0), j.rent.GetOr([])))
    case "utility" => Ok(UtilitySquare(j.id, j.name, j.price.GetOr(0), j.multipliers.GetOr([])))
    case "corner" => Ok(CornerSquare(j.id, j.name, None))
    case "tax" => Ok(TaxSquare(j.id, j.name, j.amount.GetOr(0)))
    case "card" => Ok(CardSquare(j.id, j.name, j.cardType.GetOr("")))
    case _ => Err("Unknown square type")
  }

  /** What survives a serialisation round trip: everything but a corner's action. */
  function Restored(sq: Square): Square {
    if sq.CornerSquare? then sq.(action := None) else sq
  }

  /** Every square comes back from its own record, less a corner's action. */
  lemma RoundTrip(sq: Square)
    ensures FromJson(ToJson(sq)) == Ok(Restored(sq))
  {
  }

  /** Rebuild a whole square list; the first unknown tag fails the import. */
  function FromJsonAll(js: seq<SquareJson>): (r: Result<seq<Square>>)
    ensures r.Ok? <==> forall k :: 0 <= k < |js| ==> js[k].tag in KnownTags
    ensures r.Ok? ==> |r.value| == |js| && forall k :: 0 <= k < |js| ==> Ok(r.value[k]) == FromJson(js[k])
  {
    if js == [] then Ok([])
    else
      match FromJson(js[0])
      case Err(e) => Err(e)
      case Ok(sq) =>
        match FromJsonAll(js[1..])
        case Err(e) => Err(e)
        case Ok(rest) => Ok([sq] + rest)
  }

  function ToJsonAll(squares: seq<Square>): (r: seq<SquareJson>)
    ensures |r| == |squares|
    ensures forall k :: 0 <= k < |squares| ==> r[k] == ToJson(squares[k])
  {
    seq(|squares|, k requires 0 <= k < |squares| => ToJson(squares[k]))
  }

  function RestoredAll(squares: seq<Square>): (r: seq<Square>)
    ensures |r| == |squares|
    ensures forall k :: 0 <= k < |squares| ==> r[k] == Restored(squares[k])
  {
    seq(|squares|, k requires 0 <= k < |squares| => Restored(squares[k]))
  }

  /** A serialised square list always imports, and gives back the squares less corner actions. */
  lemma RoundTripAll(squares: seq<Square>)
    ensures FromJsonAll(ToJsonAll(squares)) == Ok(RestoredAll(squares))
  {
    var r := FromJsonAll(ToJsonAll(squares));
    forall k | 0 <= k < |squares|
      ensures ToJsonAll(squares)[k].tag in KnownTags
    {
      TagIsKnown(squares[k]);
    }
    forall k | 0 <= k < |squares|
      ensures r.value[k] == RestoredAll(squares)[k]
    {
      RoundTrip(squares[k]);
    }
    assert r.value == RestoredAll(squares);
  }
}
