// The board of src/models/Board.ts: the square list a theme is built into
// (pushed in a fixed order, then sorted by id), the queries over it, the
// movement arithmetic on the ring of squares, and the `Board` object that
// owns the two card decks and can be saved to and restored from JSON.

module Boards {
  import opened Common
  import opened Squares
  import opened Cards
  import opened Catalogue

  // ---------------------------------------------------------------------------
  // Sorting the pushed squares by id

  predicate SortedById(s: seq<Square>) {
    forall i, j :: 0 <= i < j < |s| ==> s[i].id <= s[j].id
  }

  /** Insert one square into an id-sorted list, before the first one with an id at least its own. */
  function InsertById(x: Square, s: seq<Square>): (r: seq<Square>)
    requires SortedById(s)
    ensures SortedById(r)
    ensures multiset(r) == multiset(s) + multiset{x}
    ensures forall y :: y in r ==> y == x || y in s
  {
    if s == [] || x.id <= s[0].id then [x] + s
    else
      var rest := InsertById(x, s[1..]);
      assert forall k :: 0 <= k < |rest| ==> s[0].id <= rest[k].id by {
        forall k | 0 <= k < |rest|
          ensures s[0].id <= rest[k].id
        {
          assert rest[k] in rest;
          if rest[k] != x {
            var m :| 0 <= m < |s[1..]| && s[1..][m] == rest[k];
            assert s[m + 1] == rest[k];
          }
        }
      }
      assert s == [s[0]] + s[1..];
      [s[0]] + rest
  }

  /** `squares.sort((a, b) => a.id - b.id)`: an id-sorted rearrangement of the list. */
  function SortById(s: seq<Square>): (r: seq<Square>)
    ensures SortedById(r)
    ensures multiset(r) == multiset(s)
  {
    if s == [] then []
    else
      assert s == [s[0]] + s[1..];
      InsertById(s[0], SortById(s[1..]))
  }

  /** `initializeSquares`: the theme's squares, as pushed, sorted by id. */
  function InitializeSquares(board: BoardName): (r: seq<Square>)
    ensures SortedById(r) && multiset(r) == multiset(Layout(board))
  {
    SortById(Layout(board))
  }

  // ---------------------------------------------------------------------------
  // The square list is dense: the square at index i has id i

  /** Index i of the list holds the square with id i. */
  predicate Dense(squares: seq<Square>) {
    forall i :: 0 <= i < |squares| ==> squares[i].id == i
  }

  /** Where, in push order, the constructor puts the square with each id 0..39. */
  const PushIndex: seq<int> := [
    0, 4, 6, 5, 38, 32, 9, 12, 10, 11, 1, 15, 36, 16, 17, 33, 18, 7, 19, 20,
    2, 21, 13, 22, 23, 34, 24, 25, 37, 26, 3, 27, 28, 8, 29, 35, 14, 30, 39, 31]

  predicate CoversIdsAt(pushed: seq<Square>) {
    |pushed| == 40 && forall k :: 0 <= k < 40 ==> pushed[PushIndex[k]].id == k
  }

  lemma UkCoversIds() ensures CoversIdsAt(UkSquares()) { }
  lemma UsCoversIds() ensures CoversIdsAt(UsSquares()) { }
  lemma WorldCoversIds() ensures CoversIdsAt(WorldSquares()) { }
  lemma BryCoversIds() ensures CoversIdsAt(BrySquares()) { }

  /** Some square of the list has id `k`. */
  predicate HasId(t: seq<Square>, k: int) {
    exists i :: 0 <= i < |t| && t[i].id == k
  }

  /** The index of some square with id `k`. */
  ghost function IndexOfId(t: seq<Square>, k: int): (i: nat)
    requires HasId(t, k)
    ensures i < |t| && t[i].id == k
  {
    var i :| 0 <= i < |t| && t[i].id == k; i
  }

  /** In a strictly increasing list of naturals, the value at k is at least k. */
  lemma {:induction false} IncreasingAtLeastIndex(p: seq<int>, k: nat)
    requires forall i :: 0 <= i < |p| - 1 ==> p[i] < p[i + 1]
    requires forall i :: 0 <= i < |p| ==> 0 <= p[i]
    requires k < |p|
    ensures k <= p[k]
  {
    if k > 0 {
      IncreasingAtLeastIndex(p, k - 1);
    }
  }

  /** In a strictly increasing list of values below its length, the value at k is at most k. */
  lemma {:induction false} IncreasingAtMostIndex(p: seq<int>, k: nat)
    requires forall i :: 0 <= i < |p| - 1 ==> p[i] < p[i + 1]
    requires forall i :: 0 <= i < |p| ==> p[i] < |p|
    requires k < |p|
    ensures p[k] <= k
    decreases |p| - k
  {
    if k < |p| - 1 {
      IncreasingAtMostIndex(p, k + 1);
    }
  }

  /**
   * An id-sorted list of n squares in which every id 0..n-1 occurs is dense:
   * the positions of the ids 0..n-1 increase strictly, so each id k is at k.
   */
  lemma SortedCoverageIsDense(t: seq<Square>)
    requires SortedById(t)
    requires forall k :: 0 <= k < |t| ==> HasId(t, k)
    ensures Dense(t)
  {
    var n := |t|;
    var p := seq(n, k requires 0 <= k < n => IndexOfId(t, k));
    forall k | 0 <= k < n - 1
      ensures p[k] < p[k + 1]
    {
      assert t[p[k]].id == k && t[p[k + 1]].id == k + 1;
    }
    forall i | 0 <= i < n
      ensures t[i].id == i
    {
      IncreasingAtLeastIndex(p, i);
      IncreasingAtMostIndex(p, i);
    }
  }

  /** An id-sorted rearrangement of a list that holds every id 0..39 is a dense list of 40 squares. */
  lemma SortedCoverIsDense(pushed: seq<Square>, t: seq<Square>)
    requires CoversIdsAt(pushed) && SortedById(t) && multiset(t) == multiset(pushed)
    ensures |t| == 40 && Dense(t)
  {
    assert |t| == |pushed| by {
      assert |multiset(t)| == |multiset(pushed)|;
    }
    forall k | 0 <= k < |t|
      ensures HasId(t, k)
    {
      var y := pushed[PushIndex[k]];
      assert y in multiset(pushed);
      assert y in multiset(t);
      var i :| 0 <= i < |t| && t[i] == y;
    }
    SortedCoverageIsDense(t);
  }

  // ---------------------------------------------------------------------------
  // Queries over the square list

  /** `getSquareFromIndex`: the first square whose id is `index`, if any. */
  function GetSquareFromIndex(squares: seq<Square>, index: int): (r: Option<Square>)
    ensures r.Some? ==> r.value.id == index
    ensures r.None? <==> forall k :: 0 <= k < |squares| ==> squares[k].id != index
    ensures r.Some? ==>
      exists k :: 0 <= k < |squares| && squares[k] == r.value && (forall j :: 0 <= j < k ==> squares[j].id != index)
  {
    if squares == [] then None
    else if squares[0].id == index then Some(squares[0])
    else
      var r := GetSquareFromIndex(squares[1..], index);
      assert r.Some? ==>
        exists k :: 1 <= k < |squares| && squares[k] == r.value && (forall j :: 0 <= j < k ==> squares[j].id != index) by {
        if r.Some? {
          var k :| 0 <= k < |squares[1..]| && squares[1..][k] == r.value &&
            (forall j :: 0 <= j < k ==> squares[1..][j].id != index);
          assert forall j :: 1 <= j < k + 1 ==> squares[j].id == squares[1..][j - 1].id;
        }
      }
      r
  }

  /** On a dense list, looking up index i gives the square at i, and no square outside the list. */
  lemma DenseLookup(squares: seq<Square>, index: int)
    requires Dense(squares)
    ensures 0 <= index < |squares| ==> GetSquareFromIndex(squares, index) == Some(squares[index])
    ensures !(0 <= index < |squares|) ==> GetSquareFromIndex(squares, index) == None
  {
    var r := GetSquareFromIndex(squares, index);
    if r.Some? {
      var k :| 0 <= k < |squares| && squares[k] == r.value &&
        (forall j :: 0 <= j < k ==> squares[j].id != index);
      assert k == index;
    }
  }

  /** `getPropertiesByGroup`: the property squares of one colour group, in board order. */
  function GetPropertiesByGroup(squares: seq<Square>, group: Group): (r: seq<Square>)
    ensures forall sq :: sq in r <==> sq in squares && sq.PropertySquare? && sq.group == group
    ensures |r| <= |squares|
  {
    if squares == [] then []
    else
      var rest := GetPropertiesByGroup(squares[1..], group);
      assert forall sq :: sq in squares <==> sq == squares[0] || sq in squares[1..];
      if squares[0].PropertySquare? && squares[0].group == group then [squares[0]] + rest else rest
  }

  /**
   * `hasMonopoly`: every property of the group is among the given owned ids
   * (so a group with no properties counts as held). The player id the game
   * code passes alongside is unused.
   */
  function HasMonopoly(squares: seq<Square>, group: Group, ownedIds: seq<int>): (r: bool)
    ensures r <==> forall k :: 0 <= k < |squares| && squares[k].PropertySquare? && squares[k].group == group ==>
      squares[k].id in ownedIds
  {
    var props := GetPropertiesByGroup(squares, group);
    assert forall k :: 0 <= k < |squares| && squares[k].PropertySquare? && squares[k].group == group ==>
      squares[k] in props;
    forall sq :: sq in props ==> sq.id in ownedIds
  }

  /**
   * `getPositionAfterMove`: JavaScript's `(p + s) % totalSquares`. A forward
   * move from a square of the ring stays on the ring.
   */
  function GetPositionAfterMove(totalSquares: int, currentPosition: int, steps: int): (r: int)
    requires totalSquares > 0
    ensures currentPosition + steps >= 0 ==> r == (currentPosition + steps) % totalSquares && 0 <= r < totalSquares
    ensures currentPosition + steps < 0 ==> -totalSquares < r <= 0
  {
    JsRem(currentPosition + steps, totalSquares)
  }

  /** The side of the board a position is drawn on. */
  datatype Edge = Corner | Bottom | Left | Top | Right

  /**
   * `getEdgeType`: a multiple of the side length is a corner; otherwise the
   * side is decided by comparing with one, two and three side lengths. The
   * side length `totalSquares / 4` is a JavaScript number, exact but possibly
   * fractional, so every test is made here on `4 * position`. A ring of
   * length 0 makes the remainder NaN, so nothing is a corner there.
   */
  function GetEdgeType(position: int, totalSquares: int): Edge
  {
    if totalSquares != 0 && (4 * position) % totalSquares == 0 then Corner
    else if 4 * position < totalSquares then Bottom
    else if 4 * position < totalSquares * 2 then Left
    else if 4 * position < totalSquares * 3 then Top
    else Right
  }

  /**
   * On a ring of any length n, the corners are the positions p with
   * 4p equal to 0, n, 2n or 3n, and each side holds the positions strictly
   * between two such points.
   */
  lemma EdgeTypeByQuarter(position: int, totalSquares: int)
    requires totalSquares > 0 && 0 <= position < totalSquares
    ensures var n, q, e := totalSquares, 4 * position, GetEdgeType(position, totalSquares);
      (e == Corner <==> q == 0 || q == n || q == 2 * n || q == 3 * n) &&
      (e == Bottom <==> 0 < q < n) &&
      (e == Left <==> n < q < 2 * n) &&
      (e == Top <==> 2 * n < q < 3 * n) &&
      (e == Right <==> 3 * n < q)
  {
    var n, q := totalSquares, 4 * position;
    if q < n {
      ModUnique(q, n, 0, q);
    } else if q < 2 * n {
      ModUnique(q, n, 1, q - n);
    } else if q < 3 * n {
      ModUnique(q, n, 2, q - 2 * n);
    } else {
      ModUnique(q, n, 3, q - 3 * n);
    }
  }

  /**
   * On a ring whose length is a multiple of 4, the four corners are the
   * positions 0, s, 2s and 3s (s the side length), and each side holds the
   * positions strictly between two corners.
   */
  lemma EdgeTypeBySide(position: int, totalSquares: int)
    requires totalSquares > 0 && totalSquares % 4 == 0 && 0 <= position < totalSquares
    ensures var s := totalSquares / 4; var e := GetEdgeType(position, totalSquares);
      (e == Corner <==> position == 0 || position == s || position == 2 * s || position == 3 * s) &&
      (e == Bottom <==> 0 < position < s) &&
      (e == Left <==> s < position < 2 * s) &&
      (e == Top <==> 2 * s < position < 3 * s) &&
      (e == Right <==> 3 * s < position)
  {
    assert totalSquares == 4 * (totalSquares / 4);
    EdgeTypeByQuarter(position, totalSquares);
  }

  /**
   * A ring length that is not a multiple of 4, as `importFromJSON` can set,
   * has fewer corners: on 42 squares only 0 and 21 are corners.
   */
  lemma UnevenRingHasTwoCorners(position: int)
    requires 0 <= position < 42
    ensures GetEdgeType(position, 42) == Corner <==> position == 0 || position == 21
  {
    EdgeTypeByQuarter(position, 42);
  }

  /** `isCorner`: the square with this id is a corner square. */
  function IsCorner(squares: seq<Square>, position: int): (r: bool)
    ensures r <==> (exists k :: 0 <= k < |squares| && squares[k].id == position && squares[k].CornerSquare? &&
                              (forall j :: 0 <= j < k ==> squares[j].id != position))
  {
    var sq := GetSquareFromIndex(squares, position);
    sq.Some? && sq.value.CornerSquare?
  }

  /** `calculateMortgageValue`: half the price of a property square, 0 for any other id. */
  function CalculateMortgageValue(squares: seq<Square>, propertyId: int): (r: int)
    ensures var sq := GetSquareFromIndex(squares, propertyId);
      (sq.Some? && sq.value.PropertySquare? ==> 2 * r <= sq.value.price <= 2 * r + 1) &&
      (!(sq.Some? && sq.value.PropertySquare?) ==> r == 0)
  {
    var sq := GetSquareFromIndex(squares, propertyId);
    if sq.Some? && sq.value.PropertySquare? then sq.value.price / 2 else 0
  }

  // ---------------------------------------------------------------------------
  // Facts about the four themes

  /** The corner squares are exactly those with ids 0, 10, 20 and 30. */
  predicate CornersEveryTenth(squares: seq<Square>) {
    forall k :: 0 <= k < |squares| ==> (squares[k].CornerSquare? <==> squares[k].id in {0, 10, 20, 30})
  }

  /** Every square that can be bought has an even price. */
  predicate BuyablePricesEven(squares: seq<Square>) {
    forall k :: 0 <= k < |squares| ==> squares[k].IsBuyable() ==> squares[k].price % 2 == 0
  }

  /** Both facts hold of every rearrangement of a list they hold of. */
  lemma FactsCarryOver(pushed: seq<Square>, t: seq<Square>)
    requires multiset(t) == multiset(pushed) && CornersEveryTenth(pushed) && BuyablePricesEven(pushed)
    ensures CornersEveryTenth(t) && BuyablePricesEven(t)
  {
    forall k | 0 <= k < |t|
      ensures t[k] in pushed
    {
      assert t[k] in multiset(pushed);
    }
  }

  /** What the density, corner and price facts need of a theme's pushed squares. */
  predicate ThemeShape(pushed: seq<Square>) {
    CoversIdsAt(pushed) && CornersEveryTenth(pushed) && BuyablePricesEven(pushed)
  }

  /** An id-sorted rearrangement of a list of that shape is dense, with its corners and prices as pushed. */
  lemma SortedThemeFacts(pushed: seq<Square>, t: seq<Square>)
    requires ThemeShape(pushed) && SortedById(t) && multiset(t) == multiset(pushed)
    ensures |t| == 40 && Dense(t) && CornersEveryTenth(t) && BuyablePricesEven(t)
  {
    SortedCoverIsDense(pushed, t);
    FactsCarryOver(pushed, t);
  }

  lemma UkCorners() ensures CornersEveryTenth(UkSquares()) { }

  lemma UkPrices()
    ensures forall k :: 0 <= k < |UkSquares()| ==> UkSquares()[k].IsBuyable() ==> UkSquares()[k].price % 2 == 0
  {
  }

  lemma UkShape()
    ensures ThemeShape(UkSquares())
  {
    UkCoversIds();
    UkCorners();
    UkPrices();
  }

  lemma UsCorners() ensures CornersEveryTenth(UsSquares()) { }

  lemma UsPrices()
    ensures forall k :: 0 <= k < |UsSquares()| ==> UsSquares()[k].IsBuyable() ==> UsSquares()[k].price % 2 == 0
  {
  }

  lemma UsShape()
    ensures ThemeShape(UsSquares())
  {
    UsCoversIds();
    UsCorners();
    UsPrices();
  }

  lemma WorldCorners() ensures CornersEveryTenth(WorldSquares()) { }

  lemma WorldPrices()
    ensures forall k :: 0 <= k < |WorldSquares()| ==> WorldSquares()[k].IsBuyable() ==> WorldSquares()[k].price % 2 == 0
  {
  }

  lemma WorldShape()
    ensures ThemeShape(WorldSquares())
  {
    WorldCoversIds();
    WorldCorners();
    WorldPrices();
  }

  lemma BryCorners() ensures CornersEveryTenth(BrySquares()) { }

  lemma BryPrices()
    ensures forall k :: 0 <= k < |BrySquares()| ==> BrySquares()[k].IsBuyable() ==> BrySquares()[k].price % 2 == 0
  {
  }

  lemma BryShape()
    ensures ThemeShape(BrySquares())
  {
    BryCoversIds();
    BryCorners();
    BryPrices();
  }

  lemma LayoutShape(board: BoardName)
    ensures ThemeShape(Layout(board))
  {
    match board
    case Uk => UkShape();
    case Us => UsShape();
    case World => WorldShape();
    case Bry => BryShape();
  }

  /**
   * For every theme the constructor recognises, an id-sorted arrangement of
   * its squares (the one `initializeSquares` returns) holds the ids 0..39,
   * each once, at its own index; its corners have ids 0, 10, 20 and 30; and
   * every price is even.
   */
  lemma CatalogueIsDense(board: BoardName, t: seq<Square>)
    requires SortedById(t) && multiset(t) == multiset(Layout(board))
    ensures |t| == 40 && Dense(t) && CornersEveryTenth(t) && BuyablePricesEven(t)
  {
    LayoutShape(board);
    SortedThemeFacts(Layout(board), t);
  }

  /** On a dense 40-square list whose corners have ids 0, 10, 20, 30, corners sit on the ring's corners. */
  lemma DenseCornersOnCorners(t: seq<Square>, position: int)
    requires Dense(t) && |t| == 40 && CornersEveryTenth(t)
    requires 0 <= position < 40
    ensures IsCorner(t, position) <==> GetEdgeType(position, 40) == Corner
  {
    DenseLookup(t, position);
    EdgeTypeBySide(position, 40);
  }

  /** On a dense list with even prices, the mortgage value is exactly half the price. */
  lemma DenseMortgageIsHalfPrice(t: seq<Square>, propertyId: int)
    requires Dense(t) && BuyablePricesEven(t)
    ensures var sq := GetSquareFromIndex(t, propertyId);
      sq.Some? && sq.value.PropertySquare? ==> 2 * CalculateMortgageValue(t, propertyId) == sq.value.price
  {
    DenseLookup(t, propertyId);
  }

  /** On every theme the mortgage value of a property is exactly half its price. */
  lemma CatalogueMortgageIsHalfPrice(board: BoardName, t: seq<Square>, propertyId: int)
    requires SortedById(t) && multiset(t) == multiset(Layout(board))
    ensures var sq := GetSquareFromIndex(t, propertyId);
      sq.Some? && sq.value.PropertySquare? ==> 2 * CalculateMortgageValue(t, propertyId) == sq.value.price
  {
    CatalogueIsDense(board, t);
    DenseMortgageIsHalfPrice(t, propertyId);
  }

  // ---------------------------------------------------------------------------
  // The board object

  /** The record `toJSON` produces; `totalSquares` may be missing when read back. */
  datatype BoardJson = BoardJson(size: int, totalSquares: Option<int>, squares: seq<SquareJson>)

  class Board {
    var squares: seq<Square>
    var size: int
    var totalSquares: int
    var chanceDeck: CardDeck
    var communityChestDeck: CardDeck

    /** The two decks are distinct, non-empty objects, each with its cursor on a card. */
    ghost predicate Valid()
      reads this, chanceDeck, communityChestDeck
    {
      chanceDeck != communityChestDeck && chanceDeck.cards != communityChestDeck.cards &&
      chanceDeck.cards.Length > 0 && communityChestDeck.cards.Length > 0 &&
      chanceDeck.Valid() && communityChestDeck.Valid()
    }

    /** `createChanceDeck` and `createCommunityChestDeck`, as the board calls them. */
    static method FreshDecks() returns (chance: CardDeck, community: CardDeck)
      ensures fresh(chance) && fresh(chance.cards) && fresh(community) && fresh(community.cards)
      ensures chance != community && chance.cards != community.cards
      ensures chance.Valid() && chance.cards.Length == |ChanceCards()| && chance.currentIndex == 0
      ensures community.Valid() && community.cards.Length == |CommunityChestCards()| && community.currentIndex == 0
      ensures chance.Holds(ChanceCards()) && community.Holds(CommunityChestCards())
    {
      chance := CardDeck.CreateChanceDeck();
      community := CardDeck.CreateCommunityChestDeck();
    }

    /** A board over the given squares with fresh decks. */
    constructor (squares0: seq<Square>, size0: int)
      ensures Valid() && fresh(chanceDeck) && fresh(communityChestDeck)
      ensures fresh(chanceDeck.cards) && fresh(communityChestDeck.cards)
      ensures squares == squares0 && size == size0 && totalSquares == (size0 - 1) * 4
      ensures chanceDeck.cards.Length == |ChanceCards()| && chanceDeck.currentIndex == 0
      ensures communityChestDeck.cards.Length == |CommunityChestCards()| && communityChestDeck.currentIndex == 0
      ensures chanceDeck.Holds(ChanceCards()) && communityChestDeck.Holds(CommunityChestCards())
    {
      size := size0;
      totalSquares := (size0 - 1) * 4;
      var chance, community := FreshDecks();
      chanceDeck := chance;
      communityChestDeck := community;
      squares := squares0;
    }

    /**
     * `new Board(boardName, size)`: the theme's squares sorted by id, a ring of
     * `(size - 1) * 4` squares and two fresh shuffled decks. A name that is
     * not a theme is refused by `ParseBoardName`, which fails with
     * "Board name not recognized".
     */
    static method Create(board: BoardName, size: int) returns (b: Board)
      ensures fresh(b) && fresh(b.chanceDeck) && fresh(b.communityChestDeck)
      ensures b.Valid() && b.size == size && b.totalSquares == (size - 1) * 4
      ensures b.squares == InitializeSquares(board)
      ensures b.chanceDeck.cards.Length == |ChanceCards()| && b.chanceDeck.currentIndex == 0
      ensures b.communityChestDeck.cards.Length == |CommunityChestCards()| && b.communityChestDeck.currentIndex == 0
      ensures b.chanceDeck.Holds(ChanceCards()) && b.communityChestDeck.Holds(CommunityChestCards())
    {
      b := new Board(InitializeSquares(board), size);
    }

    /** `new Board(boardName)`: the default size 11 gives the 40-square ring. */
    static method CreateDefault(board: BoardName) returns (b: Board)
      ensures fresh(b) && b.Valid() && b.size == 11 && b.totalSquares == 40
      ensures b.squares == InitializeSquares(board)
      ensures b.chanceDeck.Holds(ChanceCards()) && b.communityChestDeck.Holds(CommunityChestCards())
    {
      b := Create(board, 11);
    }

    /** `drawChanceCard`. */
    method DrawChanceCard() returns (card: Option<Card>)
      requires Valid()
      modifies chanceDeck`currentIndex
      ensures Valid()
      ensures card == CardAt(chanceDeck.cards[..], old(chanceDeck.currentIndex))
      ensures chanceDeck.currentIndex == NextCursor(old(chanceDeck.currentIndex), chanceDeck.cards.Length)
    {
      card := chanceDeck.DrawCard();
    }

    /** `drawCommunityChestCard`. */
    method DrawCommunityChestCard() returns (card: Option<Card>)
      requires Valid()
      modifies communityChestDeck`currentIndex
      ensures Valid()
      ensures card == CardAt(communityChestDeck.cards[..], old(communityChestDeck.currentIndex))
      ensures communityChestDeck.currentIndex == NextCursor(old(communityChestDeck.currentIndex), communityChestDeck.cards.Length)
    {
      card := communityChestDeck.DrawCard();
    }

    /**
     * `findNextSquareOfType`: walk the ring forward from the square after
     * `currentPosition` and stop at the first square of the wanted type; when
     * the walk comes back round, no other square has it.
     */
    method FindNextSquareOfType(currentPosition: int, tag: string) returns (r: int)
      requires totalSquares > 0 && 0 <= currentPosition < totalSquares
      ensures 0 <= r < totalSquares
      ensures r != currentPosition ==> HasTagAt(squares, r, tag)
      ensures forall q :: 0 <= q < totalSquares && 0 < StepsAhead(currentPosition, q, totalSquares) < StepsAhead(currentPosition, r, totalSquares) ==>
        !HasTagAt(squares, q, tag)
    {
      NextOnRing(currentPosition, totalSquares);
      var position := (currentPosition + 1) % totalSquares;
      while position != currentPosition
        invariant 0 <= position < totalSquares
        invariant forall q :: 0 <= q < totalSquares && 0 < StepsAhead(currentPosition, q, totalSquares) < StepsAhead(currentPosition, position, totalSquares) ==>
          !HasTagAt(squares, q, tag)
        decreases totalSquares - StepsAhead(currentPosition, position, totalSquares)
      {
        var square := GetSquareFromIndex(squares, position);
        if square.Some? && square.value.Tag() == tag {
          return position;
        }
        NextOnRing(position, totalSquares);
        position := (position + 1) % totalSquares;
      }
      return currentPosition;
    }

    /** `resetCardDecks`: both decks are replaced by fresh, reshuffled ones. */
    method ResetCardDecks()
      modifies this`chanceDeck, this`communityChestDeck
      ensures Valid() && fresh(chanceDeck) && fresh(communityChestDeck)
      ensures chanceDeck.cards.Length == |ChanceCards()| && chanceDeck.currentIndex == 0
      ensures communityChestDeck.cards.Length == |CommunityChestCards()| && communityChestDeck.currentIndex == 0
      ensures chanceDeck.Holds(ChanceCards()) && communityChestDeck.Holds(CommunityChestCards())
    {
      chanceDeck, communityChestDeck := FreshDecks();
    }

    /** `toJSON`: the size, the ring length and every square's record. */
    function ToJson(): (j: BoardJson)
      reads this
      ensures j.size == size && j.totalSquares == Some(totalSquares)
      ensures FromJsonAll(j.squares) == Ok(RestoredAll(squares))
    {
      RoundTripAll(squares);
      BoardJson(size, Some(totalSquares), ToJsonAll(squares))
    }

    /**
     * `importFromJSON`: the size and ring length are taken first (a missing
     * length reads as 0); then every square is rebuilt from its tag, and an
     * unknown tag fails the import, leaving the old squares in place.
     */
    method ImportFromJson(json: BoardJson) returns (r: Result<()>)
      modifies this`size, this`totalSquares, this`squares
      ensures size == json.size && totalSquares == json.totalSquares.GetOr(0)
      ensures r.Ok? <==> forall k :: 0 <= k < |json.squares| ==> json.squares[k].tag in KnownTags
      ensures r.Ok? ==> squares == FromJsonAll(json.squares).value
      ensures r.Err? ==> squares == old(squares) && r.message == "Failed to import board from JSON"
    {
      size := json.size;
      totalSquares := json.totalSquares.GetOr(0);
      var rebuilt := FromJsonAll(json.squares);
      if rebuilt.Err? {
        return Err("Failed to import board from JSON");
      }
      squares := rebuilt.value;
      return Ok(());
    }
  }

  /** The square with id `position` exists and has the given type tag. */
  predicate HasTagAt(squares: seq<Square>, position: int, tag: string) {
    var sq := GetSquareFromIndex(squares, position);
    sq.Some? && sq.value.Tag() == tag
  }

  /** How many steps forward round the ring lead from `from` to `to`; a full lap when they coincide. */
  function StepsAhead(from: int, to: int, total: int): int {
    if to > from then to - from else to - from + total
  }
}
