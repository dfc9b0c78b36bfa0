// The cards of src/models/Card.ts: the eight card effects as one closed
// datatype, the two decks the board is built with, and `CardDeck`, which
// shuffles its array in place once and then deals from a cursor that cycles
// through it for ever. What a card does to players is in module Game.

module Cards {
  import opened Common

  /** The card variants; `title` and `description` are the card's text. */
  datatype Card =
    | MoveCard(title: string, description: string, destinationPosition: int, collectPassGo: bool)
    | MoveRelativeCard(title: string, description: string, spaces: int)
    | CollectCard(title: string, description: string, amount: int)
    | PayCard(title: string, description: string, amount: int)
    | JailCard(title: string, description: string)
    | GetOutOfJailCard(title: string, description: string)
    | PayPerBuildingCard(title: string, description: string, perHouse: int, perHotel: int)
    | CollectFromPlayersCard(title: string, description: string, amount: int)

  /** The cards `CardDeck.createChanceDeck` starts from, before shuffling. */
  function ChanceCards(): (r: seq<Card>)
    ensures |r| == 11
  {
    [
      MoveCard("Advance to GO", "Advance to GO. Collect £200.", 0, true),
      MoveCard("Advance to Trafalgar Square", "Advance to Trafalgar Square. If you pass GO, collect £200.", 24, true),
      MoveCard("Advance to Mayfair", "Advance to Mayfair.", 39, true),
      MoveCard("Advance to Pall Mall", "Advance to Pall Mall. If you pass GO, collect £200.", 11, true),
      MoveRelativeCard("Go Back 3 Spaces", "Go back 3 spaces.", -3),
      JailCard("Go to Jail", "Go directly to Jail. Do not pass GO. Do not collect £200."),
      PayPerBuildingCard("Make general repairs", "Make general repairs on all your property. For each house pay £25. For each hotel pay £100.", 25, 100),
      PayCard("Pay speeding fine", "Pay speeding fine of £15.", 15),
      CollectCard("Bank pays you dividend", "Bank pays you dividend of £50.", 50),
      GetOutOfJailCard("Get Out of Jail Free", "This card may be kept until needed or traded."),
      CollectFromPlayersCard("It's your birthday", "It's your birthday. Collect £10 from each player.", 10)
    ]
  }

  /** The cards `CardDeck.createCommunityChestDeck` starts from, before shuffling. */
  function CommunityChestCards(): (r: seq<Card>)
    ensures |r| == 16
  {
    [
      MoveCard("Advance to GO", "Advance to GO. Collect £200.", 0, true),
      CollectCard("Bank error in your favor", "Bank error in your favor. Collect £200.", 200),
      PayCard("Doctor's fee", "Doctor's fee. Pay £50.", 50),
      CollectCard("From sale of stock you get", "From sale of stock you get £50.", 50),
      GetOutOfJailCard("Get Out of Jail Free", "This card may be kept until needed or traded."),
      JailCard("Go to Jail", "Go directly to Jail. Do not pass GO. Do not collect £200."),
      CollectFromPlayersCard("Grand Opera Night", "Grand Opera Night. Collect £50 from every player for opening night seats.", 50),
      CollectCard("Holiday fund matures", "Holiday fund matures. Receive £100.", 100),
      CollectCard("Income tax refund", "Income tax refund. Collect £20.", 20),
      CollectCard("Life insurance matures", "Life insurance matures. Collect £100.", 100),
      PayCard("Pay hospital fees", "Pay hospital fees of £100.", 100),
      PayCard("Pay school fees", "Pay school fees of £50.", 50),
      CollectCard("Receive consultancy fee", "Receive consultancy fee of £25.", 25),
      PayPerBuildingCard("You are assessed for street repairs", "You are assessed for street repairs. £40 per house. £115 per hotel.", 40, 115),
      CollectCard("You have won second prize in a beauty contest", "You have won second prize in a beauty contest. Collect £10.", 10),
      CollectCard("You inherit", "You inherit £100.", 100)
    ]
  }

  // ---------------------------------------------------------------------------
  // The cursor of a deck, as values

  /** The cursor after one draw from a deck of `n` cards (an empty deck has no next card). */
  function NextCursor(cursor: int, n: int): int {
    if n <= 0 then cursor else (cursor + 1) % n
  }

  /** The cursor after `k` draws. */
  function CursorAfter(cursor: int, k: nat, n: int): int {
    if k == 0 then cursor else NextCursor(CursorAfter(cursor, k - 1, n), n)
  }

  /** The card the deck deals at a cursor, if it has one there. */
  function CardAt(cards: seq<Card>, cursor: int): Option<Card> {
    if 0 <= cursor < |cards| then Some(cards[cursor]) else None
  }

  /** The cards dealt by `k` successive draws starting at `cursor`. */
  function Dealt(cards: seq<Card>, cursor: int, k: nat): (r: seq<Option<Card>>)
    ensures |r| == k
    decreases k
  {
    if k == 0 then [] else [CardAt(cards, cursor)] + Dealt(cards, NextCursor(cursor, |cards|), k - 1)
  }

  /** `k` draws move the cursor `k` places round the deck. */
  lemma {:induction false} CursorAfterDraws(cursor: int, k: nat, n: int)
    requires 0 <= cursor < n
    ensures CursorAfter(cursor, k, n) == (cursor + k) % n
  {
    if k == 0 {
      ModUnique(cursor, n, 0, cursor);
    } else {
      CursorAfterDraws(cursor, k - 1, n);
      ModAddOne(cursor + k - 1, n);
    }
  }

  /** After as many draws as the deck has cards the cursor is back where it started. */
  lemma FullCycleRestoresCursor(cursor: int, n: int)
    requires 0 <= cursor < n
    ensures CursorAfter(cursor, n, n) == cursor
  {
    CursorAfterDraws(cursor, n, n);
    ModUnique(cursor + n, n, 1, cursor);
  }

  /** The `i`-th of a run of draws is the card `i` places after the starting cursor. */
  lemma {:induction false} DealtAt(cards: seq<Card>, cursor: int, k: nat, i: nat)
    requires 0 <= cursor < |cards| && i < k
    ensures Dealt(cards, cursor, k)[i] == Some(cards[(cursor + i) % |cards|])
    decreases i
  {
    var n := |cards|;
    if i == 0 {
      ModUnique(cursor, n, 0, cursor);
    } else {
      var next := NextCursor(cursor, n);
      DealtAt(cards, next, k - 1, i - 1);
      ModAddOne(cursor, n);
      ModUnique(cursor, n, 0, cursor);
      assert next == (cursor + 1) % n;
      ModSum(cursor + 1, i - 1, n);
    }
  }

  /** Draw `n + 1` from an `n`-card deck deals the same card as draw 1. */
  lemma DrawRepeatsAfterFullCycle(cards: seq<Card>, cursor: int)
    requires 0 <= cursor < |cards|
    ensures Dealt(cards, cursor, |cards| + 1)[|cards|] == Dealt(cards, cursor, |cards| + 1)[0]
  {
    var n := |cards|;
    DealtAt(cards, cursor, n + 1, n);
    DealtAt(cards, cursor, n + 1, 0);
    ModUnique(cursor + n, n, 1, cursor);
    ModUnique(cursor, n, 0, cursor);
  }

  /** One full cycle of draws deals every card of the deck exactly once. */
  lemma FullCycleDealsEachCardOnce(cards: seq<Card>, cursor: int)
    requires 0 <= cursor < |cards|
    ensures Dealt(cards, cursor, |cards|) == Somes(cards[cursor..] + cards[..cursor])
    ensures multiset(cards[cursor..] + cards[..cursor]) == multiset(cards)
  {
    var n := |cards|;
    var rotated := cards[cursor..] + cards[..cursor];
    forall i | 0 <= i < n
      ensures Dealt(cards, cursor, n)[i] == Somes(rotated)[i]
    {
      DealtAt(cards, cursor, n, i);
      if cursor + i < n {
        ModUnique(cursor + i, n, 0, cursor + i);
      } else {
        ModUnique(cursor + i, n, 1, cursor + i - n);
      }
    }
    assert cards[..cursor] + cards[cursor..] == cards;
  }

  /** Whatever a rearrangement of a card list deals, at any cursor, is a card of that list. */
  lemma DealtCardIsListed(cards: seq<Card>, catalogue: seq<Card>, cursor: int)
    requires IsPermutation(cards, catalogue)
    ensures CardAt(cards, cursor).Some? ==> CardAt(cards, cursor).value in catalogue
  {
    PermutationIsSameMultiset(cards, catalogue);
    if 0 <= cursor < |cards| {
      assert cards[cursor] in multiset(cards);
    }
  }

  function Somes(cards: seq<Card>): (r: seq<Option<Card>>)
    ensures |r| == |cards| && forall i :: 0 <= i < |cards| ==> r[i] == Some(cards[i])
  {
    seq(|cards|, i requires 0 <= i < |cards| => Some(cards[i]))
  }

  // ---------------------------------------------------------------------------
  // The deck object

  /** `CardDeck`: an array of cards shuffled in place, and a cycling cursor into it. */
  class CardDeck {
    const cards: array<Card>
    var currentIndex: int

    /** The cursor is on a card whenever the deck has one. */
    ghost predicate Valid()
      reads this
    {
      0 <= currentIndex && (cards.Length == 0 || currentIndex < cards.Length)
    }

    /** The deck holds exactly the cards `cs`, in some order. */
    ghost predicate Holds(cs: seq<Card>)
      reads cards
    {
      IsPermutation(cards[..], cs)
    }

    /** Deal from a shuffle of `initial`, starting at its first card. */
    constructor (initial: seq<Card>)
      ensures Valid() && fresh(cards)
      ensures multiset(cards[..]) == multiset(initial) && currentIndex == 0
    {
      cards := new Card[|initial|](i requires 0 <= i < |initial| => initial[i]);
      currentIndex := 0;
      new;
      assert cards[..] == initial;
      Shuffle();
    }

    /**
     * Fisher-Yates: walk down the array and swap each element with one at a
     * random index at or below it. The random index is any value in range.
     */
    method Shuffle()
      modifies cards
      ensures multiset(cards[..]) == old(multiset(cards[..]))
    {
      var i := cards.Length - 1;
      while i > 0
        invariant i < cards.Length
        invariant multiset(cards[..]) == old(multiset(cards[..]))
      {
        var j :| 0 <= j <= i;
        cards[i], cards[j] := cards[j], cards[i];
        i := i - 1;
      }
    }

    /**
     * Deal the card under the cursor and advance the cursor round the deck.
     * An empty deck has no card to deal (the game code throws).
     */
    method DrawCard() returns (card: Option<Card>)
      requires Valid()
      modifies this`currentIndex
      ensures Valid()
      ensures card == CardAt(cards[..], old(currentIndex))
      ensures card.Some? <==> cards.Length > 0
      ensures currentIndex == NextCursor(old(currentIndex), cards.Length)
    {
      if cards.Length == 0 {
        return None;
      }
      card := Some(cards[currentIndex]);
      currentIndex := (currentIndex + 1) % cards.Length;
    }

    /** `createChanceDeck`. */
    static method CreateChanceDeck() returns (deck: CardDeck)
      ensures fresh(deck) && fresh(deck.cards) && deck.Valid()
      ensures deck.cards.Length == |ChanceCards()| && deck.currentIndex == 0
      ensures deck.Holds(ChanceCards())
    {
      deck := new CardDeck(ChanceCards());
      PermutationIsSameMultiset(deck.cards[..], ChanceCards());
    }

    /** `createCommunityChestDeck`. */
    static method CreateCommunityChestDeck() returns (deck: CardDeck)
      ensures fresh(deck) && fresh(deck.cards) && deck.Valid()
      ensures deck.cards.Length == |CommunityChestCards()| && deck.currentIndex == 0
      ensures deck.Holds(CommunityChestCards())
    {
      deck := new CardDeck(CommunityChestCards());
      PermutationIsSameMultiset(deck.cards[..], CommunityChestCards());
    }
  }
}
