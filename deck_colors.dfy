/** The colours of a deck: the colour indices its main-deck cards contribute through
    their land frames and mana costs, without repeats and in ascending order. */
module DeckColors {
  import opened Wrappers
  import opened Lists

  /** The colour constants `WHITE`, `BLUE`, `BLACK`, `RED` and `GREEN`. */
  datatype Palette = Palette(white: int, blue: int, black: int, red: int, green: int)

  /** What the card database knows of a card; the source's `type` is `typeLine` here. */
  datatype CardData = CardData(typeLine: string, frame: seq<int>, cost: seq<string>)

  /** One main-deck entry: a card id and how many copies. */
  datatype CardCount = CardCount(id: int, quantity: int)

  /** `typeLine.indexOf("Land") !== -1`: the type line contains the word `Land`. */
  predicate IsLand(card: CardData) {
    exists k :: 0 <= k <= |card.typeLine| - 4 && LandAt(card.typeLine, k)
  }

  predicate LandAt(text: string, k: int)
    requires 0 <= k <= |text| - 4
  {
    text[k..k + 4] == "Land"
  }

  /** The colour a cost symbol stands for, if any. */
  function SymbolColor(symbol: string, palette: Palette): Option<int> {
    if symbol == "w" then Some(palette.white)
    else if symbol == "u" then Some(palette.blue)
    else if symbol == "b" then Some(palette.black)
    else if symbol == "r" then Some(palette.red)
    else if symbol == "g" then Some(palette.green)
    else None
  }

  /** The colours a card's cost symbols contribute, in order. */
  function CostColors(cost: seq<string>, palette: Palette): seq<int> {
    if cost == [] then []
    else
      var front := CostColors(cost[..|cost| - 1], palette);
      match SymbolColor(cost[|cost| - 1], palette)
      case Some(c) => front + [c]
      case None => front
  }

  /** What the frame of a card contributes: all of it for a land with fewer than three
      frame colours, nothing otherwise. */
  function FrameColors(card: CardData): seq<int> {
    if IsLand(card) && |card.frame| < 3 then card.frame else []
  }

  /** What one main-deck entry contributes. */
  function Contribution(entry: CardCount, db: int -> Option<CardData>, palette: Palette): seq<int> {
    if entry.quantity < 1 then []
    else match db(entry.id)
      case None => []
      case Some(card) => FrameColors(card) + CostColors(card.cost, palette)
  }

  /** Everything the entries contribute, in deck order (`colorIndices` before the dedupe). */
  function Collected(deck: seq<CardCount>, db: int -> Option<CardData>, palette: Palette): seq<int> {
    FlatMap(deck, entry => Contribution(entry, db, palette))
  }

  /** The cost symbols `w`, `u`, `b`, `r`, `g` contribute their colours and every other
      symbol contributes nothing. */
  lemma {:induction false} CostColorsFromSymbols(cost: seq<string>, palette: Palette)
    ensures forall c :: c in CostColors(cost, palette) <==>
      exists i :: 0 <= i < |cost| && SymbolColor(cost[i], palette) == Some(c)
  {
    if cost != [] {
      var front := cost[..|cost| - 1];
      CostColorsFromSymbols(front, palette);
      forall c ensures c in CostColors(cost, palette) <==>
        exists i :: 0 <= i < |cost| && SymbolColor(cost[i], palette) == Some(c)
      {
        if exists i :: 0 <= i < |cost| && SymbolColor(cost[i], palette) == Some(c) {
          var i :| 0 <= i < |cost| && SymbolColor(cost[i], palette) == Some(c);
          if i < |front| {
            assert front[i] == cost[i];
          }
        }
        if c in CostColors(front, palette) {
          var i :| 0 <= i < |front| && SymbolColor(front[i], palette) == Some(c);
          assert cost[i] == front[i];
        }
      }
    }
  }

  /** A card with no copies, or one the database does not know, adds nothing wherever it
      stands in the deck. */
  lemma {:induction false} IgnoredEntry(deck: seq<CardCount>, k: nat, entry: CardCount, db: int -> Option<CardData>, palette: Palette)
    requires k <= |deck|
    requires entry.quantity < 1 || db(entry.id).None?
    ensures Collected(deck[..k] + [entry] + deck[k..], db, palette) == Collected(deck, db, palette)
    decreases |deck|
  {
    var with := deck[..k] + [entry] + deck[k..];
    if k == |deck| {
      assert with[..|with| - 1] == deck;
    } else {
      var last := |deck| - 1;
      IgnoredEntry(deck[..last], k, entry, db, palette);
      assert with[..|with| - 1] == deck[..last][..k] + [entry] + deck[..last][k..];
      assert with[|with| - 1] == deck[last];
    }
  }

  /** A known card with copies contributes its whole frame when it is a land with fewer
      than three frame colours; otherwise it contributes only the colours of its cost
      symbols. */
  lemma KnownCardContribution(entry: CardCount, card: CardData, db: int -> Option<CardData>, palette: Palette)
    requires entry.quantity >= 1 && db(entry.id) == Some(card)
    ensures IsLand(card) && |card.frame| < 3 ==>
      forall c :: c in card.frame ==> c in Contribution(entry, db, palette)
    ensures !(IsLand(card) && |card.frame| < 3) ==>
      forall c :: c in Contribution(entry, db, palette) <==>
        exists i :: 0 <= i < |card.cost| && SymbolColor(card.cost[i], palette) == Some(c)
  {
    CostColorsFromSymbols(card.cost, palette);
  }

  /** Every contribution of an entry shows up in what the deck collects, and nothing else does. */
  lemma CollectedIsUnion(deck: seq<CardCount>, db: int -> Option<CardData>, palette: Palette)
    ensures forall c :: c in Collected(deck, db, palette) <==>
      exists i :: 0 <= i < |deck| && c in Contribution(deck[i], db, palette)
  {
    FlatMapMembership(deck, entry => Contribution(entry, db, palette));
  }

  /** Two strictly ascending lists with the same values are the same list, so the
      result of `getDeckColors` is determined by the set of contributed colours. */
  lemma {:induction false} AscendingUnique(a: seq<int>, b: seq<int>)
    requires forall i, j :: 0 <= i < j < |a| ==> a[i] < a[j]
    requires forall i, j :: 0 <= i < j < |b| ==> b[i] < b[j]
    requires forall x :: x in a <==> x in b
    ensures a == b
    decreases |a|
  {
    assert a != [] ==> a[0] in a && a[0] in b;
    assert b != [] ==> b[0] in b && b[0] in a;
    if a != [] && b != [] {
      assert a[0] == b[0] by {
        var k :| 0 <= k < |b| && b[k] == a[0];
        var m :| 0 <= m < |a| && a[m] == b[0];
        assert b[0] <= b[k] && a[0] <= a[m];
      }
      forall x ensures x in a[1..] <==> x in b[1..] {
        if x in a[1..] {
          var m :| 0 <= m < |a[1..]| && a[1..][m] == x;
          assert a[m + 1] == x && x in a;
          var k :| 0 <= k < |b| && b[k] == x;
          assert k != 0 && b[1..][k - 1] == x;
        }
        if x in b[1..] {
          var m :| 0 <= m < |b[1..]| && b[1..][m] == x;
          assert b[m + 1] == x && x in b;
          var k :| 0 <= k < |a| && a[k] == x;
          assert k != 0 && a[1..][k - 1] == x;
        }
      }
      AscendingUnique(a[1..], b[1..]);
    }
  }

  /** The `forEach` callback for one main-deck entry: appends the entry's frame
      colours and then the colours of its cost symbols. */
  method AddEntryColors(colorIndices: seq<int>, card: CardCount, db: int -> Option<CardData>, palette: Palette)
    returns (result: seq<int>)
    ensures result == colorIndices + Contribution(card, db, palette)
  {
    result := colorIndices;
    if card.quantity < 1 {
      return;
    }
    var cardData := db(card.id);
    if cardData.None? {
      return;
    }
    var data := cardData.value;
    var isLand := IsLand(data);
    if isLand && |data.frame| < 3 {
      result := result + data.frame;
    }
    assert result == colorIndices + FrameColors(data);
    ghost var framed := result;
    var j := 0;
    while j < |data.cost|
      invariant 0 <= j <= |data.cost|
      invariant result == framed + CostColors(data.cost[..j], palette)
    {
      var cost := data.cost[j];
      assert data.cost[..j + 1][..j] == data.cost[..j];
      if cost == "w" {
        result := result + [palette.white];
      } else if cost == "u" {
        result := result + [palette.blue];
      } else if cost == "b" {
        result := result + [palette.black];
      } else if cost == "r" {
        result := result + [palette.red];
      } else if cost == "g" {
        result := result + [palette.green];
      }
      j := j + 1;
    }
    assert data.cost[..j] == data.cost;
  }

  /** The body of `getDeckColors`: the colours of `mainDeck`, strictly ascending, holding
      exactly the colours its entries contribute. */
  method ComputeDeckColors(mainDeck: seq<CardCount>, db: int -> Option<CardData>, palette: Palette)
    returns (colors: seq<int>)
    ensures forall i, j :: 0 <= i < j < |colors| ==> colors[i] < colors[j]
    ensures forall c :: c in colors <==> c in Collected(mainDeck, db, palette)
  {
    var colorIndices: seq<int> := [];
    var i := 0;
    while i < |mainDeck|
      invariant 0 <= i <= |mainDeck|
      invariant colorIndices == Collected(mainDeck[..i], db, palette)
    {
      assert mainDeck[..i + 1][..i] == mainDeck[..i];
      assert mainDeck[..i + 1][i] == mainDeck[i];
      colorIndices := AddEntryColors(colorIndices, mainDeck[i], db, palette);
      i := i + 1;
    }
    assert mainDeck[..i] == mainDeck;
    colorIndices := Dedupe(colorIndices);
    colors := SortBy(colorIndices, Identity);
    SameValues(colorIndices, colors);
    DistinctMultiset(colorIndices, colors);
    SortedDistinctAscending(colors);
  }

  /** Lists with equal multisets hold the same values. */
  lemma SameValues(a: seq<int>, b: seq<int>)
    requires multiset(a) == multiset(b)
    ensures forall x :: x in a <==> x in b
  {
    forall x ensures x in a <==> x in b {
      assert x in a <==> x in multiset(a);
      assert x in b <==> x in multiset(b);
    }
  }

  /** A permutation of a list without repeats has no repeats. */
  lemma DistinctMultiset(a: seq<int>, b: seq<int>)
    requires Distinct(a) && multiset(a) == multiset(b)
    ensures Distinct(b)
  {
    forall i, j | 0 <= i < j < |b|
      ensures b[i] != b[j]
    {
      if b[i] == b[j] {
        assert multiset(b)[b[i]] >= 2 by {
          assert b == b[..j] + b[j..];
          assert b[i] in b[..j];
          assert multiset(b) == multiset(b[..j]) + multiset(b[j..]);
        }
        CountAtMostOne(a, b[i]);
      }
    }
  }

  /** In a list without repeats every value occurs at most once. */
  lemma {:induction false} CountAtMostOne(a: seq<int>, x: int)
    requires Distinct(a)
    ensures multiset(a)[x] <= 1
  {
    if a != [] {
      CountAtMostOne(a[1..], x);
      assert a == [a[0]] + a[1..];
      assert forall k :: 0 <= k < |a[1..]| ==> a[1..][k] == a[k + 1] && a[k + 1] != a[0];
    }
  }

  /** A deck record, whose `colors` field `getDeckColors` assigns. */
  class Deck {
    var mainDeck: seq<CardCount>
    var colors: seq<int>

    constructor (mainDeck: seq<CardCount>)
      ensures this.mainDeck == mainDeck && colors == []
    {
      this.mainDeck := mainDeck;
      colors := [];
    }

    /** `getDeckColors(deck)`: computes the colours, stores them in `colors` and returns them. */
    method GetDeckColors(db: int -> Option<CardData>, palette: Palette) returns (result: seq<int>)
      modifies this
      ensures mainDeck == old(mainDeck) && colors == result
      ensures forall i, j :: 0 <= i < j < |result| ==> result[i] < result[j]
      ensures forall c :: c in result <==> c in Collected(mainDeck, db, palette)
    {
      result := ComputeDeckColors(mainDeck, db, palette);
      colors := result;
    }
  }
}
