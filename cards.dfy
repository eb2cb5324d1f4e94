/** Chance and Community Chest cards: the card tables, the construction of a card from a table
    entry, and the deck that is shuffled once and then drawn round and round. */
module Cards {
  import opened Wrappers
  import opened Shuffling

  /** The effect a card's command has; the amounts and fields are those the table's commands
      name (`collect_50` is `Collect(50)`, `advance_to_field_24` is `AdvanceTo(24)`, and
      `advance_to_go` is `AdvanceTo(0)`, GO being field 0). */
  datatype Command =
    | AdvanceTo(target: nat)
    | NearestStation
    | NearestUtility
    | Collect(amount: nat)
    | CollectFromEveryone
    | GetOutOfJail
    | GoBack3
    | GoToJail
    | GeneralRepairs
    | StreetRepairs
    | Pay(amount: nat)
    | PayToEveryone

  /** The `card_type` strings of the tables: "move", "collect", "pay", "pay_each",
      "collect_from_each", "get_out_of_jail" and "go_to_jail". */
  datatype CardType = MoveCard | CollectCard | PayCard | PayEachCard | CollectFromEachCard | GetOutOfJailCard | GoToJailCard

  /** The `special_rent` strings: "" (none), "double" and "10xroll". */
  datatype SpecialRent = NoSpecialRent | DoubleRent | TenTimesRoll

  /** A table entry: the keyword arguments given to `Card(**entry)`; `cardType` is None where
      the entry has no "card_type" key. */
  datatype CardDict = CardDict(text: string, command: Command, cardType: Option<CardType>, endsTurn: bool, specialRent: SpecialRent)

  /** `Card`. */
  datatype Card = Card(text: string, command: Command, cardType: CardType, endsTurn: bool, specialRent: SpecialRent)

  /** `Card(**entry)`: `card_type` has no default, so an entry without it raises TypeError. */
  function MakeCard(d: CardDict): (r: Result<Card>)
    ensures r.Success? <==> d.cardType.Some?
    ensures r.Failure? ==> r.error == TypeError
    ensures r.Success? ==> r.value.text == d.text && r.value.command == d.command &&
                           Some(r.value.cardType) == d.cardType && r.value.endsTurn == d.endsTurn &&
                           r.value.specialRent == d.specialRent
  {
    if d.cardType.None? then Failure(TypeError)
    else Success(Card(d.text, d.command, d.cardType.value, d.endsTurn, d.specialRent))
  }

  function Entry(text: string, command: Command, cardType: CardType): CardDict {
    CardDict(text, command, Some(cardType), false, NoSpecialRent)
  }

  /** `CardDeck._CHANCE_CARDS` as written: entry 12 has no "card_type". */
  const CHANCE_CARDS_AS_WRITTEN: seq<CardDict> := [
    Entry("Advance to Go (Collect £200)", AdvanceTo(0), MoveCard),
    Entry("Advance to Trafalgar Square. If you pass Go, collect £200", AdvanceTo(24), MoveCard),
    Entry("Advance to Mayfair", AdvanceTo(39), MoveCard),
    Entry("Advance to Pall Mall. If you pass Go, collect £200", AdvanceTo(11), MoveCard),
    CardDict("Advance to the nearest Station. If unowned, you may buy it from the Bank. If owned, pay owner twice the rental to which they are otherwise entitled",
             NearestStation, Some(MoveCard), false, DoubleRent),
    CardDict("Advance to the nearest Station. If unowned, you may buy it from the Bank. If owned, pay owner twice the rental to which they are otherwise entitled",
             NearestStation, Some(MoveCard), false, DoubleRent),
    CardDict("Advance token to nearest Utility. If unowned, you may buy it from the Bank. If owned, throw dice and pay owner a total ten times amount thrown",
             NearestUtility, Some(MoveCard), false, TenTimesRoll),
    Entry("Bank pays you dividend of £50", Collect(50), CollectCard),
    Entry("Get Out of Jail Free", GetOutOfJail, GetOutOfJailCard),
    Entry("Go Back 3 Spaces", GoBack3, MoveCard),
    CardDict("Go to Jail. Go directly to Jail, do not pass Go, do not collect £200", GoToJail, Some(GoToJailCard), true, NoSpecialRent),
    Entry("Make general repairs on all your property. For each house pay £25. For each hotel pay £100", GeneralRepairs, PayCard),
    CardDict("Speeding fine £15", Pay(15), None, false, NoSpecialRent),
    Entry("Take a trip to Kings Cross Station. If you pass Go, collect £200", AdvanceTo(5), MoveCard),
    Entry("You have been elected Chairman of the Board. Pay each player £50", PayToEveryone, PayEachCard),
    Entry("Your building loan matures. Collect £150", Collect(150), CollectCard)
  ]

  /** The Chance table with entry 12 given the "pay" type its command evidently has. */
  const CHANCE_CARDS: seq<CardDict> := CHANCE_CARDS_AS_WRITTEN[12 := Entry("Speeding fine £15", Pay(15), PayCard)]

  /** `CardDeck._CC_CARDS`. */
  const CC_CARDS: seq<CardDict> := [
    Entry("Advance to Go (Collect £200)", AdvanceTo(0), MoveCard),
    Entry("Bank error in your favour. Collect £200", Collect(200), CollectCard),
    Entry("Doctor’s fee. Pay £50", Pay(50), PayCard),
    Entry("From sale of stock you get £50", Collect(50), CollectCard),
    Entry("Get Out of Jail Free", GetOutOfJail, GetOutOfJailCard),
    CardDict("Go to Jail. Go directly to jail, do not pass Go, do not collect £200", GoToJail, Some(GoToJailCard), true, NoSpecialRent),
    Entry("Holiday fund matures. Receive £100", Collect(100), CollectCard),
    Entry("Income tax refund. Collect £20", Collect(20), CollectCard),
    Entry("It is your birthday. Collect £10 from every player", CollectFromEveryone, CollectFromEachCard),
    Entry("Life insurance matures. Collect £100", Collect(100), PayCard),
    Entry("Pay hospital fees of £100", Pay(100), PayCard),
    Entry("Pay school fees of £50", Pay(50), PayCard),
    Entry("Receive £25 consultancy fee", Collect(25), CollectCard),
    Entry("You are assessed for street repairs. £40 per house. £115 per hotel", StreetRepairs, PayCard),
    Entry("You have won second prize in a beauty contest. Collect £10", Collect(10), CollectCard),
    Entry("You inherit £100", Collect(100), CollectCard)
  ]

  /** The cards a table builds, entry by entry, or the error of the first entry that fails. */
  function CardsOf(table: seq<CardDict>): (r: Result<seq<Card>>)
    ensures r.Success? <==> forall i :: 0 <= i < |table| ==> table[i].cardType.Some?
    ensures r.Success? ==> |r.value| == |table| && forall i :: 0 <= i < |table| ==> MakeCard(table[i]) == Success(r.value[i])
    ensures r.Failure? ==> r.error == TypeError
  {
    if table == [] then Success([])
    else
      var first := MakeCard(table[0]);
      var rest := CardsOf(table[1..]);
      if first.Failure? then Failure(first.error)
      else if rest.Failure? then rest
      else
        var r := Success([first.value] + rest.value);
        assert forall i :: 1 <= i < |table| ==> table[i] == table[1..][i - 1];
        r
  }

  /** The loop of `CardDeck.__init__`: one `Card(**entry)` per table entry, appended in order;
      the first entry that raises stops the construction. */
  method BuildCards(table: seq<CardDict>) returns (r: Result<seq<Card>>)
    ensures r == CardsOf(table)
  {
    var built: seq<Card> := [];
    var i := 0;
    while i < |table|
      invariant 0 <= i <= |table| && |built| == i
      invariant forall j :: 0 <= j < i ==> MakeCard(table[j]) == Success(built[j])
    {
      var card := MakeCard(table[i]);
      if card.Failure? {
        CardsOfPrefixFails(table, i);
        return Failure(card.error);
      }
      built := built + [card.value];
      i := i + 1;
    }
    r := Success(built);
    assert CardsOf(table).Success?;
    assert CardsOf(table).value == built;
  }

  lemma CardsOfPrefixFails(table: seq<CardDict>, i: nat)
    requires i < |table| && table[i].cardType.None?
    ensures CardsOf(table) == Failure(TypeError)
  {
  }

  /** Building the Chance deck from the table as written raises TypeError at entry 12. */
  lemma ChanceTableAsWrittenRaises()
    ensures CHANCE_CARDS_AS_WRITTEN[12].cardType.None?
    ensures CardsOf(CHANCE_CARDS_AS_WRITTEN) == Failure(TypeError)
  {
    CardsOfPrefixFails(CHANCE_CARDS_AS_WRITTEN, 12);
  }

  /** With entry 12 typed, both tables build sixteen cards. */
  lemma TablesBuild()
    ensures CardsOf(CHANCE_CARDS).Success? && |CardsOf(CHANCE_CARDS).value| == 16
    ensures CardsOf(CC_CARDS).Success? && |CardsOf(CC_CARDS).value| == 16
  {
    assert forall i :: 0 <= i < |CHANCE_CARDS| ==> CHANCE_CARDS[i].cardType.Some?;
    assert forall i :: 0 <= i < |CC_CARDS| ==> CC_CARDS[i].cardType.Some?;
  }

  /** The two decks a game uses. */
  datatype DeckType = Chance | CommunityChest

  function TableOf(kind: DeckType): seq<CardDict> {
    if kind == Chance then CHANCE_CARDS else CC_CARDS
  }

  /** The cards of a deck kind before shuffling. */
  function DeckCards(kind: DeckType): (cards: seq<Card>)
    ensures |cards| == 16
  {
    TablesBuild();
    CardsOf(TableOf(kind)).value
  }

  /** The cards of a deck kind are those its table builds, in table order. */
  lemma DeckCardsFromTable(kind: DeckType)
    ensures CardsOf(TableOf(kind)) == Success(DeckCards(kind))
    ensures forall i :: 0 <= i < 16 ==> MakeCard(TableOf(kind)[i]) == Success(DeckCards(kind)[i])
  {
    TablesBuild();
  }

  /** The cards `CardDeck.__init__` builds for a deck kind, before shuffling. */
  method NewDeckCards(kind: DeckType) returns (cards: seq<Card>)
    ensures cards == DeckCards(kind)
  {
    var table := TableOf(kind);
    var built := BuildCards(table);
    DeckCardsFromTable(kind);
    cards := built.value;
  }

  /** What each entry of a (typed) table says about tags and turn endings. */
  ghost predicate TaggedAsIntended(kind: DeckType, d: CardDict) {
    (d.endsTurn <==> d.command == GoToJail) &&
    (d.command == GoToJail <==> d.cardType == Some(GoToJailCard)) &&
    (d.specialRent == DoubleRent <==> kind == Chance && d.command == NearestStation) &&
    (d.specialRent == TenTimesRoll <==> kind == Chance && d.command == NearestUtility)
  }

  lemma ChanceEntriesTagged()
    ensures forall i :: 0 <= i < |CHANCE_CARDS| ==> TaggedAsIntended(Chance, CHANCE_CARDS[i])
  {
  }

  lemma CcEntriesTagged()
    ensures forall i :: 0 <= i < |CC_CARDS| ==> TaggedAsIntended(CommunityChest, CC_CARDS[i])
  {
  }

  lemma EntryTagged(kind: DeckType, i: nat)
    requires i < 16
    ensures var c := DeckCards(kind)[i];
      (c.endsTurn <==> c.command == GoToJail) &&
      (c.command == GoToJail <==> c.cardType == GoToJailCard) &&
      (c.specialRent == DoubleRent <==> kind == Chance && c.command == NearestStation) &&
      (c.specialRent == TenTimesRoll <==> kind == Chance && c.command == NearestUtility)
  {
    DeckCardsFromTable(kind);
    var d := TableOf(kind)[i];
    if kind == Chance { ChanceEntriesTagged(); } else { CcEntriesTagged(); }
    assert TaggedAsIntended(kind, d);
  }

  /** The special-rent tags: the two nearest-station cards carry "double" and the
      nearest-utility card "10xroll", no other card of either deck carries one; only the
      two go-to-jail cards end the turn. */
  lemma SpecialRentTags(kind: DeckType, c: Card)
    requires c in DeckCards(kind)
    ensures c.specialRent == DoubleRent <==> kind == Chance && c.command == NearestStation
    ensures c.specialRent == TenTimesRoll <==> kind == Chance && c.command == NearestUtility
    ensures c.endsTurn <==> c.command == GoToJail
    ensures c.command == GoToJail <==> c.cardType == GoToJailCard
  {
    var cards := DeckCards(kind);
    var i :| 0 <= i < 16 && cards[i] == c;
    EntryTagged(kind, i);
  }

  /** What the game relies on of a card: an advance goes to one of the track squares the
      tables name, and a card typed as a move moves by one of the moving commands. */
  predicate Playable(c: Card) {
    (c.command.AdvanceTo? ==> c.command.target in {0, 5, 11, 24, 39}) &&
    (c.cardType == MoveCard ==>
       c.command.AdvanceTo? || c.command == NearestStation || c.command == NearestUtility || c.command == GoBack3)
  }

  /** `Playable` on a table entry. */
  predicate PlayableEntry(d: CardDict) {
    (d.command.AdvanceTo? ==> d.command.target in {0, 5, 11, 24, 39}) &&
    (d.cardType == Some(MoveCard) ==>
       d.command.AdvanceTo? || d.command == NearestStation || d.command == NearestUtility || d.command == GoBack3)
  }

  lemma ChanceEntriesPlayable()
    ensures forall i :: 0 <= i < |CHANCE_CARDS| ==> PlayableEntry(CHANCE_CARDS[i])
  {
  }

  lemma CcEntriesPlayable()
    ensures forall i :: 0 <= i < |CC_CARDS| ==> PlayableEntry(CC_CARDS[i])
  {
  }

  /** Every card of either deck is playable. */
  lemma DeckCardsPlayable(kind: DeckType, i: nat)
    requires i < 16
    ensures i < |DeckCards(kind)| && Playable(DeckCards(kind)[i])
  {
    DeckCardsFromTable(kind);
    if kind == Chance { ChanceEntriesPlayable(); } else { CcEntriesPlayable(); }
    assert PlayableEntry(TableOf(kind)[i]);
  }

  /** Any arrangement of a kind's cards is playable throughout. */
  lemma ShuffledPlayable(kind: DeckType, s: seq<Card>)
    requires multiset(s) == multiset(DeckCards(kind))
    ensures forall i :: 0 <= i < |s| ==> Playable(s[i])
  {
    var cards := DeckCards(kind);
    forall i | 0 <= i < |s| ensures Playable(s[i]) {
      assert s[i] in multiset(cards);
      var j :| 0 <= j < |cards| && cards[j] == s[i];
      DeckCardsPlayable(kind, j);
    }
  }

  /** `CardDeck`: the cards of one kind, shuffled once; `drawn` counts the draws so far, so
      the cycler stands at position `drawn % |deck|`. The deck itself never changes. */
  class CardDeck {
    const kind: DeckType
    const deck: seq<Card>
    var drawn: nat
    var lastCard: Option<Card>

    /** Sixteen playable cards. */
    ghost predicate Valid() {
      |deck| == 16 && forall i :: 0 <= i < |deck| ==> Playable(deck[i])
    }

    /** The deck is a shuffle of the kind's cards. */
    ghost predicate Shuffled() {
      multiset(deck) == multiset(DeckCards(kind))
    }

    /** `CardDeck.__init__`: build the table's cards, shuffle them once with the given random
        choices, and start the cycle at the first shuffled card. */
    constructor (kind: DeckType, picks: seq<nat>)
      requires PicksFit(picks, 16)
      ensures Valid() && Shuffled() && this.kind == kind
      ensures drawn == 0 && lastCard == None
    {
      var cards := NewDeckCards(kind);
      var shuffled := Shuffle(cards, picks);
      this.kind := kind;
      deck := shuffled;
      drawn := 0;
      lastCard := None;
      ShuffledPlayable(kind, shuffled);
    }

    /** `draw`: the next card of the cycle, which becomes the last card; the cycle repeats the
        same sixteen cards in the same order and never reshuffles. */
    method Draw() returns (card: Card)
      requires Valid()
      modifies this
      ensures card == deck[old(drawn) % |deck|] && Playable(card)
      ensures drawn == old(drawn) + 1 && lastCard == Some(card)
    {
      card := deck[drawn % |deck|];
      drawn := drawn + 1;
      lastCard := Some(card);
    }
  }

  /** Whatever position the cycle stands at, the drawn card is one of the kind's cards. */
  lemma DrawnFromKind(d: CardDeck, i: nat)
    requires d.Shuffled() && i < |d.deck|
    ensures d.deck[i] in DeckCards(d.kind)
  {
    assert d.deck[i] in multiset(d.deck);
  }
}
