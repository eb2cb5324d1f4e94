# Monopoly server: turn logic, board, dice, cards and players

This project models the game core of a Monopoly server in Dafny and proves properties of it.
A client sends an action ("roll", "buy", "end_turn", ...), and the server's `Turn` object
checks whether that player may take the action at this stage of the game. If so, it plays the
action out on the game state. The state is the board's fields, the players, the dice and the
two card decks.

One module stands for each source file:

- `BoardDescription` is the static table of the 41 squares (40 on the track plus the jail).
- `Board` builds the fields from that table. Properties carry an owner, a mortgage flag and
  houses. The module holds the rent rules.
- `Dice` covers a throw and the streak of doubles.
- `Cards` holds the two card tables, the construction of a card and the deck that is drawn
  round and round.
- `CardCommands` holds what each card does to the players.
- `Players` covers the players kept by uuid in insertion order.
- `Encoders` is the length-prefixed framing of the wire messages.
- `MessageFactory` collects outgoing records.
- `Turn` is the stage machine that parses the client messages.

`Controller` stands for the game controller. The turn logic and the cards call its
operations (`pay`, `collect`, `move_to`, `move_by`, `buy_property`, `update`, `roll`,
`count_houses`), but the controller is not part of this model. Its operations are written
here as the call sites use them:

- `pay` debits the payer and credits the payee, if there is one.
- `collect` credits a player.
- `move_to` sets the field. A move onto the jail square sets the jail flag, a move off it
  clears it, and any other move keeps it.
  With the pass-GO check, a move to a lower square credits 200.
- `move_by` moves to `(field + delta) % 40`. By default it applies the pass-GO check.
- `buy_property` pays the price to the field's current owner (the bank when it is unowned,
  as it always is where the turn logic buys) and records the buyer as the owner.

Randomness is passed in as parameters: the dice faces, and the picks of a Fisher-Yates
shuffle.

The `Turn` class keeps the source's fields:

- the stage;
- the player on turn, held by uuid;
- the extra roll made for the "10xroll" rent;
- the special-rent tag.

It also holds the player order and a cursor that stand for the order cycler. Each handler
(`_roll_dice`, `_moved`, `_take_card`, `_pay_rent`, ...) is a method. Its contract states
the new players' map, the new stage and the decks' draw counts as functions of the old state.
`Turn.Valid` is the invariant that every handler keeps:

- outside the pre-game, every player stands on a square 0..40 and the player on turn is
  known;
- in a buying decision, the player stands on an unowned property;
- in a rent roll, the player stands on a property, the "10xroll" tag is set and no extra
  roll has been made yet.

A card that moves the player is handled again by `_moved`, which can draw another card.
That chain ends, and this is proved by ranking the card squares: every move a card makes
from a card square lands on a lower rank.

Python's semantics are followed where they matter:

- A roll object is always truthy, so `if self.extra_roll` tests that an extra roll exists.
- `_moved` matches the field's exact type, so the jail square matches no case.
- `_add_player` sets the stage to pre-game whoever sends it.
- Negative board indices count from the end.
- `Card(**entry)` raises `TypeError` when an entry has no `card_type`.
- `Players[...]` raises `KeyError` or `AttributeError`.

A "double" special-rent tag, left by a nearest-station card, stays set until the next
player's turn begins. Rent paid later in the same turn, after rolling doubles, is doubled
too. This is modelled as written.

## Model

| member | source | states |
|---|---|---|
| `Wrappers.IntToString` | players.py:13 | The default name's number is rendered as a non-empty decimal that starts with '-' exactly when it is negative, and whose decimal value (`DecimalValue`) is the number itself. |
| `Wrappers.NatToString` | players.py:13 | The digits of a natural number, read back by `DigitsValue`, give the number. |
| `Wrappers.IntToStringInjective` | players.py:13 | Different numbers are rendered as different strings. |
| `BoardDescription.CompositeMembers` | board_description.py:6-25 | PROPERTY is exactly STREET, RAILROAD or UTILITY. CARD is exactly CC or CHANCE. NONACTIVE is exactly GO, JUST_VISITING or FREE_PARKING. A base type carries no other base flag. |
| `BoardDescription.LandmarkFields` | board_description.py:54-615 | The table has 41 records. GO is at 0, just visiting at 10, free parking at 20, go-to-jail at 30 and the jail at 40, each under its own key. |
| `BoardDescription.RecordsFitTheirType` | board_description.py:54-615 | Every record has a single base type. Street data appears exactly on streets, tiered rents exactly on railroads and utilities, and a tax exactly on tax squares. |
| `BoardDescription.StreetTiers` | board_description.py:54-615 | On every street, double_rent is twice rent, and the rents rise strictly from rent through house_1..house_4 to hotel. |
| `BoardDescription.TieredRents` | board_description.py:54-615 | Railroads charge 25/50/100/200. Utilities multiply the roll by 4 or 10. |
| `BoardDescription.Railroads` | board_description.py:54-615 | The railroads are exactly squares 5, 15, 25 and 35. |
| `BoardDescription.Utilities` | board_description.py:54-615 | The utilities are exactly squares 12 and 28. |
| `BoardDescription.CardSquares` | board_description.py:54-615 | Community Chest is exactly 2, 17 and 33. Chance is exactly 7, 22 and 36. |
| `BoardDescription.MortgageIsHalfPrice` | board_description.py:54-615 | Every property's mortgage value is half its price. |
| `BoardDescription.FieldsListThemselves` | board_description.py:54-615 | Every property lists itself in its full_set. |
| `BoardDescription.FieldsSetsAgree` | board_description.py:54-615 | Every member of a property's full_set is a property with the same full_set. |
| `BoardDescription.FieldsSetsDistinct` | board_description.py:54-615 | No full_set names a square twice. |
| `BoardDescription.FieldsWellGrouped` | board_description.py:54-615 | The table satisfies the grouping invariant the rent rules rely on, with one rent tier per set member on railroads and utilities. |
| `Board.JailOutsideTheTrack` | board.py:142-149 | The jail position 40 lies outside the track 0..39 and is the table's last record. Square 10 is just visiting. |
| `Board.NewField` | board.py:15-27 | A field carries its table record. Only properties get an owner (None) and a mortgage flag (False), and only streets get houses (0). |
| `Board.FieldKinds` | board.py:105-112 | On the generated board, a field is a property exactly when it is a street, railroad or utility, and then it has an owner slot and priced data. A tax field has a tax. The card squares are at the listed positions. |
| `Board.FieldFacts` | board.py:105-120 | A street is a property. A property lists itself in a duplicate-free set of board positions. Railroads and utilities have one tier per set member. |
| `Board.PyIndex` | board.py:190 | An index is accepted exactly in -n..n-1, and a negative one counts from the end. |
| `Board.SetAttribute` | board.py:191-193 | Only owner, houses or mortgage, and only on a field that carries it, is written. Anything else is an AttributeError. The record and the other slots are unchanged. |
| `Board.Streets` | board.py:169-178 | The streets are no more than the fields. |
| `Board.StreetsMembers` | board.py:169-178 | A field is among the streets exactly when it is a board field of type STREET. |
| `Board.StreetsOfConcat` | board.py:176-178 | The filter distributes over concatenation, so order is kept. |
| `Board.SetCountBounds` | board.py:195-205 | The owned count is at least 1 (the field itself) and at most the set's size, and equals it on a full set. |
| `Board.OwnedCountBounds` | board.py:195-205 | On the generated board, 1 <= properties owned in the set <= the set's size. |
| `Board.FullSetIffAllCounted` | board.py:195-214 | has_full_set holds exactly when the owned count equals the size of the set. |
| `Board.MissingMemberShrinksCount` | board.py:207-214 | Without a full set, the owned count is below the set's size. |
| `Board.Rent` | board.py:52-75 | A rent exists exactly on a property. |
| `Board.UnbuiltStreetRent` | board.py:62-71 | A street without 1..5 houses charges rent, or double_rent when the set is full. |
| `Board.RentRisesWithHouses` | board.py:62-66 | One more house (up to a hotel) strictly raises a street's rent. |
| `Board.RailroadRent` | board.py:72-75 | A railroad charges the tier of the number of railroads its owner holds (25/50/100/200). |
| `Board.UtilityMultiplier` | board.py:72-75 | A utility's rent is the multiplier 10 with both utilities, else 4. |
| `Board.OldKentRoadWithTwoHouses` | board.py:63-64 | Old Kent Road with two houses charges 30. |
| `Board.BoardData.constructor` | board.py:151-154 | The board holds the generated fields, one per table record, in table order. |
| `Board.BoardData.Update` | board.py:180-193 | A bad index is an IndexError. A bad or absent attribute is an AttributeError that leaves the board unchanged. Otherwise exactly that field's slot is rewritten. |
| `Dice.NewRoll` | dice.py:12-13 | A roll has `count` faces, each in 1..sides. |
| `Dice.SumBounds` | dice.py:18-24 | The sum of a roll lies in count..count*sides. |
| `Dice.AllEqualTo` | dice.py:42 | True exactly when every face equals the given one. |
| `Dice.IsDoubleMeansOneFace` | dice.py:34-42 | A double means at least two dice, all showing the same face. |
| `Dice.TrailingDoubles` | dice.py:84-89 | The streak is no longer than the history and ends in a double. |
| `Dice.TripleDoubleMeansLastThree` | dice.py:57-64 | triple_double holds exactly when the last three registered rolls are doubles. |
| `Dice.Dice.constructor` | dice.py:47-55 | There is no last roll and no doubles, with the given count and sides. |
| `Dice.Dice.Reset` | dice.py:66-73 | The streak and the last roll are cleared. |
| `Dice.Dice.Roll` | dice.py:75-90 | A registered roll becomes the last roll and extends the doubles streak or resets it to 0. An unregistered roll changes nothing. |
| `Shuffling.Shuffle` | turn.py:251-252 | The shuffled sequence is a permutation of the input. |
| `Shuffling.Range` | turn.py:251 | `list(range(n))`. |
| `Shuffling.ShuffledRangeIsPermutation` | turn.py:251-252 | A shuffled player order holds each id 0..n-1 exactly once. |
| `Players.NewPlayer` | players.py:8-20 | A new player is named "Player <id+1>", with no token, cash 0, field -1, not ready, not in jail, no jail turns and no cards. |
| `Players.DefaultNamesDiffer` | players.py:13 | Players of different seats get different default names. |
| `Players.PublicAttributes` | players.py:29-35 | The six public attributes in order: player_id, name, token, cash, field, ready. |
| `Players.SetPlayerAttribute` | players.py:61-65 | An unknown attribute is an AttributeError. Otherwise the attribute takes the new value and every other attribute is unchanged. |
| `Players.FirstWithId` | players.py:47-52 | Finds a player with the id exactly when one exists, and the one found is the first such player in insertion order. |
| `Players.AllReady` | players.py:72-73 | True exactly when every player is ready and has a token. |
| `Players.UuidOfId` | players.py:75-79 | Succeeds exactly when some player has the id, and then gives the stored uuid of the first such player in insertion order. Otherwise it is a KeyError. |
| `Players.CountKeys` | players.py:55-59 | The number of players equals the number of uuids iterated. |
| `Players.IdsAndUuidsInverse` | players.py:75-82 | With unique ids, uuid_from_id and id_from_uuid are inverse. |
| `Players.Players.constructor` | players.py:39-40 | There are no players. |
| `Players.Players.Count` | players.py:55-56 | The count equals the number of players. |
| `Players.Players.Get` | players.py:42-53 | A uuid that is present gives that player. A known id gives the first player in insertion order with that id. Otherwise it is a KeyError, and any other key is an AttributeError. |
| `Players.Players.Update` | players.py:61-65 | A missing uuid is a KeyError. An unknown attribute is an AttributeError. Otherwise exactly that player's attribute is set. |
| `Players.Players.Add` | players.py:67-70 | Stores the new player under its uuid, appends the uuid when it is new, and returns the player. |
| `Players.Players.UuidFromId` | players.py:75-79 | Returns the first uuid, in insertion order, whose player has the id. Otherwise it is a KeyError. |
| `Players.Players.IdFromUuid` | players.py:81-82 | Returns the player's id exactly when the uuid is present. |
| `Cards.MakeCard` | chance_cc_cards.py:148-154 | Builds a card with the entry's fields exactly when the entry has a card_type. Otherwise it is a TypeError. |
| `Cards.CardsOf` | chance_cc_cards.py:260-262 | The deck builds exactly when every entry has a card_type, one card per entry in order. Otherwise it is a TypeError. |
| `Cards.BuildCards` | chance_cc_cards.py:261-262 | The building loop gives the same outcome as `CardsOf`. |
| `Cards.CardsOfPrefixFails` | chance_cc_cards.py:261-262 | One untyped entry makes the whole build fail. |
| `Cards.ChanceTableAsWrittenRaises` | chance_cc_cards.py:210 | The Chance table as written has no card_type at entry 12, so building it raises TypeError. |
| `Cards.TablesBuild` | chance_cc_cards.py:173-255 | With entry 12 typed, both tables build 16 cards. |
| `Cards.DeckCards` | chance_cc_cards.py:173-255 | A deck kind has 16 cards. |
| `Cards.DeckCardsFromTable` | chance_cc_cards.py:257-262 | A kind's cards are those its table builds, in table order. |
| `Cards.NewDeckCards` | chance_cc_cards.py:258-262 | The constructor's loop builds the kind's cards. |
| `Cards.ChanceEntriesTagged` | chance_cc_cards.py:173-219 | In the Chance table, only the go-to-jail entry ends the turn and has the go_to_jail type. "double" is exactly on nearest-station entries and "10xroll" exactly on the nearest-utility entry. |
| `Cards.CcEntriesTagged` | chance_cc_cards.py:220-255 | In the Community Chest table, only the go-to-jail entry ends the turn and no entry has a special rent. |
| `Cards.EntryTagged` | chance_cc_cards.py:173-255 | The same tags hold on every built card. |
| `Cards.SpecialRentTags` | chance_cc_cards.py:173-255 | Any card of a deck is tagged "double" exactly when it is Chance's nearest station, and "10xroll" exactly when it is Chance's nearest utility. It ends the turn exactly when it sends to jail. |
| `Cards.ChanceEntriesPlayable` | chance_cc_cards.py:173-219 | Every advance targets square 0, 5, 11, 24 or 39, and every "move" entry has a moving command. |
| `Cards.CcEntriesPlayable` | chance_cc_cards.py:220-255 | The same holds of the Community Chest table. |
| `Cards.DeckCardsPlayable` | chance_cc_cards.py:173-255 | Every built card is playable. |
| `Cards.ShuffledPlayable` | chance_cc_cards.py:263 | Every shuffle of a kind's cards is playable throughout. |
| `Cards.CardDeck.constructor` | chance_cc_cards.py:257-264 | The deck is 16 playable cards, a permutation of the kind's cards, with nothing drawn yet. |
| `Cards.CardDeck.Draw` | chance_cc_cards.py:267-269 | Returns the card at position drawn mod 16 of the fixed shuffled cycle, which becomes the last card. |
| `Cards.DrawnFromKind` | chance_cc_cards.py:263-269 | Every card of the cycle is one of the kind's cards. |
| `Encoders.PackLength` | encoders.py:23 | The `!I` length prefix is four bytes. |
| `Encoders.UnpackLength` | encoders.py:28 | The unpacked length is below 2^32. |
| `Encoders.UnpackPack` | encoders.py:23-28 | Unpacking a packed length gives it back. |
| `Encoders.Encode` | encoders.py:20-23 | A frame is the four-byte length of the payload followed by the payload. Lengths of 2^32 or more are not representable. |
| `Encoders.Decode` | encoders.py:25-43 | Fewer than four bytes decode to no messages. |
| `Encoders.RoundTripsFit` | encoders.py:20-23 | Messages that round-trip through the serialiser fit the length prefix. |
| `Encoders.DecodeFrameThen` | encoders.py:25-40 | Decoding one frame followed by more data gives that message followed by the rest's messages. |
| `Encoders.DecodeEncode` | encoders.py:20-40 | decode(encode(m)) == [m]. |
| `Encoders.DecodeFramesThen` | encoders.py:25-40 | Concatenated frames decode to their messages in order, followed by the rest's messages. |
| `Encoders.DecodeFrames` | encoders.py:20-40 | decode of concatenated encodings gives back exactly the messages. |
| `Encoders.FirstFrameFails` | encoders.py:41-43 | A first payload that does not deserialise gives no messages at all. |
| `MessageFactory.MessageFactory.constructor` | message_factory.py:6-7 | There are no records. |
| `MessageFactory.MessageFactory.Add` | message_factory.py:9-11 | Appends the record and returns the factory itself. |
| `MessageFactory.MessageFactory.Get` | message_factory.py:13-16 | Returns the serialised records collected so far and clears them. |
| `MessageFactory.AddAddGetGet` | message_factory.py:9-16 | Two adds then get serialise both records in order, and a second get serialises an empty list. |
| `Controller.Credit` | chance_cc_cards.py:62-63 | collect credits exactly that player. |
| `Controller.Transfer` | turn.py:205 | pay debits the payer and credits the payee, if any and distinct. Only cash changes, and only theirs. |
| `Controller.MovedTo` | chance_cc_cards.py:18-20 | move_to sets the field. A move onto the jail sets the jail flag, a move off it clears it, and any other move keeps it. It credits 200 for passing GO when checked. |
| `Controller.StepsAhead` | turn.py:154 | The destination is a track square congruent to field + delta mod 40. |
| `Controller.NoPropertyNoImprovements` | chance_cc_cards.py:115 | A player owning nothing counts no houses and no hotels. |
| `Controller.Controller.constructor` | game_controller.py:11-17 | A fresh game: no players, dice with no roll, and both decks shuffled. |
| `Controller.Controller.Pay` | turn.py:182 | The players become `Transfer` of the old players. |
| `Controller.Controller.Collect` | chance_cc_cards.py:63 | The players become `Credit` of the old players. |
| `Controller.Controller.MoveTo` | turn.py:141 | Only the mover changes, as `MovedTo`. |
| `Controller.Controller.MoveBy` | turn.py:154 | Only the mover changes, moving to `StepsAhead` of its field. |
| `Controller.Controller.BuyProperty` | turn.py:106 | The buyer pays the price to the field's current owner (the bank when it is unowned) and becomes the owner. Nothing else on the board changes. |
| `Controller.Controller.UpdatePlayer` | turn.py:290-295 | Sets the attribute. The result is true exactly when the value changed. |
| `Controller.Controller.Roll` | turn.py:216-222 | A roll of two six-sided dice, registered or not as asked. |
| `CardCommands.NearestStationAhead` | chance_cc_cards.py:43-46 | The nearest-station card lands on a railroad fewer than ten squares ahead. |
| `CardCommands.NearestUtilityAhead` | chance_cc_cards.py:50-57 | The nearest-utility card lands on the first utility reached going forward. |
| `CardCommands.GoBackThree` | chance_cc_cards.py:105-106 | Go back 3 lands three squares behind, wrapping past GO. |
| `CardCommands.MoveCardLowersRank` | chance_cc_cards.py:17-59 | A "move" card drawn on a card square lands on a track square of lower rank, so card chains end. |
| `CardCommands.RepairBills` | chance_cc_cards.py:113-122 | No improvements means no bill. Otherwise street repairs cost more than general repairs, and a hotel more than a house. |
| `CardCommands.EachPays` | chance_cc_cards.py:94-98 | The everyone-pays loop keeps the set of players. |
| `CardCommands.EachPaysOthers` | chance_cc_cards.py:94-98 | Every other player's cash moves by the amount once. Unlisted players are untouched. |
| `CardCommands.EachPaysOnTurn` | chance_cc_cards.py:141-145 | The player on turn's cash moves by the amount once per other player. |
| `CardCommands.EachPaysFields` | chance_cc_cards.py:94-98 | The loop changes only cash. |
| `CardCommands.Effect` | chance_cc_cards.py:17-145 | A card's effect keeps the set of players. |
| `CardCommands.EffectMoves` | chance_cc_cards.py:17-145 | Only the player on turn moves, and only under a moving command, to its destination. |
| `CardCommands.EffectKeepsPlayers` | chance_cc_cards.py:17-145 | Every player stays on a square 0..40 under its own uuid. |
| `CardCommands.EachPaysKeeps` | chance_cc_cards.py:94-98 | The loop keeps players under their uuids and owners registered. |
| `CardCommands.PayEachInTurn` | chance_cc_cards.py:96-98 | The loop over the players in order computes `EachPays`. |
| `CardCommands.EveryonePays` | chance_cc_cards.py:141-145 | The controller's players become `EachPays` of the old ones. |
| `CardCommands.Apply` | chance_cc_cards.py:156-157 | Applying a card turns the players into its `Effect`. |
| `CardCommands.ApplyMove` | chance_cc_cards.py:17-59 | A moving command's effect, run through the controller. |
| `CardCommands.ApplyPayment` | chance_cc_cards.py:61-145 | A non-moving command's effect, run through the controller. |
| `Turn.JailActions` | turn.py:312-318 | payout is always allowed. use_card is allowed exactly with a card, and roll exactly with fewer than three jail turns. |
| `Turn.ActionsPermitted` | turn.py:23-40 | For each of the nine actions, exactly who may send it at which stage. Anyone but the player on turn gets no actions after the pre-game. |
| `Turn.RentDue` | turn.py:186-201 | The rent is undetermined exactly while a "10xroll" still waits for its extra roll. |
| `Turn.TenTimesRollBounds` | turn.py:187-189 | The "10xroll" rent is a multiple of 10 in 20..120. |
| `Turn.DoubleRentIsTwice` | turn.py:200-201 | The "double" tag doubles the rent. |
| `Turn.UtilityRentDue` | turn.py:197-199 | A utility charges 10, or 4 without the full set, times the last roll. |
| `Turn.FixedRentDue` | turn.py:197 | Any other property charges its field rent, whatever the roll. |
| `Turn.Jailed` | turn.py:139-143 | Only the player on turn changes: it moves to the jail and is in jail. |
| `Turn.Released` | turn.py:145-148 | Only the player on turn changes: it is out of jail with no jail turns, on just visiting. |
| `Turn.SetEach` | turn.py:248-250 | Every listed player gets the attribute. The others and the keys are unchanged. |
| `Turn.StartingValues` | turn.py:249-250 | Writing initial cash then initial field gives cash 1500 on square 0. |
| `Turn.Turn.constructor` | turn.py:13-17 | The game starts in the pre-game with no player on turn and no extra roll. |
| `Turn.Turn.EndTurn` | turn.py:120-123 | The stage becomes end_turn and nothing else changes. |
| `Turn.Turn.EndRoll` | turn.py:112-118 | After a double the stage is begin_turn, else end_turn. |
| `Turn.Turn.GoToJail` | turn.py:139-143 | The player is jailed and the turn ends. |
| `Turn.Turn.LeaveJail` | turn.py:145-151 | The player is released onto just visiting and the stage is begin_turn. |
| `Turn.Turn.Payout` | turn.py:180-184 | The fine of 50 goes to the bank, then the player is released. |
| `Turn.Turn.UseCard` | turn.py:301-310 | One get-out-of-jail card is used, then the player is released. |
| `Turn.Turn.RollInJail` | turn.py:230-238 | An unregistered roll. A double releases the player. Otherwise the player gets one more jail turn and the turn ends. |
| `Turn.Turn.PayTax` | turn.py:209-213 | The square's tax goes to the bank, then the roll ends. |
| `Turn.Turn.OwnerRegistered` | turn.py:172-178 | The owner of the square, if any, is a registered player. |
| `Turn.Turn.PayRent` | turn.py:186-207 | Without the extra roll that "10xroll" needs, the stage becomes rent_roll and the players are unchanged. Otherwise `RentDue` is paid to the owner, the tag and the extra roll are cleared, and the roll ends. |
| `Turn.Turn.OnProperty` | turn.py:172-178 | An unowned property leads to a buying decision. One's own property ends the roll. Anyone else's charges the rent. |
| `Turn.Turn.TakeCard` | turn.py:262-278 | A card square draws one card from its own deck, and the turn stays consistent. |
| `Turn.Turn.Moved` | turn.py:158-170 | Each square type is resolved as the source matches it (`Landed`): GO, just visiting and free parking end the roll, go-to-jail jails the player, a tax goes to the bank, an unowned property waits for the buying decision, the player's own ends the roll, another's is paid rent, a card square draws a card. The jail square matches nothing. |
| `Turn.Turn.Move` | turn.py:153-156 | The player moves by the roll's sum, collecting 200 when passing GO, and the square reached is resolved as `Landed` states. |
| `Turn.Turn.RollDice` | turn.py:221-228 | A registered roll. The third double in a row jails the player. Any other roll moves the player by its sum, with the GO check, and the square reached is resolved as `Landed` states. |
| `Turn.Turn.RollForRent` | turn.py:215-219 | An unregistered extra roll, whose ten-fold sum is paid to the owner. |
| `Turn.Turn.BuyProperty` | turn.py:105-110 | The player pays the price, owns the square, and the roll ends. |
| `Turn.Turn.WriteEach` | turn.py:248-250 | Every player gets the attribute, and the players stay consistent. |
| `Turn.Turn.Unready` | turn.py:93-94 | Every player becomes not ready, and nothing else changes. |
| `Turn.Turn.AddNew` | turn.py:95 | The new player is stored under its uuid, and its uuid is appended when it is new. |
| `Turn.Turn.ResetDice` | turn.py:131 | The dice forget the last roll and the streak of doubles. |
| `Turn.Turn.Hand` | turn.py:128-137 | The given player is on turn with no tag and no extra roll, in the in_jail stage exactly when jailed, else begin_turn. |
| `Turn.Turn.EndTurnConfirmed` | turn.py:125-137 | The next id of the order goes on turn, the tag and the extra roll are cleared, and the dice reset. The stage is in_jail if that player is jailed, else begin_turn. A missing id is a KeyError. |
| `Turn.Turn.StartGame` | turn.py:240-260 | Unless every player is ready with a token and there are at least two, nothing changes. Otherwise every player gets 1500 on square 0, the order is a permutation of the ids, and its first player is on turn. |
| `Turn.Turn.ChooseOrder` | turn.py:251-260 | The order is a shuffle of 0..n-1, and the first player in it is on turn. |
| `Turn.Turn.AddPlayer` | turn.py:71-103 | Only the server adds players. Every player becomes not ready, the new player is stored, and the stage is pre_game. |
| `Turn.Turn.UpdatePlayer` | turn.py:284-299 | Only name, token or ready may be changed. The game starts when a change to ready leaves everyone ready, at least two: 1500 on square 0 for everyone, an order that is a permutation of the ids, and its first player on turn in the begin-turn stage (a KeyError if nobody has that id). |
| `Turn.Turn.Parse` | turn.py:42-68 | An action not permitted to the sender changes nothing. A permitted one is dispatched, and the roll depends on the stage. |

## Left out

- Logging, `send_event`, `add_message` and the initial message sent to a new player are not modelled. They are output to the clients and change no game state.
- `Field.full_info`, `get_info` and `BoardData.get_field_info` are not modelled. They only assemble dictionaries for the clients.
- The `BoardData.is_*`/`get_field_type` helpers are not modelled. They read a `field_type` attribute that the table records do not have.
- `full_set` names the squares by board position rather than by their string keys. The keys are unique, so membership is the same.
- A value of the wrong Python type written through `update` (a string as cash, say) is not modelled. Attributes are typed.
- `Board.BoardData.Update`: the item is an integer here. The source converts it with `int(item)` (board.py:190), which raises ValueError on a non-numeric string. That error is not modelled.
- The game controller is not part of this model. `Controller` stands for the parts the turn logic and the cards call: `pay`, `collect`, `move_to`, `move_by`, `buy_property`, `update`, `roll` and `count_houses`. The game data's change log and its observers are not modelled.
- The game data's `on_turn_player`, `add_player` and `player_order_cycler` are not in the repository. The player on turn is kept by uuid, and the cycler by the order and a cursor.
- `Turn.Turn.TakeCard`: the ensures states which deck is drawn from and the invariant kept. The card's effect on the players is stated by `CardCommands.Apply` and `CardCommands.Effect`, and the stage by the handler the card leads to. They are not composed into one formula over a chain of moves.
- `Turn.Turn.Moved`: on a card square the ensures states that a card is drawn, not the card's effect (see `Turn.Turn.TakeCard`).
- `Turn.Turn.Parse`: states the permission check and the invariant. The effect of each action is stated by the handler it dispatches to.
- `Turn.Turn.AddPlayer`: the new player's uuid and id come as one parameters value. A message without "parameters" is not modelled, only one without the uuid and id.
- Player objects are shared between the game data and the turn object in the source. Here players are values in one map, so a write through either reference is one map update.
- The source's loops write through the controller one player at a time. The model writes the resulting map once.
- The game data's `fields.GO`, `JAIL` and `JUST_VISITING` are read as 0, 40 and 10, the board's own constants.
- The card commands ignore the player argument some of them pass: the player on turn is always meant.
- `_start_game` locks the server against new connections (turn.py:256). The server is not part of this model.
- `special_rent` is not set in `Turn.__init__`, so reading it before the first card or turn change would raise AttributeError. The model starts it at no special rent.
- The "add_player" stage string that `get_possible_actions` accepts is never assigned, so it is not a stage here.
- The deck kinds (`chance` is Chance, `cc` is Community Chest) are not part of `Controller.Controller.Valid`. This keeps the verification cheap. `Turn` draws from the deck of the square's kind.
- Pickle's byte format is not modelled. Serialisation is a parameter that is assumed to read back what it writes.
- Randomness is not modelled: the dice faces and the shuffle choices are parameters.

## Findings

| source | as written | input that shows it | evidently intended | confidence | as-written member | corrected member |
|---|---|---|---|---|---|---|
| chance_cc_cards.py:210 | The Chance entry "Speeding fine £15" has no "card_type", and `Card.__init__` has no default for it. | `CardDeck(CardDeck.CHANCE)` raises TypeError at `Card(**card)` for entry 12. | The entry is typed "pay", like the other `pay_*` cards. | high (not executed) | `Cards.ChanceTableAsWrittenRaises` | `Cards.TablesBuild` |
