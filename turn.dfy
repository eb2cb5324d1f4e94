/** The turn engine: which actions each client may send in each stage of the game, and the
    handlers that carry the game from stage to stage through the controller. */
module Turn {
  import opened Wrappers
  import opened BoardDescription
  import opened Board
  import opened Dice
  import opened Cards
  import opened Players
  import opened Shuffling
  import opened Controller
  import opened CardCommands

  /** `config.payout_price`: the fine that frees a player from the jail. */
  const PAYOUT_PRICE := 50
  /** `config.initial_cash` and `config.initial_field`: where every player starts. */
  const INITIAL_CASH := 1500
  const INITIAL_FIELD := 0

  /** The values `Turn.stage` takes: "pre_game", "begin_turn", "in_jail", "rent_roll",
      "buying_decision" and "end_turn". */
  datatype Stage = PreGame | BeginTurn | InJail | RentRoll | BuyingDecision | EndTurn

  /** The parameters of a client message as the handlers read them: those of "add_player",
      those of "update_player", or none of the keys they look up (which raises KeyError). */
  datatype Parameters =
    | NoParameters
    | AddParameters(playerUuid: Uuid, playerId: int)
    | UpdateParameters(attribute: PlayerAttribute)

  /** A client message: the sender (`my_uuid`), the action and its parameters. */
  datatype Message = Message(sender: Uuid, action: string, parameters: Parameters)

  /** `_get_possible_actions_in_jail`: the fine can always be paid, a card used while one is
      held, and the dice tried fewer than three times. */
  function JailActions(p: Player): (r: set<string>)
    ensures "payout" in r
    ensures "use_card" in r <==> p.getOutOfJailCards > 0
    ensures "roll" in r <==> p.jailTurns < 3
    ensures r <= {"payout", "use_card", "roll"}
  {
    {"payout"} + (if p.getOutOfJailCards > 0 then {"use_card"} else {}) +
    (if p.jailTurns < 3 then {"roll"} else {})
  }

  /** `get_possible_actions(player_uuid)`. `actor` is the player on turn; reading the uuid of
      a missing one raises AttributeError. */
  function PossibleActions(sender: Uuid, server: Uuid, stage: Stage, actor: Option<Player>): Result<set<string>>
  {
    if sender == server then Success({"add_player"})
    else if stage == PreGame then Success({"update_player", "start_game"})
    else if actor.None? then Failure(AttributeError)
    else if sender != actor.value.uuid then Success({})
    else match stage
      case BeginTurn => Success({"roll"})
      case InJail => Success(JailActions(actor.value))
      case RentRoll => Success({"roll"})
      case BuyingDecision => Success({"buy", "auction"})
      case EndTurn => Success({"end_turn"})
  }

  /** The sender is the player on turn, in a running game, and not the server. */
  predicate ActsOnTurn(sender: Uuid, server: Uuid, stage: Stage, actor: Option<Player>) {
    sender != server && stage != PreGame && actor.Some? && sender == actor.value.uuid
  }

  /** Every action, and exactly who may send it in which stage: the server only adds players;
      before the game anyone else may update themselves or start; afterwards only the player on
      turn acts, and only as its stage allows. */
  lemma ActionsPermitted(sender: Uuid, server: Uuid, stage: Stage, actor: Option<Player>)
    requires stage != PreGame ==> actor.Some?
    ensures PossibleActions(sender, server, stage, actor).Success?
    ensures var r := PossibleActions(sender, server, stage, actor).value;
            var on := ActsOnTurn(sender, server, stage, actor);
            ("add_player" in r <==> sender == server) &&
            ("update_player" in r <==> sender != server && stage == PreGame) &&
            ("start_game" in r <==> sender != server && stage == PreGame) &&
            ("roll" in r <==> on && (stage == BeginTurn || stage == RentRoll ||
                                     (stage == InJail && actor.value.jailTurns < 3))) &&
            ("payout" in r <==> on && stage == InJail) &&
            ("use_card" in r <==> on && stage == InJail && actor.value.getOutOfJailCards > 0) &&
            ("buy" in r <==> on && stage == BuyingDecision) &&
            ("auction" in r <==> on && stage == BuyingDecision) &&
            ("end_turn" in r <==> on && stage == EndTurn)
    ensures sender != server && stage != PreGame && sender != actor.value.uuid ==>
              PossibleActions(sender, server, stage, actor).value == {}
  {
    if ActsOnTurn(sender, server, stage, actor) && stage == InJail {
      var p := actor.value;
      assert PossibleActions(sender, server, stage, actor).value == JailActions(p);
    }
  }

  /** The attributes `_update_player` lets players change about themselves: name, token and
      readiness. */
  predicate SelfEditable(a: PlayerAttribute) {
    a.NameAttr? || a.TokenAttr? || a.ReadyAttr?
  }

  /** The stage `_end_roll` moves to: another roll after a double, else the end of the turn. */
  function AfterRoll(r: Roll): Stage {
    if IsDouble(r) then BeginTurn else EndTurn
  }

  /** The rent `_pay_rent` charges on property `i`: with the "10xroll" tag ten times the extra
      roll (None while that roll is still to be made); otherwise the field's rent, times the
      last roll on a utility, doubled with the "double" tag. */
  function RentDue(fields: seq<Field>, i: nat, special: SpecialRent, extra: Option<Roll>, last: Roll): (due: Option<int>)
    requires Generated(fields) && i < |fields| && IsProperty(fields[i])
    ensures due.None? <==> special == TenTimesRoll && extra.None?
  {
    if special == TenTimesRoll then
      if extra.Some? then Some(Sum(extra.value) * 10) else None
    else
      var base := Rent(fields, i).value;
      var byRoll := if fields[i].info.ftype == UTILITY then base * Sum(last) else base;
      Some(if special == DoubleRent then byRoll * 2 else byRoll)
  }

  /** A "10xroll" rent is ten times the extra throw of two six-sided dice: 20 to 120. */
  lemma TenTimesRollBounds(fields: seq<Field>, i: nat, extra: Roll, last: Roll)
    requires Generated(fields) && i < |fields| && IsProperty(fields[i]) && FacesFit(extra.faces, 2, 6)
    ensures var due := RentDue(fields, i, TenTimesRoll, Some(extra), last);
            due.Some? && 20 <= due.value <= 120 && due.value % 10 == 0
  {
    SumBounds(extra, 2, 6);
  }

  /** A "double" rent is twice what the same square charges without the tag. */
  lemma DoubleRentIsTwice(fields: seq<Field>, i: nat, extra: Option<Roll>, last: Roll)
    requires Generated(fields) && i < |fields| && IsProperty(fields[i])
    ensures RentDue(fields, i, DoubleRent, extra, last).value == 2 * RentDue(fields, i, NoSpecialRent, extra, last).value
  {
  }

  /** Without a tag a utility charges the last roll 4 times, or 10 times when its owner holds
      both utilities. */
  lemma UtilityRentDue(fields: seq<Field>, i: nat, extra: Option<Roll>, last: Roll)
    requires Generated(fields) && i < |fields| && fields[i].info.ftype == UTILITY
    ensures IsProperty(fields[i])
    ensures RentDue(fields, i, NoSpecialRent, extra, last) == Some((if HasFullSet(fields, i) then 10 else 4) * Sum(last))
  {
    FieldKinds(fields, i);
    UtilityMultiplier(fields, i);
  }

  /** Without a tag a street or a railroad charges its rent, whatever the dice showed. */
  lemma FixedRentDue(fields: seq<Field>, i: nat, extra: Option<Roll>, last: Roll, other: Roll)
    requires Generated(fields) && i < |fields| && IsProperty(fields[i]) && fields[i].info.ftype != UTILITY
    ensures RentDue(fields, i, NoSpecialRent, extra, last) == Rent(fields, i)
    ensures RentDue(fields, i, NoSpecialRent, extra, last) == RentDue(fields, i, NoSpecialRent, extra, other)
  {
  }

  /** `_go_to_jail` on the players: the player is moved to the jail, which sets the jail flag,
      without passing GO. */
  function Jailed(m: map<Uuid, Player>, u: Uuid): (r: map<Uuid, Player>)
    requires u in m
    ensures r.Keys == m.Keys
    ensures r[u].field == JAIL_POSITION && r[u].inJail
    ensures r[u] == m[u].(field := r[u].field, inJail := true)
    ensures forall v :: v in m && v != u ==> r[v] == m[v]
  {
    m[u := MovedTo(m[u], JAIL_POSITION, false)]
  }

  /** `_leave_jail` on the players: the jail flag and the count of jail turns are cleared and
      the player stands on just visiting, without collecting the GO cash. */
  function Released(m: map<Uuid, Player>, u: Uuid): (r: map<Uuid, Player>)
    requires u in m
    ensures r.Keys == m.Keys
    ensures r[u].field == JUST_VISITING_POSITION && !r[u].inJail && r[u].jailTurns == 0
    ensures r[u] == m[u].(field := r[u].field, inJail := false, jailTurns := 0)
    ensures forall v :: v in m && v != u ==> r[v] == m[v]
  {
    m[u := MovedTo(m[u].(inJail := false, jailTurns := 0), JUST_VISITING_POSITION, false)]
  }

  /** The loop over all players that writes one attribute through the controller, on the
      players' values: each listed player gets the attribute, nobody else changes. */
  method SetEach(m: map<Uuid, Player>, keys: seq<Uuid>, a: PlayerAttribute) returns (r: map<Uuid, Player>)
    requires !a.OtherAttr? && !a.UuidAttr?
    requires Distinct(keys) && forall k :: k in keys ==> k in m
    ensures r.Keys == m.Keys
    ensures forall u :: u in m ==> r[u] == if u in keys then SetPlayerAttribute(m[u], a).value else m[u]
    ensures StoredUnderOwnUuid(m) ==> StoredUnderOwnUuid(r)
  {
    r := m;
    var i := 0;
    assert keys[..0] == [];
    while i < |keys|
      invariant 0 <= i <= |keys|
      invariant r.Keys == m.Keys
      invariant forall u :: u in m ==> r[u] == if u in keys[..i] then SetPlayerAttribute(m[u], a).value else m[u]
    {
      var k := keys[i];
      assert keys[..i + 1] == keys[..i] + [k];
      assert k !in keys[..i] by {
        forall j | 0 <= j < i ensures keys[..i][j] != k {
          assert keys[..i][j] == keys[j];
        }
      }
      r := r[k := SetPlayerAttribute(r[k], a).value];
      i := i + 1;
    }
    assert keys[..i] == keys;
    if StoredUnderOwnUuid(m) {
      forall u | u in r ensures r[u].uuid == u {
        SetKeepsUuid(m[u], a);
      }
    }
  }

  /** Writing the initial cash and then the initial field puts a player at the start and
      changes nothing else. */
  lemma StartingValues(p: Player)
    ensures SetPlayerAttribute(SetPlayerAttribute(p, CashAttr(INITIAL_CASH)).value, FieldAttr(INITIAL_FIELD)).value ==
            p.(cash := INITIAL_CASH, field := INITIAL_FIELD)
  {
  }

  /** Replacing every player by one stored under its own uuid, over the same uuids, keeps the
      owners registered and the key list in step with the players. */
  lemma PlayersReplaced(m: map<Uuid, Player>, r: map<Uuid, Player>, keys: seq<Uuid>, fields: seq<Field>)
    requires r.Keys == m.Keys
    requires OwnersRegistered(fields, m) && forall v :: v in keys <==> v in m
    ensures OwnersRegistered(fields, r) && forall v :: v in keys <==> v in r
  {
  }

  /** The turn engine over its controller. `onTurn` is the player on turn, `playerOrder` the
      shuffled order of player ids and `cursor` how many of its cycle have been taken. */
  class Turn {
    const controller: Controller
    var onTurn: Option<Uuid>
    var extraRoll: Option<Roll>
    var stage: Stage
    var specialRent: SpecialRent
    var playerOrder: seq<int>
    var cursor: nat

    /** The objects the engine changes: itself and the controller's game data. */
    ghost function Repr(): set<object> {
      {this, controller, controller.players, controller.board, controller.dice, controller.chance, controller.cc}
    }

    /** A registered player is on turn and an order of play exists. */
    ghost predicate OnTurnKnown()
      reads this, controller.players
    {
      onTurn.Some? && onTurn.value in controller.players.players && |playerOrder| > 0
    }

    /** The game is running: the controller is consistent, every player is on the board and a
        player is on turn. */
    ghost predicate Playing()
      reads Repr()
    {
      controller.Valid() && AllOnBoard(controller.players.players) && OnTurnKnown()
    }

    /** Playing, after a registered roll. */
    ghost predicate Rolled()
      reads Repr()
    {
      Playing() && controller.dice.lastRoll.Some?
    }

    /** The position of the player on turn. */
    function Position(): int
      requires onTurn.Some? && onTurn.value in controller.players.players
      reads this, controller.players
    {
      controller.players.players[onTurn.value].field
    }

    /** `on_turn_player_field`. */
    function Here(): Field
      requires Playing()
      reads Repr()
    {
      LandmarkFields();
      controller.board.fields[Position()]
    }

    /** The player on turn as `get_possible_actions` reads it. */
    function Actor(): Option<Player>
      reads this, controller.players
    {
      if onTurn.Some? && onTurn.value in controller.players.players then Some(controller.players.players[onTurn.value])
      else None
    }

    /** `on_turn_player_field.tax`, on a tax square. */
    function TaxHere(): int
      requires Playing() && Here().info.ftype == TAX
      reads Repr()
    {
      FieldKinds(controller.board.fields, Position());
      Here().info.data.tax
    }

    /** `on_turn_player_field.price`, on a property. */
    function PriceHere(): int
      requires Playing() && IsProperty(Here())
      reads Repr()
    {
      FieldKinds(controller.board.fields, Position());
      Here().info.data.price
    }

    /** Outside the pre-game a player is on turn and on the board; a buying decision is about
        the unowned property the player stands on; a rent roll is owed on a property under the
        "10xroll" tag before the extra roll is made. */
    ghost predicate Valid()
      reads Repr()
    {
      controller.Valid() &&
      (stage != PreGame ==> AllOnBoard(controller.players.players) && OnTurnKnown()) &&
      (stage == BuyingDecision ==> Rolled() && IsProperty(Here()) && Here().owner == Present(None)) &&
      (stage == RentRoll ==> Rolled() && IsProperty(Here()) && specialRent == TenTimesRoll && extraRoll.None?)
    }

    /** The player on turn and the order of play stay as they were. */
    twostate predicate KeepsTurn()
      reads this
    {
      onTurn == old(onTurn) && playerOrder == old(playerOrder) && cursor == old(cursor)
    }

    /** `Turn.__init__`: the pre-game, nobody on turn. */
    constructor (controller: Controller)
      requires controller.Valid()
      ensures Valid() && this.controller == controller
      ensures stage == PreGame && onTurn == None && extraRoll == None && specialRent == NoSpecialRent
      ensures playerOrder == [] && cursor == 0
    {
      this.controller := controller;
      onTurn := None;
      extraRoll := None;
      stage := PreGame;
      specialRent := NoSpecialRent;
      playerOrder := [];
      cursor := 0;
    }

    /** `_end_turn`. */
    method EndTurn()
      requires Playing()
      modifies this
      ensures Valid() && Playing() && stage == Stage.EndTurn
      ensures KeepsTurn() && extraRoll == old(extraRoll) && specialRent == old(specialRent)
    {
      stage := Stage.EndTurn;
    }

    /** `_end_roll`: after a double the player rolls again, otherwise the turn ends. */
    method EndRoll()
      requires Rolled()
      modifies this
      ensures Valid() && Rolled() && stage == AfterRoll(controller.dice.lastRoll.value)
      ensures KeepsTurn() && extraRoll == old(extraRoll) && specialRent == old(specialRent)
    {
      if IsDouble(controller.dice.lastRoll.value) {
        stage := BeginTurn;
      } else {
        EndTurn();
      }
    }

    /** `_go_to_jail`: the player on turn goes to the jail, and the turn ends. */
    method GoToJail()
      requires Playing()
      modifies this, controller.players
      ensures Valid() && Playing() && stage == Stage.EndTurn
      ensures KeepsTurn() && extraRoll == old(extraRoll) && specialRent == old(specialRent)
      ensures controller.players.players == Jailed(old(controller.players.players), onTurn.value)
    {
      controller.MoveTo(JAIL_POSITION, onTurn.value, false);
      EndTurn();
    }

    /** `_leave_jail`: the player on turn is freed onto just visiting and rolls next. */
    method LeaveJail()
      requires Playing()
      modifies this, controller.players
      ensures Valid() && Playing() && stage == BeginTurn
      ensures KeepsTurn() && extraRoll == old(extraRoll) && specialRent == old(specialRent)
      ensures controller.players.players == Released(old(controller.players.players), onTurn.value)
    {
      var u := onTurn.value;
      var p := controller.players.players[u];
      var q := p.(inJail := false, jailTurns := 0);
      PlayerReplaced(controller.players.players, controller.players.keys, controller.board.fields, u, q);
      controller.players.players := controller.players.players[u := q];
      controller.MoveTo(JUST_VISITING_POSITION, u, false);
      stage := BeginTurn;
    }

    /** `_payout`: the fine goes to the bank and the player leaves the jail. */
    method Payout()
      requires Playing()
      modifies this, controller.players
      ensures Valid() && Playing() && stage == BeginTurn
      ensures KeepsTurn() && extraRoll == old(extraRoll) && specialRent == old(specialRent)
      ensures var u := onTurn.value;
              controller.players.players == Released(Transfer(old(controller.players.players), PAYOUT_PRICE, u, None), u)
    {
      controller.Pay(PAYOUT_PRICE, onTurn.value, None);
      LeaveJail();
    }

    /** `_use_card`: one get-out-of-jail card is given up and the player leaves the jail. */
    method UseCard()
      requires Playing()
      modifies this, controller.players
      ensures Valid() && Playing() && stage == BeginTurn
      ensures KeepsTurn() && extraRoll == old(extraRoll) && specialRent == old(specialRent)
      ensures var u := onTurn.value;
              var m := old(controller.players.players);
              controller.players.players == Released(m[u := m[u].(getOutOfJailCards := m[u].getOutOfJailCards - 1)], u)
    {
      var u := onTurn.value;
      var p := controller.players.players[u];
      var q := p.(getOutOfJailCards := p.getOutOfJailCards - 1);
      PlayerReplaced(controller.players.players, controller.players.keys, controller.board.fields, u, q);
      controller.players.players := controller.players.players[u := q];
      LeaveJail();
    }

    /** `_roll_in_jail`: an unregistered roll; a double frees the player, anything else counts
        one more turn in the jail and ends the turn. */
    method RollInJail(faces: seq<int>)
      requires Playing() && FacesFit(faces, 2, 6)
      modifies this, controller.players, controller.dice
      ensures Valid() && Playing()
      ensures KeepsTurn() && extraRoll == old(extraRoll) && specialRent == old(specialRent)
      ensures controller.dice.lastRoll == old(controller.dice.lastRoll) && controller.dice.doubles == old(controller.dice.doubles)
      ensures var u := onTurn.value;
              var m := old(controller.players.players);
              if IsDouble(NewRoll(2, 6, faces)) then
                stage == BeginTurn && controller.players.players == Released(m, u)
              else
                stage == Stage.EndTurn && controller.players.players == m[u := m[u].(jailTurns := m[u].jailTurns + 1)]
    {
      var r := controller.dice.Roll(false, faces);
      if IsDouble(r) {
        LeaveJail();
      } else {
        var u := onTurn.value;
        var p := controller.players.players[u];
        var q := p.(jailTurns := p.jailTurns + 1);
        PlayerReplaced(controller.players.players, controller.players.keys, controller.board.fields, u, q);
        controller.players.players := controller.players.players[u := q];
        EndTurn();
      }
    }

    /** `_pay_tax`: the square's tax goes to the bank and the roll ends. */
    method PayTax()
      requires Rolled() && Here().info.ftype == TAX
      modifies this, controller.players
      ensures Valid() && Rolled() && KeepsTurn()
      ensures controller.players.players == Transfer(old(controller.players.players), old(TaxHere()), onTurn.value, None)
      ensures stage == AfterRoll(controller.dice.lastRoll.value)
      ensures extraRoll == old(extraRoll) && specialRent == old(specialRent)
    {
      controller.Pay(TaxHere(), onTurn.value, None);
      EndRoll();
    }

    /** What `_pay_rent` leaves, given the players `m`, the rent `due`, the square's owner and
        the tag and extra roll it found: a rent still to be rolled for stops at the rent roll;
        otherwise the rent has gone from the player on turn to the owner, a "10xroll" tag and
        its roll are spent (any other tag stays), and the roll ends. */
    ghost predicate RentSettled(m: map<Uuid, Player>, due: Option<int>, owner: Option<Uuid>, special: SpecialRent, extra: Option<Roll>)
      reads Repr()
      requires Rolled() && onTurn.value in m && (owner.Some? ==> owner.value in m)
    {
      if due.None? then
        stage == RentRoll && controller.players.players == m && specialRent == special && extraRoll == extra
      else
        controller.players.players == Transfer(m, due.value, onTurn.value, owner) &&
        stage == AfterRoll(controller.dice.lastRoll.value) &&
        if special == TenTimesRoll then specialRent == NoSpecialRent && extraRoll == None
        else specialRent == special && extraRoll == extra
    }

    /** The owner of the property the player on turn stands on is a registered player. */
    lemma OwnerRegistered()
      requires Playing() && IsProperty(Here())
      ensures Here().owner.Present?
      ensures Here().owner.value.Some? ==> Here().owner.value.value in controller.players.players
    {
      FieldKinds(controller.board.fields, Position());
    }

    /** `_pay_rent`, proved against `RentDue`. */
    method PayRent()
      requires Rolled() && IsProperty(Here())
      modifies this, controller.players
      ensures Valid() && Rolled() && KeepsTurn()
      ensures old(Here().owner.Present? && (Here().owner.value.Some? ==> Here().owner.value.value in controller.players.players))
      ensures RentSettled(old(controller.players.players),
                          old(RentDue(controller.board.fields, Position(), specialRent, extraRoll, controller.dice.lastRoll.value)),
                          old(Here().owner.value), old(specialRent), old(extraRoll))
    {
      OwnerRegistered();
      var u := onTurn.value;
      var i := Position();
      var f := Here();
      var rent: int;
      if specialRent == TenTimesRoll {
        if extraRoll.Some? {
          rent := Sum(extraRoll.value) * 10;
          specialRent := NoSpecialRent;
          extraRoll := None;
        } else {
          stage := RentRoll;
          return;
        }
      } else {
        rent := Rent(controller.board.fields, i).value;
        if f.info.ftype == UTILITY {
          rent := rent * Sum(controller.dice.lastRoll.value);
        }
        if specialRent == DoubleRent {
          rent := rent * 2;
        }
      }
      controller.Pay(rent, u, f.owner.value);
      EndRoll();
    }

    /** `_on_property`: an unowned property waits for the buying decision, the player's own
        ends the roll, anyone else's is paid rent. */
    method OnProperty()
      requires Rolled() && IsProperty(Here())
      modifies this, controller.players
      ensures Valid() && Rolled() && KeepsTurn()
      ensures old(Here().owner.Present? && (Here().owner.value.Some? ==> Here().owner.value.value in controller.players.players))
      ensures old(Here().owner.value) == None ==>
                stage == BuyingDecision && controller.players.players == old(controller.players.players)
      ensures old(Here().owner.value) == Some(onTurn.value) ==>
                stage == AfterRoll(controller.dice.lastRoll.value) && controller.players.players == old(controller.players.players)
      ensures old(Here().owner.value).Some? && old(Here().owner.value) != Some(onTurn.value) ==>
                RentSettled(old(controller.players.players),
                            old(RentDue(controller.board.fields, Position(), specialRent, extraRoll, controller.dice.lastRoll.value)),
                            old(Here().owner.value), old(specialRent), old(extraRoll))
    {
      OwnerRegistered();
      var owner := Here().owner.value;
      if owner.None? {
        stage := BuyingDecision;
      } else if owner.value == onTurn.value {
        EndRoll();
      } else {
        PayRent();
      }
    }

    /** `_take_card`: the next card of the square's deck is applied; a special-rent tag on it
        is kept; a move card resolves the square it leads to, a go-to-jail card sends the player
        to the jail, a card that ends the turn ends it and any other ends the roll. */
    method TakeCard()
      requires Rolled() && stage == BeginTurn && (Here().info.ftype == CC || Here().info.ftype == CHANCE)
      modifies this, controller.players, controller.chance, controller.cc
      decreases Rank(Position()), 0
      ensures Valid() && Rolled() && KeepsTurn()
      ensures controller.chance.drawn >= old(controller.chance.drawn) && controller.cc.drawn >= old(controller.cc.drawn)
      ensures old(Here().info.ftype) == CC ==> controller.cc.drawn > old(controller.cc.drawn)
      ensures old(Here().info.ftype) == CHANCE ==> controller.chance.drawn > old(controller.chance.drawn)
    {
      var u := onTurn.value;
      var i := Position();
      FieldKinds(controller.board.fields, i);
      var deck := if Here().info.ftype == CC then controller.cc else controller.chance;
      var card := deck.Draw();
      var m := controller.players.players;
      var keys := controller.players.keys;
      EffectKeepsPlayers(card.command, m, keys, controller.board.fields, u);
      EffectMoves(card.command, m, keys, controller.board.fields, u);
      Apply(controller, card, u);
      if card.specialRent != NoSpecialRent {
        specialRent := card.specialRent;
      }
      if card.cardType == MoveCard {
        MoveCardLowersRank(card, i);
        Moved();
      } else if card.cardType == GoToJailCard {
        GoToJail();
      } else if card.endsTurn {
        EndTurn();
      } else {
        EndRoll();
      }
    }

    /** What `_moved` leaves once the player on turn has reached square `i`, given the players
        `m`, the tag, the extra roll and the draw counts found there: GO, just visiting and free
        parking end the roll; the jail (whose type matches no case) changes nothing; go-to-jail
        jails the player; a tax is paid to the bank; an unowned property waits for the buying
        decision, the player's own ends the roll and anyone else's is paid rent; a card square
        draws a card. */
    ghost predicate Landed(m: map<Uuid, Player>, i: int, special: SpecialRent, extra: Option<Roll>, chanceDrawn: nat, ccDrawn: nat)
      reads Repr()
      requires Rolled() && 0 <= i <= JAIL_POSITION && onTurn.value in m && OwnersRegistered(controller.board.fields, m)
    {
      LandmarkFields();
      FieldKinds(controller.board.fields, i);
      var f := controller.board.fields[i];
      var t := f.info.ftype;
      var u := onTurn.value;
      var after := AfterRoll(controller.dice.lastRoll.value);
      (t == GO || t == JUST_VISITING || t == FREE_PARKING ==> stage == after && controller.players.players == m) &&
      (t == JAIL ==> stage == BeginTurn && controller.players.players == m) &&
      (t == GO_TO_JAIL ==> stage == Stage.EndTurn && controller.players.players == Jailed(m, u)) &&
      (t == TAX ==> stage == after && controller.players.players == Transfer(m, f.info.data.tax, u, None)) &&
      (IsProperty(f) && f.owner == Present(None) ==> stage == BuyingDecision && controller.players.players == m) &&
      (IsProperty(f) && f.owner == Present(Some(u)) ==> stage == after && controller.players.players == m) &&
      (IsProperty(f) && f.owner.Present? && f.owner.value.Some? && f.owner.value.value != u ==>
         RentSettled(m, RentDue(controller.board.fields, i, special, extra, controller.dice.lastRoll.value), f.owner.value, special, extra)) &&
      (t == CC || t == CHANCE ==> controller.chance.drawn + controller.cc.drawn > chanceDrawn + ccDrawn)
    }

    /** `_moved`: what the square reached asks for, by its exact type. */
    method Moved()
      requires Rolled() && stage == BeginTurn
      modifies this, controller.players, controller.chance, controller.cc
      decreases Rank(Position()), 1
      ensures Valid() && Rolled() && KeepsTurn()
      ensures controller.chance.drawn >= old(controller.chance.drawn) && controller.cc.drawn >= old(controller.cc.drawn)
      ensures Landed(old(controller.players.players), old(Position()), old(specialRent), old(extraRoll),
                     old(controller.chance.drawn), old(controller.cc.drawn))
    {
      var i := Position();
      FieldKinds(controller.board.fields, i);
      var t := Here().info.ftype;
      if t == GO || t == JUST_VISITING || t == FREE_PARKING {
        EndRoll();
      } else if t == STREET || t == RAILROAD || t == UTILITY {
        OnProperty();
      } else if t == TAX {
        PayTax();
      } else if t == CC || t == CHANCE {
        TakeCard();
      } else if t == GO_TO_JAIL {
        GoToJail();
      }
    }

    /** `_move`: forward by the last roll, collecting the GO cash when passing it, then the
        square reached is resolved. */
    method Move()
      requires Rolled() && stage == BeginTurn
      modifies this, controller.players, controller.chance, controller.cc
      ensures Valid() && Rolled() && KeepsTurn()
      ensures var m := old(controller.players.players);
              var p := m[onTurn.value];
              var dest := StepsAhead(p.field, Sum(controller.dice.lastRoll.value));
              Landed(m[onTurn.value := MovedTo(p, dest, true)], dest, old(specialRent), old(extraRoll),
                     old(controller.chance.drawn), old(controller.cc.drawn))
    {
      controller.MoveBy(Sum(controller.dice.lastRoll.value), onTurn.value, true);
      Moved();
    }

    /** `_roll_dice`: a registered roll; the third double in a row sends the player to the jail
        without moving, any other roll moves the player by its sum and resolves the square. */
    method RollDice(faces: seq<int>)
      requires Playing() && stage == BeginTurn && FacesFit(faces, 2, 6)
      modifies this, controller.players, controller.dice, controller.chance, controller.cc
      ensures Valid() && Playing() && KeepsTurn()
      ensures controller.dice.lastRoll == Some(NewRoll(2, 6, faces))
      ensures controller.dice.doubles == if IsDouble(NewRoll(2, 6, faces)) then old(controller.dice.doubles) + 1 else 0
      ensures controller.dice.doubles >= 3 ==>
                stage == Stage.EndTurn && controller.players.players == Jailed(old(controller.players.players), onTurn.value)
      ensures controller.dice.doubles < 3 ==>
                var m := old(controller.players.players);
                var p := m[onTurn.value];
                var dest := StepsAhead(p.field, Sum(NewRoll(2, 6, faces)));
                Rolled() &&
                Landed(m[onTurn.value := MovedTo(p, dest, true)], dest, old(specialRent), old(extraRoll),
                       old(controller.chance.drawn), old(controller.cc.drawn))
    {
      var r := controller.Roll(true, faces);
      if controller.dice.TripleDouble() {
        GoToJail();
      } else {
        Move();
      }
    }

    /** `_rent_roll`: the extra, unregistered roll a "10xroll" rent waits for; ten times it is
        paid to the owner. */
    method RollForRent(faces: seq<int>)
      requires Valid() && stage == RentRoll && FacesFit(faces, 2, 6)
      modifies this, controller.players, controller.dice
      ensures Valid() && Rolled() && KeepsTurn()
      ensures controller.dice.lastRoll == old(controller.dice.lastRoll) && controller.dice.doubles == old(controller.dice.doubles)
      ensures old(Here().owner.Present? && (Here().owner.value.Some? ==> Here().owner.value.value in controller.players.players))
      ensures controller.players.players ==
                Transfer(old(controller.players.players), Sum(NewRoll(2, 6, faces)) * 10, onTurn.value, old(Here().owner.value))
      ensures stage == AfterRoll(controller.dice.lastRoll.value) && specialRent == NoSpecialRent && extraRoll == None
    {
      var r := controller.Roll(false, faces);
      extraRoll := Some(r);
      PayRent();
    }

    /** `_buy_property`: the player on turn pays the price to the bank, owns the square, and
        the roll ends. */
    method BuyProperty()
      requires Valid() && stage == BuyingDecision
      modifies this, controller.players, controller.board
      ensures Valid() && Rolled() && KeepsTurn()
      ensures controller.players.players == Transfer(old(controller.players.players), old(PriceHere()), onTurn.value, None)
      ensures controller.board.fields ==
                old(controller.board.fields)[old(Position()) := old(Here()).(owner := Present(Some(onTurn.value)))]
      ensures stage == AfterRoll(controller.dice.lastRoll.value)
    {
      var i := Position();
      FieldKinds(controller.board.fields, i);
      controller.BuyProperty(i, onTurn.value);
      EndRoll();
    }

    /** `controller.update(section="players", item=player, attribute=a, value=...)` for every
        player in turn. */
    method WriteEach(a: PlayerAttribute)
      requires controller.Valid() && !a.OtherAttr? && !a.UuidAttr?
      modifies controller.players
      ensures controller.Valid() && controller.players.keys == old(controller.players.keys)
      ensures controller.players.players.Keys == old(controller.players.players).Keys
      ensures forall u :: u in old(controller.players.players) ==>
                controller.players.players[u] == SetPlayerAttribute(old(controller.players.players)[u], a).value
    {
      var m := controller.players.players;
      var r := SetEach(m, controller.players.keys, a);
      PlayersReplaced(m, r, controller.players.keys, controller.board.fields);
      controller.players.players := r;
    }

    /** `_end_turn_confirmed`: the next id of the order's cycle is looked up (KeyError when no
        player has it); that player is on turn with no tag, no extra roll and fresh dice, and
        starts in the jail stage exactly when jailed. */
    method EndTurnConfirmed() returns (o: Outcome)
      requires Valid() && stage == Stage.EndTurn
      modifies this, controller.dice
      ensures Valid()
      ensures playerOrder == old(playerOrder) && cursor == old(cursor) + 1
      ensures var next := UuidOfId(controller.players.keys, controller.players.players, playerOrder[old(cursor) % |playerOrder|]);
              if next.Failure? then
                o == Fail(KeyError) && stage == old(stage) && onTurn == old(onTurn)
              else
                o == Pass && onTurn == Some(next.value) && next.value in controller.players.players &&
                specialRent == NoSpecialRent && extraRoll == None &&
                controller.dice.lastRoll == None && controller.dice.doubles == 0 &&
                stage == if controller.players.players[next.value].inJail then InJail else BeginTurn
    {
      var id := playerOrder[cursor % |playerOrder|];
      cursor := cursor + 1;
      var next := controller.players.UuidFromId(id);
      if next.Failure? {
        return Fail(next.error);
      }
      ResetDice();
      Hand(next.value);
      o := Pass;
    }

    /** The end of `_end_turn_confirmed`: player `u` is on turn, with no tag and no extra
        roll, in the jail stage exactly when jailed. */
    method Hand(u: Uuid)
      requires controller.Valid() && AllOnBoard(controller.players.players) && |playerOrder| > 0
      requires u in controller.players.players
      modifies this
      ensures Valid() && playerOrder == old(playerOrder) && cursor == old(cursor)
      ensures onTurn == Some(u) && specialRent == NoSpecialRent && extraRoll == None
      ensures stage == if controller.players.players[u].inJail then InJail else BeginTurn
    {
      onTurn := Some(u);
      specialRent := NoSpecialRent;
      extraRoll := None;
      if controller.players.players[u].inJail {
        stage := InJail;
      } else {
        stage := BeginTurn;
      }
    }

    /** `_start_game`: with every player ready and at least two of them, each gets the initial
        cash on the initial field, the ids 0..n-1 are shuffled into the order of play, and the
        first of it is on turn (KeyError when no player has that id). */
    method StartGame(picks: seq<nat>) returns (o: Outcome)
      requires Valid() && stage == PreGame && PicksFit(picks, |controller.players.keys|)
      modifies this, controller.players
      ensures Valid() && controller.players.keys == old(controller.players.keys)
      ensures var m := old(controller.players.players);
              !(AllReady(old(controller.players.keys), m) && |m| >= 2) ==>
                o == Pass && controller.players.players == m && stage == PreGame && onTurn == old(onTurn) &&
                playerOrder == old(playerOrder) && cursor == old(cursor)
      ensures var m := old(controller.players.players);
              AllReady(old(controller.players.keys), m) && |m| >= 2 ==>
                controller.players.players.Keys == m.Keys &&
                (forall u :: u in m ==> controller.players.players[u] == m[u].(cash := INITIAL_CASH, field := INITIAL_FIELD)) &&
                |playerOrder| == |m| && multiset(playerOrder) == multiset(Range(|m|)) && cursor == 1 &&
                var first := UuidOfId(controller.players.keys, controller.players.players, playerOrder[0]);
                (first.Failure? ==> o == Fail(KeyError) && stage == PreGame) &&
                (first.Success? ==> o == Pass && onTurn == Some(first.value) && stage == BeginTurn)
    {
      CountKeys(controller.players.keys, controller.players.players);
      if !controller.players.IsAllReady() || controller.players.Count() < 2 {
        return Pass;
      }
      ghost var m := controller.players.players;
      WriteEach(CashAttr(INITIAL_CASH));
      WriteEach(FieldAttr(INITIAL_FIELD));
      forall u | u in m ensures controller.players.players[u] == m[u].(cash := INITIAL_CASH, field := INITIAL_FIELD) {
        StartingValues(m[u]);
      }
      o := ChooseOrder(picks);
    }

    /** `dice.reset()` at the change of turn. */
    method ResetDice()
      requires controller.Valid()
      modifies controller.dice
      ensures controller.Valid() && controller.dice.lastRoll == None && controller.dice.doubles == 0
    {
      controller.dice.Reset();
    }

    /** The end of `_start_game`: the ids 0..n-1 shuffled into the order of play, whose first
        id's player is on turn (KeyError when no player has it). */
    method ChooseOrder(picks: seq<nat>) returns (o: Outcome)
      requires controller.Valid() && AllOnBoard(controller.players.players) && stage == PreGame
      requires |controller.players.keys| >= 2 && PicksFit(picks, |controller.players.keys|)
      modifies this
      ensures Valid()
      ensures |playerOrder| == |controller.players.keys| && multiset(playerOrder) == multiset(Range(|controller.players.keys|))
      ensures cursor == 1
      ensures var first := UuidOfId(controller.players.keys, controller.players.players, playerOrder[0]);
              (first.Failure? ==> o == Fail(KeyError) && stage == PreGame) &&
              (first.Success? ==> o == Pass && onTurn == Some(first.value) && stage == BeginTurn)
    {
      var order := Shuffle(Range(|controller.players.keys|), picks);
      playerOrder := order;
      cursor := 1;
      var first := controller.players.UuidFromId(order[0]);
      if first.Failure? {
        return Fail(first.error);
      }
      onTurn := Some(first.value);
      stage := BeginTurn;
      o := Pass;
    }

    /** `_add_player`: only the server adds players. Every player becomes unready, then the
        new one is added; the game is back in the pre-game stage, whoever sent the message. */
    method AddPlayer(sender: Uuid, parameters: Parameters) returns (o: Outcome)
      requires Valid()
      modifies this, controller.players
      ensures Valid()
      ensures sender != controller.serverUuid ==>
                o == Pass && stage == PreGame && controller.players.players == old(controller.players.players) &&
                controller.players.keys == old(controller.players.keys)
      ensures var m := old(controller.players.players);
              sender == controller.serverUuid && !parameters.AddParameters? ==>
                o == Fail(KeyError) && stage == old(stage) && controller.players.players.Keys == m.Keys &&
                forall u :: u in m ==> controller.players.players[u] == m[u].(ready := false)
      ensures var m := old(controller.players.players);
              sender == controller.serverUuid && parameters.AddParameters? ==>
                var added := parameters.playerUuid;
                o == Pass && stage == PreGame &&
                controller.players.players.Keys == m.Keys + {added} &&
                controller.players.players[added] == NewPlayer(added, parameters.playerId) &&
                (forall u :: u in m && u != added ==> controller.players.players[u] == m[u].(ready := false)) &&
                controller.players.keys == if added in old(controller.players.keys) then old(controller.players.keys)
                                           else old(controller.players.keys) + [added]
    {
      if sender != controller.serverUuid {
        stage := PreGame;
        return Pass;
      }
      Unready();
      if !parameters.AddParameters? {
        return Fail(KeyError);
      }
      AddNew(parameters.playerUuid, parameters.playerId);
      stage := PreGame;
      o := Pass;
    }

    /** The loop of `_add_player` that makes every player unready; nobody moves. */
    method Unready()
      requires Valid()
      modifies controller.players
      ensures Valid() && controller.players.keys == old(controller.players.keys)
      ensures controller.players.players.Keys == old(controller.players.players).Keys
      ensures forall u :: u in old(controller.players.players) ==>
                controller.players.players[u] == old(controller.players.players)[u].(ready := false)
    {
      ghost var m := controller.players.players;
      WriteEach(ReadyAttr(false));
      forall u | u in m ensures controller.players.players[u] == m[u].(ready := false) {
      }
      assert forall u :: u in m ==> controller.players.players[u].field == m[u].field;
      assert onTurn.Some? && onTurn.value in m ==> Position() == m[onTurn.value].field;
    }

    /** `gd.add_player`: the new player is stored under its uuid. */
    method AddNew(added: Uuid, playerId: int)
      requires controller.Valid()
      modifies controller.players
      ensures controller.Valid()
      ensures controller.players.players == old(controller.players.players)[added := NewPlayer(added, playerId)]
      ensures controller.players.keys == if added in old(controller.players.keys) then old(controller.players.keys)
                                         else old(controller.players.keys) + [added]
    {
      var p := controller.players.Add(added, playerId);
    }

    /** `_update_player`: the sender must be a player (KeyError otherwise); only its name,
        token or readiness may change; a change of readiness that leaves every player ready,
        at least two of them, starts the game. */
    method UpdatePlayer(sender: Uuid, parameters: Parameters, picks: seq<nat>) returns (o: Outcome)
      requires Valid() && stage == PreGame && PicksFit(picks, |controller.players.keys|)
      modifies this, controller.players
      ensures Valid() && controller.players.keys == old(controller.players.keys)
      ensures sender !in old(controller.players.players) || !parameters.UpdateParameters? ==>
                o == Fail(KeyError) && controller.players.players == old(controller.players.players) && stage == PreGame
      ensures sender in old(controller.players.players) && parameters.UpdateParameters? && !SelfEditable(parameters.attribute) ==>
                o == Pass && controller.players.players == old(controller.players.players) && stage == PreGame
      ensures var m := old(controller.players.players);
              sender in m && parameters.UpdateParameters? && SelfEditable(parameters.attribute) ==>
                var a := parameters.attribute;
                var m1 := m[sender := SetPlayerAttribute(m[sender], a).value];
                var starts := ValueOf(m[sender], a) != Some(a) && a.ReadyAttr? &&
                              AllReady(old(controller.players.keys), m1) && |m1| >= 2;
                (!starts ==> o == Pass && controller.players.players == m1 && stage == PreGame) &&
                (starts ==> controller.players.players.Keys == m.Keys &&
                            (forall u :: u in m ==> controller.players.players[u] == m1[u].(cash := INITIAL_CASH, field := INITIAL_FIELD)) &&
                            |playerOrder| == |m| && multiset(playerOrder) == multiset(Range(|m|)) && cursor == 1 &&
                            var first := UuidOfId(controller.players.keys, controller.players.players, playerOrder[0]);
                            (first.Failure? ==> o == Fail(KeyError) && stage == PreGame) &&
                            (first.Success? ==> o == Pass && onTurn == Some(first.value) && stage == BeginTurn))
    {
      if sender !in controller.players.players || !parameters.UpdateParameters? {
        return Fail(KeyError);
      }
      var a := parameters.attribute;
      if !SelfEditable(a) {
        return Pass;
      }
      var changed := controller.UpdatePlayer(sender, a);
      o := Pass;
      if changed && a.ReadyAttr? {
        CountKeys(controller.players.keys, controller.players.players);
        if controller.players.IsAllReady() && controller.players.Count() >= 2 {
          o := StartGame(picks);
        }
      }
    }

    /** `parse`: an action the sender may not take changes nothing; any other goes to its
        handler, a roll by the stage it is made in. */
    method Parse(msg: Message, faces: seq<int>, picks: seq<nat>) returns (o: Outcome)
      requires Valid() && FacesFit(faces, 2, 6) && PicksFit(picks, |controller.players.keys|)
      modifies Repr()
      ensures Valid()
      ensures old(PossibleActions(msg.sender, controller.serverUuid, stage, Actor())).Success?
      ensures msg.action !in old(PossibleActions(msg.sender, controller.serverUuid, stage, Actor())).value ==>
                o == Pass && unchanged(Repr())
      ensures old(stage) != PreGame && msg.action != "add_player" && msg.sender != old(onTurn.value) ==>
                o == Pass && unchanged(Repr())
    {
      var actor := Actor();
      ActionsPermitted(msg.sender, controller.serverUuid, stage, actor);
      var allowed := PossibleActions(msg.sender, controller.serverUuid, stage, actor).value;
      if msg.action !in allowed {
        return Pass;
      }
      o := Pass;
      if msg.action == "add_player" {
        o := AddPlayer(msg.sender, msg.parameters);
      } else if msg.action == "update_player" {
        o := UpdatePlayer(msg.sender, msg.parameters, picks);
      } else if msg.action == "start_game" {
        o := StartGame(picks);
      } else if msg.action == "roll" {
        if stage == RentRoll {
          RollForRent(faces);
        } else if stage == InJail {
          RollInJail(faces);
        } else {
          RollDice(faces);
        }
      } else if msg.action == "payout" {
        Payout();
      } else if msg.action == "use_card" {
        UseCard();
      } else if msg.action == "buy" {
        BuyProperty();
      } else if msg.action == "auction" {
        EndRoll();
      } else if msg.action == "end_turn" {
        o := EndTurnConfirmed();
      }
    }
  }
}
