/** The controller the turn engine works through: the game's board, players, dice and decks,
    and the money, movement and purchase operations on them. The repository's controller is
    not part of this model; the operations below are a stand-in whose behaviour is ASSUMED,
    each as the engine's call sites use it:
    - `pay(amount, payer, payee)` debits the payer and credits the payee when one is given;
    - `collect(amount, player)` credits the player;
    - `move_to(field, player, check_pass_go)` sets the field; entering the jail sets the jail
      flag and leaving the jail position clears it; with `check_pass_go`, a destination below
      the origin credits the GO cash; the check is off unless asked for;
    - `move_by(delta, player, check_pass_go)` moves to `(field + delta) % 40`, with the check on
      unless asked otherwise;
    - `buy_property(field, buyer)` pays the field's price to its owner (the bank when unowned)
      and makes the buyer the owner;
    - `update` on a player changes one attribute and reports whether its value changed;
    - `roll(register)` rolls the game's dice, registering the roll unless asked otherwise. */
module Controller {
  import opened Wrappers
  import opened BoardDescription
  import opened Board
  import opened Dice
  import opened Cards
  import opened Players
  import opened Shuffling

  /** Every player sits on a board position: a square 0..39 or the jail, 40. */
  ghost predicate AllOnBoard(m: map<Uuid, Player>) {
    forall u :: u in m ==> 0 <= m[u].field <= JAIL_POSITION
  }

  /** Every player is stored under its own uuid. */
  ghost predicate StoredUnderOwnUuid(m: map<Uuid, Player>) {
    forall u :: u in m ==> m[u].uuid == u
  }

  /** Every owner on the board is a registered player. */
  ghost predicate OwnersRegistered(fields: seq<Field>, m: map<Uuid, Player>) {
    forall i :: 0 <= i < |fields| && fields[i].owner.Present? && fields[i].owner.value.Some? ==>
      fields[i].owner.value.value in m
  }

  /** The player `u` with `amount` added to its cash (a debit when negative). */
  function Credit(m: map<Uuid, Player>, u: Uuid, amount: int): (r: map<Uuid, Player>)
    requires u in m
    ensures r.Keys == m.Keys && r[u].cash == m[u].cash + amount
    ensures r[u] == m[u].(cash := m[u].cash + amount)
    ensures forall v :: v in m && v != u ==> r[v] == m[v]
  {
    m[u := m[u].(cash := m[u].cash + amount)]
  }

  /** `pay`: the payer loses `amount`; the payee, when given, gains it; no one else changes. */
  function Transfer(m: map<Uuid, Player>, amount: int, payer: Uuid, payee: Option<Uuid>): (r: map<Uuid, Player>)
    requires payer in m && (payee.Some? ==> payee.value in m)
    ensures r.Keys == m.Keys
    ensures payee.None? || payee.value != payer ==> r[payer].cash == m[payer].cash - amount
    ensures payee.Some? && payee.value != payer ==> r[payee.value].cash == m[payee.value].cash + amount
    ensures payee == Some(payer) ==> r[payer] == m[payer]
    ensures forall v :: v in m ==> r[v] == m[v].(cash := r[v].cash)
    ensures forall v :: v in m && v != payer && Some(v) != payee ==> r[v] == m[v]
  {
    var debited := Credit(m, payer, -amount);
    if payee.Some? then Credit(debited, payee.value, amount) else debited
  }

  /** `move_to`: the new position, the jail flag and any GO cash of the moved player. */
  function MovedTo(p: Player, dest: int, checkPassGo: bool): (q: Player)
    ensures q.field == dest
    ensures q.inJail == (dest == JAIL_POSITION || (p.field != JAIL_POSITION && p.inJail))
    ensures q.cash == p.cash + (if checkPassGo && dest < p.field then GO_CASH else 0)
    ensures q == p.(field := q.field, inJail := q.inJail, cash := q.cash)
  {
    p.(field := dest,
       inJail := if dest == JAIL_POSITION then true else if p.field == JAIL_POSITION then false else p.inJail,
       cash := if checkPassGo && dest < p.field then p.cash + GO_CASH else p.cash)
  }

  /** `move_by`'s destination: Python's `%` with a positive modulus, which is Dafny's. */
  function StepsAhead(field: int, delta: int): (dest: int)
    ensures 0 <= dest < BOARD_LENGTH && (dest - field - delta) % BOARD_LENGTH == 0
  {
    (field + delta) % BOARD_LENGTH
  }

  /** Houses (one to four on a street) and hotels (five) on the streets `owner` owns, from
      the field `from` on. */
  function Improvements(fields: seq<Field>, owner: Uuid, from: nat): (r: (nat, nat))
    decreases |fields| - from
  {
    if from >= |fields| then (0, 0)
    else
      var rest := Improvements(fields, owner, from + 1);
      var f := fields[from];
      if f.owner == Present(Some(owner)) && f.houses.Present? then
        if 1 <= f.houses.value <= 4 then (rest.0 + f.houses.value, rest.1)
        else if f.houses.value == 5 then (rest.0, rest.1 + 1)
        else rest
      else rest
  }

  /** Improvements are counted on the owner's streets only: a player owning nothing has none. */
  lemma {:induction false} NoPropertyNoImprovements(fields: seq<Field>, owner: Uuid, from: nat)
    requires forall i :: from <= i < |fields| ==> fields[i].owner != Present(Some(owner))
    ensures Improvements(fields, owner, from) == (0, 0)
    decreases |fields| - from
  {
    if from < |fields| {
      NoPropertyNoImprovements(fields, owner, from + 1);
    }
  }

  /** The controller with the game data it owns. */
  class Controller {
    const players: Players
    const board: BoardData
    const dice: Dice
    const chance: CardDeck
    const cc: CardDeck
    const serverUuid: Uuid

    ghost predicate Valid()
      reads this, players, board, dice, chance, cc
    {
      players.Valid() && board.Valid() && dice.Valid() && chance.Valid() && cc.Valid() &&
      chance != cc &&
      dice.count == 2 && dice.sides == 6 &&
      StoredUnderOwnUuid(players.players) && OwnersRegistered(board.fields, players.players)
    }

    /** A game with no players, a fresh board, two six-sided dice and both decks shuffled. */
    constructor (serverUuid: Uuid, chancePicks: seq<nat>, ccPicks: seq<nat>)
      requires PicksFit(chancePicks, 16) && PicksFit(ccPicks, 16)
      ensures Valid() && this.serverUuid == serverUuid
      ensures chance.kind == Chance && cc.kind == CommunityChest && chance.Shuffled() && cc.Shuffled()
      ensures players.players == map[] && dice.lastRoll == None
      ensures fresh(players) && fresh(board) && fresh(dice) && fresh(chance) && fresh(cc)
    {
      var b := new BoardData();
      forall i | 0 <= i < |b.fields| ensures !(b.fields[i].owner.Present? && b.fields[i].owner.value.Some?) {
        assert b.fields[i] == NewField(i);
      }
      this.serverUuid := serverUuid;
      players := new Players();
      board := b;
      dice := new Dice(2, 6);
      chance := new CardDeck(Chance, chancePicks);
      cc := new CardDeck(CommunityChest, ccPicks);
    }

    /** `pay(amount, payer, payee)`. */
    method Pay(amount: int, payer: Uuid, payee: Option<Uuid>)
      requires Valid() && payer in players.players && (payee.Some? ==> payee.value in players.players)
      modifies players
      ensures Valid() && players.keys == old(players.keys)
      ensures players.players == Transfer(old(players.players), amount, payer, payee)
    {
      players.players := Transfer(players.players, amount, payer, payee);
    }

    /** `collect(amount, player)`. */
    method Collect(amount: int, player: Uuid)
      requires Valid() && player in players.players
      modifies players
      ensures Valid() && players.keys == old(players.keys)
      ensures players.players == Credit(old(players.players), player, amount)
    {
      players.players := Credit(players.players, player, amount);
    }

    /** `move_to(field, player, check_pass_go)`. */
    method MoveTo(dest: int, player: Uuid, checkPassGo: bool)
      requires Valid() && player in players.players && 0 <= dest <= JAIL_POSITION
      modifies players
      ensures Valid() && players.keys == old(players.keys)
      ensures players.players == old(players.players)[player := MovedTo(old(players.players)[player], dest, checkPassGo)]
    {
      var p := players.players[player];
      var moved := MovedTo(p, dest, checkPassGo);
      players.players := players.players[player := moved];
    }

    /** `move_by(delta, player, check_pass_go)`. */
    method MoveBy(delta: int, player: Uuid, checkPassGo: bool)
      requires Valid() && player in players.players
      modifies players
      ensures Valid() && players.keys == old(players.keys)
      ensures var p := old(players.players)[player];
              players.players == old(players.players)[player := MovedTo(p, StepsAhead(p.field, delta), checkPassGo)]
    {
      MoveTo(StepsAhead(players.players[player].field, delta), player, checkPassGo);
    }

    /** `buy_property(field, buyer)`: the listed price goes from the buyer to the owner (the
        bank when unowned) and the buyer becomes the owner. */
    method BuyProperty(index: nat, buyer: Uuid)
      requires Valid() && buyer in players.players
      requires index < |board.fields| && IsProperty(board.fields[index])
      requires board.fields[index].info.data.StreetInfo? || board.fields[index].info.data.TieredInfo?
      modifies players, board
      ensures Valid() && players.keys == old(players.keys)
      ensures var f := old(board.fields)[index];
              players.players == Transfer(old(players.players), f.info.data.price, buyer, f.owner.value)
      ensures board.fields == old(board.fields)[index := old(board.fields)[index].(owner := Present(Some(buyer)))]
    {
      var f := board.fields[index];
      Pay(f.info.data.price, buyer, f.owner.value);
      GeneratedAfterSet(board.fields, index, f.(owner := Present(Some(buyer))));
      OwnersAfterBuy(board.fields, players.players, index, buyer);
      board.fields := board.fields[index := f.(owner := Present(Some(buyer)))];
    }

    /** `update(section="players", ...)`: whether the attribute's value changed; only then is
        it written. */
    method UpdatePlayer(player: Uuid, attribute: PlayerAttribute) returns (changed: bool)
      requires Valid() && player in players.players
      requires !attribute.OtherAttr? && !attribute.UuidAttr?
      modifies players
      ensures Valid() && players.keys == old(players.keys)
      ensures changed <==> ValueOf(old(players.players)[player], attribute) != Some(attribute)
      ensures players.players == old(players.players)[player := SetPlayerAttribute(old(players.players)[player], attribute).value]
    {
      var p := players.players[player];
      SetKeepsUuid(p, attribute);
      var q := SetPlayerAttribute(p, attribute).value;
      changed := ValueOf(p, attribute) != Some(attribute);
      if changed {
        PlayerReplaced(players.players, players.keys, board.fields, player, q);
        players.players := players.players[player := q];
      } else {
        SetToCurrent(p, attribute);
        assert players.players[player := q] == players.players;
      }
    }

    /** `roll(register)`. */
    method Roll(register: bool, faces: seq<int>) returns (r: Roll)
      requires Valid() && FacesFit(faces, 2, 6)
      modifies dice
      ensures Valid()
      ensures r == NewRoll(2, 6, faces)
      ensures register ==> dice.lastRoll == Some(r) && dice.doubles == (if IsDouble(r) then old(dice.doubles) + 1 else 0)
      ensures !register ==> dice.lastRoll == old(dice.lastRoll) && dice.doubles == old(dice.doubles)
    {
      r := dice.Roll(register, faces);
    }

    /** `count_houses(owner)`: the owner's houses and hotels. */
    function CountImprovements(owner: Uuid): (r: (nat, nat))
      reads board
    {
      Improvements(board.fields, owner, 0)
    }
  }

  /** Writing any attribute but the uuid keeps the player's uuid. */
  lemma SetKeepsUuid(p: Player, a: PlayerAttribute)
    requires !a.OtherAttr? && !a.UuidAttr?
    ensures SetPlayerAttribute(p, a).Success? && SetPlayerAttribute(p, a).value.uuid == p.uuid
  {
  }

  /** Replacing a stored player by one with the same uuid keeps the store consistent. */
  lemma PlayerReplaced(m: map<Uuid, Player>, keys: seq<Uuid>, fields: seq<Field>, u: Uuid, p: Player)
    requires u in m && p.uuid == m[u].uuid
    requires StoredUnderOwnUuid(m) && OwnersRegistered(fields, m) && (forall v :: v in keys <==> v in m)
    ensures StoredUnderOwnUuid(m[u := p]) && OwnersRegistered(fields, m[u := p])
    ensures forall v :: v in keys <==> v in m[u := p]
  {
  }

  /** Making a registered player the owner of a field keeps every owner registered. */
  lemma OwnersAfterBuy(fields: seq<Field>, m: map<Uuid, Player>, i: nat, buyer: Uuid)
    requires OwnersRegistered(fields, m) && buyer in m && i < |fields|
    ensures OwnersRegistered(fields[i := fields[i].(owner := Present(Some(buyer)))], m)
  {
  }

  /** Setting an attribute to the value it already has leaves the player as it is. */
  lemma SetToCurrent(p: Player, a: PlayerAttribute)
    requires ValueOf(p, a) == Some(a)
    ensures SetPlayerAttribute(p, a) == Success(p)
  {
  }
}
