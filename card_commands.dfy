/** The effects of the Chance and Community Chest commands on the game, run for the player on
    turn through the controller. */
module CardCommands {
  import opened Wrappers
  import opened BoardDescription
  import opened Board
  import opened Cards
  import opened Players
  import opened Controller

  /** Where a moving command takes a player standing on `field`, and whether passing GO pays:
      None for the commands that do not move. */
  function Destination(cmd: Command, field: int): Option<(int, bool)> {
    match cmd
    case AdvanceTo(target) => Some((target, true))
    case NearestStation => Some((StepsAhead(field, (5 - field) % 10), true))
    case NearestUtility => Some((if 12 < field <= 28 then 28 else 12, true))
    case GoBack3 => Some((StepsAhead(field, -3), false))
    case GoToJail => Some((JAIL_POSITION, false))
    case _ => None
  }

  /** The nearest-station card lands on a railroad fewer than ten squares ahead (the square
      itself when it is one). */
  lemma NearestStationAhead(field: int)
    requires 0 <= field <= JAIL_POSITION
    ensures var dest := Destination(NearestStation, field).value.0;
            0 <= dest < BOARD_LENGTH && FIELDS[dest].ftype == RAILROAD && (dest - field) % BOARD_LENGTH < 10
  {
    Railroads();
    var dest := Destination(NearestStation, field).value.0;
    assert dest == 5 || dest == 15 || dest == 25 || dest == 35;
  }

  /** The nearest-utility card lands on the utility reached first going forward from the
      player's square (the square itself when it is one). */
  lemma NearestUtilityAhead(field: int)
    requires 0 <= field < BOARD_LENGTH
    ensures var dest := Destination(NearestUtility, field).value.0;
            FIELDS[dest].ftype == UTILITY &&
            forall u :: 0 <= u < BOARD_LENGTH && FIELDS[u].ftype == UTILITY ==>
              (dest - field) % BOARD_LENGTH <= (u - field) % BOARD_LENGTH
  {
    Utilities();
  }

  /** "Go back 3 spaces" lands three squares behind, wrapping past GO. */
  lemma GoBackThree(field: int)
    requires 0 <= field < BOARD_LENGTH
    ensures var dest := Destination(GoBack3, field).value.0;
            0 <= dest < BOARD_LENGTH && (dest + 3) % BOARD_LENGTH == field
  {
  }

  /** The squares a card is drawn on, ranked so that every move a card makes from one of them
      lands on a lower rank: the chain of card squares a player can be sent along ends. */
  function Rank(field: int): nat {
    if field == 36 then 2
    else if field == 2 || field == 7 || field == 17 || field == 22 || field == 33 then 1
    else 0
  }

  /** A card square. */
  predicate IsCardSquare(field: int) {
    field == 2 || field == 7 || field == 17 || field == 22 || field == 33 || field == 36
  }

  /** A card typed as a move, drawn on a card square, lands on a track square of lower rank. */
  lemma MoveCardLowersRank(c: Card, field: int)
    requires Playable(c) && c.cardType == MoveCard && IsCardSquare(field)
    ensures Destination(c.command, field).Some?
    ensures var dest := Destination(c.command, field).value.0;
            0 <= dest < BOARD_LENGTH && Rank(dest) < Rank(field)
  {
  }

  /** Houses at 25 and hotels at 100 for general repairs, 40 and 115 for street repairs. */
  function RepairBill(cmd: Command, improvements: (nat, nat)): nat
    requires cmd == GeneralRepairs || cmd == StreetRepairs
  {
    var (housePrice, hotelPrice) := if cmd == GeneralRepairs then (25, 100) else (40, 115);
    housePrice * improvements.0 + hotelPrice * improvements.1
  }

  /** No improvements, no bill; otherwise street repairs cost more than general repairs, and
      a hotel more than a house under either. */
  lemma RepairBills(improvements: (nat, nat))
    ensures improvements == (0, 0) <==> RepairBill(GeneralRepairs, improvements) == 0
    ensures improvements == (0, 0) <==> RepairBill(StreetRepairs, improvements) == 0
    ensures improvements != (0, 0) ==> RepairBill(GeneralRepairs, improvements) < RepairBill(StreetRepairs, improvements)
    ensures RepairBill(GeneralRepairs, (0, 1)) > RepairBill(GeneralRepairs, (1, 0))
    ensures RepairBill(StreetRepairs, (0, 1)) > RepairBill(StreetRepairs, (1, 0))
  {
  }

  /** The everyone-pays loops: for each key in order, a player other than `onTurn` pays
      `amount` to `onTurn` (`toOnTurn`) or receives it from `onTurn`. */
  function EachPays(m: map<Uuid, Player>, keys: seq<Uuid>, onTurn: Uuid, amount: int, toOnTurn: bool): (r: map<Uuid, Player>)
    requires onTurn in m && forall k :: k in keys ==> k in m
    ensures r.Keys == m.Keys
    decreases |keys|
  {
    if keys == [] then m
    else
      var prev := EachPays(m, keys[..|keys| - 1], onTurn, amount, toOnTurn);
      var k := keys[|keys| - 1];
      if k == onTurn then prev
      else if toOnTurn then Transfer(prev, amount, k, Some(onTurn))
      else Transfer(prev, amount, onTurn, Some(k))
  }

  /** In the everyone-pays loops, every other listed player's cash moves by `amount` once,
      and a player not listed keeps its cash. */
  lemma {:induction false} EachPaysOthers(m: map<Uuid, Player>, keys: seq<Uuid>, onTurn: Uuid, amount: int, toOnTurn: bool)
    requires onTurn in m && (forall k :: k in keys ==> k in m) && Distinct(keys)
    ensures var r := EachPays(m, keys, onTurn, amount, toOnTurn);
            (forall v :: v in keys && v != onTurn ==> r[v].cash == m[v].cash + (if toOnTurn then -amount else amount)) &&
            (forall v :: v in m && v !in keys && v != onTurn ==> r[v] == m[v])
    decreases |keys|
  {
    if keys != [] {
      var p := keys[..|keys| - 1];
      var k := keys[|keys| - 1];
      assert keys == p + [k];
      assert Distinct(p);
      assert k !in p;
      EachPaysOthers(m, p, onTurn, amount, toOnTurn);
    }
  }

  /** One more step of a running total of `n` steps of `s`. */
  lemma CountStep(c0: int, prev: int, next: int, n: int, s: int, counted: bool)
    requires prev == c0 + n * s
    requires next == prev + (if counted then s else 0)
    ensures next == c0 + (n + (if counted then 1 else 0)) * s
  {
    if counted {
      assert (n + 1) * s == n * s + s;
    }
  }

  /** The last key of the loop moves the on-turn player's cash by one payment, unless it is
      that player. */
  lemma EachPaysLastKey(m: map<Uuid, Player>, keys: seq<Uuid>, onTurn: Uuid, amount: int, toOnTurn: bool)
    requires onTurn in m && (forall k :: k in keys ==> k in m) && keys != []
    ensures var k := keys[|keys| - 1];
            EachPays(m, keys, onTurn, amount, toOnTurn)[onTurn].cash ==
              EachPays(m, keys[..|keys| - 1], onTurn, amount, toOnTurn)[onTurn].cash +
              (if k != onTurn then (if toOnTurn then amount else -amount) else 0)
  {
  }

  /** In the everyone-pays loops, the player on turn's cash moves by `amount` once for each
      other listed player. */
  lemma {:induction false} EachPaysOnTurn(m: map<Uuid, Player>, keys: seq<Uuid>, onTurn: Uuid, amount: int, toOnTurn: bool)
    requires onTurn in m && (forall k :: k in keys ==> k in m) && Distinct(keys)
    ensures EachPays(m, keys, onTurn, amount, toOnTurn)[onTurn].cash ==
            m[onTurn].cash + (|keys| - (if onTurn in keys then 1 else 0)) * (if toOnTurn then amount else -amount)
    decreases |keys|
  {
    if keys != [] {
      var p := keys[..|keys| - 1];
      var k := keys[|keys| - 1];
      assert keys == p + [k];
      assert Distinct(p);
      assert k !in p;
      EachPaysOnTurn(m, p, onTurn, amount, toOnTurn);
      EachPaysLastKey(m, keys, onTurn, amount, toOnTurn);
      var othersP := |p| - (if onTurn in p then 1 else 0);
      var s := if toOnTurn then amount else -amount;
      CountStep(m[onTurn].cash, EachPays(m, p, onTurn, amount, toOnTurn)[onTurn].cash,
                EachPays(m, keys, onTurn, amount, toOnTurn)[onTurn].cash, othersP, s, k != onTurn);
      assert |keys| - (if onTurn in keys then 1 else 0) == othersP + (if k != onTurn then 1 else 0);
    }
  }

  /** The effect of a card's command on the players, run for `onTurn`. */
  function Effect(cmd: Command, m: map<Uuid, Player>, keys: seq<Uuid>, fields: seq<Field>, onTurn: Uuid): (r: map<Uuid, Player>)
    requires onTurn in m && forall k :: k in keys ==> k in m
    ensures r.Keys == m.Keys
  {
    var p := m[onTurn];
    match cmd
    case Collect(amount) => Credit(m, onTurn, amount)
    case Pay(amount) => Transfer(m, amount, onTurn, None)
    case CollectFromEveryone => EachPays(m, keys, onTurn, 10, true)
    case PayToEveryone => EachPays(m, keys, onTurn, 50, false)
    case GetOutOfJail => m[onTurn := p.(getOutOfJailCards := p.getOutOfJailCards + 1)]
    case GeneralRepairs => Transfer(m, RepairBill(cmd, Improvements(fields, onTurn, 0)), onTurn, None)
    case StreetRepairs => Transfer(m, RepairBill(cmd, Improvements(fields, onTurn, 0)), onTurn, None)
    case _ =>
      var (dest, checkPassGo) := Destination(cmd, p.field).value;
      m[onTurn := MovedTo(p, dest, checkPassGo)]
  }

  /** A command moves only the player on turn, and only a moving command moves anyone. */
  lemma EffectMoves(cmd: Command, m: map<Uuid, Player>, keys: seq<Uuid>, fields: seq<Field>, onTurn: Uuid)
    requires onTurn in m && forall k :: k in keys ==> k in m
    ensures var r := Effect(cmd, m, keys, fields, onTurn);
            (forall v :: v in m && v != onTurn ==> r[v].field == m[v].field) &&
            (Destination(cmd, m[onTurn].field).None? ==> r[onTurn].field == m[onTurn].field) &&
            (Destination(cmd, m[onTurn].field).Some? ==> r[onTurn].field == Destination(cmd, m[onTurn].field).value.0)
  {
    var r := Effect(cmd, m, keys, fields, onTurn);
    if cmd == CollectFromEveryone || cmd == PayToEveryone {
      EachPaysFields(m, keys, onTurn, if cmd == CollectFromEveryone then 10 else 50, cmd == CollectFromEveryone);
    }
  }

  lemma {:induction false} EachPaysFields(m: map<Uuid, Player>, keys: seq<Uuid>, onTurn: Uuid, amount: int, toOnTurn: bool)
    requires onTurn in m && forall k :: k in keys ==> k in m
    ensures var r := EachPays(m, keys, onTurn, amount, toOnTurn);
            forall v :: v in m ==> r[v] == m[v].(cash := r[v].cash)
    decreases |keys|
  {
    if keys != [] {
      EachPaysFields(m, keys[..|keys| - 1], onTurn, amount, toOnTurn);
    }
  }

  /** Every player stays on the board and under its own uuid. */
  lemma EffectKeepsPlayers(cmd: Command, m: map<Uuid, Player>, keys: seq<Uuid>, fields: seq<Field>, onTurn: Uuid)
    requires onTurn in m && (forall k :: k in keys ==> k in m)
    requires AllOnBoard(m) && StoredUnderOwnUuid(m)
    requires cmd.AdvanceTo? ==> cmd.target <= JAIL_POSITION
    ensures var r := Effect(cmd, m, keys, fields, onTurn);
            AllOnBoard(r) && StoredUnderOwnUuid(r)
  {
    var r := Effect(cmd, m, keys, fields, onTurn);
    EffectMoves(cmd, m, keys, fields, onTurn);
    if cmd == CollectFromEveryone || cmd == PayToEveryone {
      EachPaysFields(m, keys, onTurn, if cmd == CollectFromEveryone then 10 else 50, cmd == CollectFromEveryone);
    }
    forall v | v in r ensures r[v].uuid == v && 0 <= r[v].field <= JAIL_POSITION {
      if v == onTurn {
        var d := Destination(cmd, m[onTurn].field);
        if d.Some? && cmd.NearestStation? { assert 0 <= d.value.0 < BOARD_LENGTH; }
      }
    }
  }

  lemma PrefixMembers(keys: seq<Uuid>, i: nat)
    requires i <= |keys|
    ensures forall k :: k in keys[..i] ==> k in keys
  {
    forall k | k in keys[..i] ensures k in keys {
      var j :| 0 <= j < i && keys[..i][j] == k;
      assert keys[j] == k;
    }
  }

  /** One more key of the loop: one more payment, unless the key is the player on turn. */
  lemma EachPaysStep(m: map<Uuid, Player>, keys: seq<Uuid>, i: nat, onTurn: Uuid, amount: int, toOnTurn: bool)
    requires onTurn in m && (forall k :: k in keys ==> k in m) && i < |keys|
    ensures var prev := EachPays(m, keys[..i], onTurn, amount, toOnTurn);
            var k := keys[i];
            EachPays(m, keys[..i + 1], onTurn, amount, toOnTurn) ==
              if k == onTurn then prev
              else if toOnTurn then Transfer(prev, amount, k, Some(onTurn))
              else Transfer(prev, amount, onTurn, Some(k))
  {
    assert keys[..i + 1][..i] == keys[..i];
    assert keys[..i + 1][i] == keys[i];
  }

  /** The loop of `collect_10_from_everyone` and `pay_50_to_everyone` over the players in
      order: one payment per player other than the one on turn. */
  method PayEachInTurn(m: map<Uuid, Player>, keys: seq<Uuid>, onTurn: Uuid, amount: int, toOnTurn: bool)
    returns (r: map<Uuid, Player>)
    requires onTurn in m && forall k :: k in keys ==> k in m
    ensures r == EachPays(m, keys, onTurn, amount, toOnTurn)
  {
    r := m;
    var i := 0;
    assert keys[..0] == [];
    while i < |keys|
      invariant 0 <= i <= |keys|
      invariant forall k :: k in keys[..i] ==> k in keys
      invariant r == EachPays(m, keys[..i], onTurn, amount, toOnTurn)
    {
      var k := keys[i];
      EachPaysStep(m, keys, i, onTurn, amount, toOnTurn);
      PrefixMembers(keys, i + 1);
      if k != onTurn {
        if toOnTurn {
          r := Transfer(r, amount, k, Some(onTurn));
        } else {
          r := Transfer(r, amount, onTurn, Some(k));
        }
      }
      i := i + 1;
    }
    assert keys[..|keys|] == keys;
  }

  /** `collect_10_from_everyone` and `pay_50_to_everyone` on the controller's players. */
  method EveryonePays(c: Controller, onTurn: Uuid, amount: int, toOnTurn: bool)
    requires c.Valid() && onTurn in c.players.players
    modifies c.players
    ensures c.Valid() && c.players.keys == old(c.players.keys)
    ensures c.players.players == EachPays(old(c.players.players), old(c.players.keys), onTurn, amount, toOnTurn)
  {
    var m := PayEachInTurn(c.players.players, c.players.keys, onTurn, amount, toOnTurn);
    EachPaysKeeps(c.players.players, c.players.keys, c.board.fields, onTurn, amount, toOnTurn);
    c.players.players := m;
  }

  /** The loops keep every player under its uuid and every owner registered. */
  lemma EachPaysKeeps(m: map<Uuid, Player>, keys: seq<Uuid>, fields: seq<Field>, onTurn: Uuid, amount: int, toOnTurn: bool)
    requires onTurn in m && (forall k :: k in keys ==> k in m)
    requires StoredUnderOwnUuid(m) && OwnersRegistered(fields, m)
    ensures var r := EachPays(m, keys, onTurn, amount, toOnTurn);
            StoredUnderOwnUuid(r) && OwnersRegistered(fields, r) && r.Keys == m.Keys
  {
    EachPaysFields(m, keys, onTurn, amount, toOnTurn);
  }

  /** A card's command, run for the player on turn. */
  method Apply(c: Controller, card: Card, onTurn: Uuid)
    requires c.Valid() && onTurn in c.players.players && Playable(card)
    modifies c.players
    ensures c.Valid() && c.players.keys == old(c.players.keys)
    ensures c.players.players == Effect(card.command, old(c.players.players), old(c.players.keys), c.board.fields, onTurn)
  {
    if Destination(card.command, c.players.players[onTurn].field).Some? {
      ApplyMove(c, card.command, onTurn);
    } else {
      ApplyPayment(c, card.command, onTurn);
    }
  }

  /** The moving commands: `advance_to_*`, the nearest station and utility, `go_back_3_spaces`
      and `go_to_jail`. */
  method ApplyMove(c: Controller, cmd: Command, onTurn: Uuid)
    requires c.Valid() && onTurn in c.players.players
    requires Destination(cmd, c.players.players[onTurn].field).Some?
    requires cmd.AdvanceTo? ==> cmd.target <= JAIL_POSITION
    modifies c.players
    ensures c.Valid() && c.players.keys == old(c.players.keys)
    ensures c.players.players == Effect(cmd, old(c.players.players), old(c.players.keys), c.board.fields, onTurn)
  {
    var p := c.players.players[onTurn];
    match cmd
    case AdvanceTo(target) =>
      c.MoveTo(target, onTurn, true);
    case NearestStation =>
      c.MoveBy((5 - p.field) % 10, onTurn, true);
    case NearestUtility =>
      var dest := if 12 < p.field <= 28 then 28 else 12;
      c.MoveTo(dest, onTurn, true);
    case GoBack3 =>
      c.MoveBy(-3, onTurn, false);
    case GoToJail =>
      c.MoveTo(JAIL_POSITION, onTurn, false);
  }

  /** The commands that move money or cards: `collect_*`, `pay_*`, the repairs, the
      everyone-pays cards and `get_out_of_jail`. */
  method ApplyPayment(c: Controller, cmd: Command, onTurn: Uuid)
    requires c.Valid() && onTurn in c.players.players
    requires Destination(cmd, c.players.players[onTurn].field).None?
    modifies c.players
    ensures c.Valid() && c.players.keys == old(c.players.keys)
    ensures c.players.players == Effect(cmd, old(c.players.players), old(c.players.keys), c.board.fields, onTurn)
  {
    var p := c.players.players[onTurn];
    match cmd
    case Collect(amount) =>
      c.Collect(amount, onTurn);
    case CollectFromEveryone =>
      EveryonePays(c, onTurn, 10, true);
    case GetOutOfJail =>
      var q := p.(getOutOfJailCards := p.getOutOfJailCards + 1);
      PlayerReplaced(c.players.players, c.players.keys, c.board.fields, onTurn, q);
      c.players.players := c.players.players[onTurn := q];
    case GeneralRepairs =>
      var improvements := c.CountImprovements(onTurn);
      c.Pay(RepairBill(GeneralRepairs, improvements), onTurn, None);
    case StreetRepairs =>
      var improvements := c.CountImprovements(onTurn);
      c.Pay(RepairBill(StreetRepairs, improvements), onTurn, None);
    case Pay(amount) =>
      c.Pay(amount, onTurn, None);
    case PayToEveryone =>
      EveryonePays(c, onTurn, 50, false);
  }
}
