/** The player registry: players stored under their uuid in insertion order, looked up by uuid
    or by seat id, and updated attribute by attribute. */
module Players {
  import opened Wrappers

  /** A `Player` and all the attributes its constructor gives it. */
  datatype Player = Player(
    playerId: int, uuid: Uuid, name: string, token: string, cash: int, field: int,
    ready: bool, inJail: bool, jailTurns: int, getOutOfJailCards: int)

  /** `Player.__init__` with its defaults: named after the seat counted from one, no token, no
      cash, off the board (field -1), not ready, not in jail, no jail attempts, no cards. */
  function NewPlayer(uuid: Uuid, playerId: int): (p: Player)
    ensures p.uuid == uuid && p.playerId == playerId
    ensures p.name == "Player " + IntToString(playerId + 1)
    ensures p.token == "" && p.cash == 0 && p.field == -1
    ensures !p.ready && !p.inJail && p.jailTurns == 0 && p.getOutOfJailCards == 0
  {
    Player(playerId, uuid, "Player " + IntToString(playerId + 1), "", 0, -1, false, false, 0, 0)
  }

  /** Players of different seats get different default names. */
  lemma DefaultNamesDiffer(u: Uuid, v: Uuid, playerId: int, otherId: int)
    requires playerId != otherId
    ensures NewPlayer(u, playerId).name != NewPlayer(v, otherId).name
  {
    var a := IntToString(playerId + 1);
    var b := IntToString(otherId + 1);
    IntToStringInjective(playerId + 1, otherId + 1);
    assert ("Player " + a)[7..] == a && ("Player " + b)[7..] == b;
  }

  /** A value of a player's public attribute, as iteration over a player yields it. */
  datatype AttributeValue = IntValue(i: int) | StringValue(s: string) | BoolValue(b: bool)

  /** `Player.attributes` and `__iter__`: the public attributes, in order, with their values. */
  function PublicAttributes(p: Player): (r: seq<(string, AttributeValue)>)
    ensures |r| == 6
    ensures r[0] == ("player_id", IntValue(p.playerId)) && r[1] == ("name", StringValue(p.name))
    ensures r[2] == ("token", StringValue(p.token)) && r[3] == ("cash", IntValue(p.cash))
    ensures r[4] == ("field", IntValue(p.field)) && r[5] == ("ready", BoolValue(p.ready))
  {
    [("player_id", IntValue(p.playerId)), ("name", StringValue(p.name)), ("token", StringValue(p.token)),
     ("cash", IntValue(p.cash)), ("field", IntValue(p.field)), ("ready", BoolValue(p.ready))]
  }

  /** An attribute name with its new value given to `Players.update`; `OtherAttr` is a name
      that a player does not carry. */
  datatype PlayerAttribute =
    | PlayerIdAttr(playerId: int) | UuidAttr(uuid: Uuid) | NameAttr(name: string)
    | TokenAttr(token: string) | CashAttr(cash: int) | FieldAttr(field: int) | ReadyAttr(ready: bool)
    | InJailAttr(inJail: bool) | JailTurnsAttr(jailTurns: int) | CardsAttr(cards: int)
    | OtherAttr(attrName: string)

  /** `setattr` on a player after the `hasattr` check: every attribute but an unknown one. */
  function SetPlayerAttribute(p: Player, a: PlayerAttribute): (r: Result<Player>)
    ensures r.Failure? <==> a.OtherAttr?
    ensures r.Failure? ==> r.error == AttributeError
    ensures r.Success? ==> ValueOf(r.value, a) == Some(a)
    ensures r.Success? ==> forall b: PlayerAttribute :: SameAttribute(a, b) || ValueOf(r.value, b) == ValueOf(p, b)
  {
    match a
    case PlayerIdAttr(v) => Success(p.(playerId := v))
    case UuidAttr(v) => Success(p.(uuid := v))
    case NameAttr(v) => Success(p.(name := v))
    case TokenAttr(v) => Success(p.(token := v))
    case CashAttr(v) => Success(p.(cash := v))
    case FieldAttr(v) => Success(p.(field := v))
    case ReadyAttr(v) => Success(p.(ready := v))
    case InJailAttr(v) => Success(p.(inJail := v))
    case JailTurnsAttr(v) => Success(p.(jailTurns := v))
    case CardsAttr(v) => Success(p.(getOutOfJailCards := v))
    case OtherAttr(_) => Failure(AttributeError)
  }

  /** Whether two attribute updates name the same attribute. */
  predicate SameAttribute(a: PlayerAttribute, b: PlayerAttribute) {
    match a
    case PlayerIdAttr(_) => b.PlayerIdAttr?
    case UuidAttr(_) => b.UuidAttr?
    case NameAttr(_) => b.NameAttr?
    case TokenAttr(_) => b.TokenAttr?
    case CashAttr(_) => b.CashAttr?
    case FieldAttr(_) => b.FieldAttr?
    case ReadyAttr(_) => b.ReadyAttr?
    case InJailAttr(_) => b.InJailAttr?
    case JailTurnsAttr(_) => b.JailTurnsAttr?
    case CardsAttr(_) => b.CardsAttr?
    case OtherAttr(n) => b.OtherAttr? && b.attrName == n
  }

  /** The current value of the attribute `a` names, as an update of that attribute. */
  function ValueOf(p: Player, a: PlayerAttribute): Option<PlayerAttribute> {
    match a
    case PlayerIdAttr(_) => Some(PlayerIdAttr(p.playerId))
    case UuidAttr(_) => Some(UuidAttr(p.uuid))
    case NameAttr(_) => Some(NameAttr(p.name))
    case TokenAttr(_) => Some(TokenAttr(p.token))
    case CashAttr(_) => Some(CashAttr(p.cash))
    case FieldAttr(_) => Some(FieldAttr(p.field))
    case ReadyAttr(_) => Some(ReadyAttr(p.ready))
    case InJailAttr(_) => Some(InJailAttr(p.inJail))
    case JailTurnsAttr(_) => Some(JailTurnsAttr(p.jailTurns))
    case CardsAttr(_) => Some(CardsAttr(p.getOutOfJailCards))
    case OtherAttr(_) => None
  }

  /** A key given to `Players[...]`: a uuid, an int seat id, or a value of any other type. */
  datatype PlayerKey = ByUuid(uuid: Uuid) | ById(playerId: int) | OtherKey

  /** No key is listed twice. */
  predicate Distinct(keys: seq<Uuid>) {
    forall i, j :: 0 <= i < j < |keys| ==> keys[i] != keys[j]
  }

  /** The first key, in insertion order, whose player has seat `playerId`. */
  function FirstWithId(keys: seq<Uuid>, players: map<Uuid, Player>, playerId: int): (r: Option<Uuid>)
    requires forall u :: u in keys ==> u in players
    ensures r.Some? ==> r.value in keys && players[r.value].playerId == playerId
    ensures r.None? <==> forall u :: u in keys ==> players[u].playerId != playerId
    ensures r.Some? ==> exists k :: 0 <= k < |keys| && keys[k] == r.value &&
                                    forall j :: 0 <= j < k ==> players[keys[j]].playerId != playerId
  {
    if keys == [] then None
    else if players[keys[0]].playerId == playerId then Some(keys[0])
    else FirstWithId(keys[1..], players, playerId)
  }

  /** `all(player.ready and player.token ...)` over the players in insertion order. */
  function AllReady(keys: seq<Uuid>, players: map<Uuid, Player>): (b: bool)
    requires forall u :: u in keys ==> u in players
    ensures b <==> forall u :: u in keys ==> players[u].ready && players[u].token != ""
  {
    if keys == [] then true
    else players[keys[0]].ready && players[keys[0]].token != "" && AllReady(keys[1..], players)
  }

  /** `Players`: the `_players` dict, as its keys in insertion order and the mapping itself. */
  class Players {
    var keys: seq<Uuid>
    var players: map<Uuid, Player>

    ghost predicate Valid()
      reads this
    {
      Distinct(keys) && (forall u :: u in keys <==> u in players)
    }

    /** `Players.__init__`: no players. */
    constructor ()
      ensures Valid() && keys == [] && players == map[]
    {
      keys := [];
      players := map[];
    }

    /** `len(players)`: the number of registered players. */
    function Count(): (n: nat)
      requires Valid()
      reads this
      ensures n == |players|
    {
      CountKeys(keys, players);
      |keys|
    }

    /** `Players[item]`: by uuid (KeyError when absent), by seat id (the first player with that
        id in insertion order; KeyError when none), anything else raises AttributeError. */
    function Get(item: PlayerKey): (r: Result<Player>)
      requires Valid()
      reads this
      ensures item.OtherKey? ==> r == Failure(AttributeError)
      ensures item.ByUuid? ==> (r.Success? <==> item.uuid in players)
      ensures item.ByUuid? && r.Success? ==> r.value == players[item.uuid]
      ensures item.ById? ==> (r.Success? <==> exists u :: u in players && players[u].playerId == item.playerId)
      ensures item.ById? && r.Success? ==> r.value in players.Values && r.value.playerId == item.playerId
      ensures item.ById? && r.Success? ==>
                exists k :: 0 <= k < |keys| && r.value == players[keys[k]] &&
                            forall j :: 0 <= j < k ==> players[keys[j]].playerId != item.playerId
      ensures r.Failure? && !item.OtherKey? ==> r.error == KeyError
    {
      match item
      case ByUuid(u) => if u in players then Success(players[u]) else Failure(KeyError)
      case ById(id) =>
        var first := FirstWithId(keys, players, id);
        if first.Some? then Success(players[first.value]) else Failure(KeyError)
      case OtherKey => Failure(AttributeError)
    }

    /** `update`: KeyError for an unknown uuid, AttributeError for an unknown attribute;
        otherwise only that attribute of that player changes. */
    method Update(item: Uuid, attribute: PlayerAttribute) returns (r: Outcome)
      requires Valid()
      modifies this
      ensures Valid() && keys == old(keys)
      ensures item !in old(players) ==> r == Fail(KeyError) && players == old(players)
      ensures item in old(players) ==>
        match SetPlayerAttribute(old(players)[item], attribute)
        case Failure(e) => r == Fail(e) && players == old(players)
        case Success(p) => r == Pass && players == old(players)[item := p]
    {
      if item !in players {
        return Fail(KeyError);
      }
      var updated := SetPlayerAttribute(players[item], attribute);
      if updated.Failure? {
        return Fail(updated.error);
      }
      players := players[item := updated.value];
      r := Pass;
    }

    /** `add`: a new default player stored under its uuid; a uuid already present keeps its
        place in the order and has its player replaced. */
    method Add(playerUuid: Uuid, playerId: int) returns (p: Player)
      requires Valid()
      modifies this
      ensures Valid()
      ensures p == NewPlayer(playerUuid, playerId)
      ensures players == old(players)[playerUuid := p]
      ensures keys == if playerUuid in old(keys) then old(keys) else old(keys) + [playerUuid]
      ensures |players| == if playerUuid in old(players) then old(|players|) else old(|players|) + 1
    {
      p := NewPlayer(playerUuid, playerId);
      if playerUuid !in keys {
        keys := keys + [playerUuid];
      }
      players := players[playerUuid := p];
    }

    /** `is_all_ready`: every player is ready and has chosen a token (true with no players). */
    predicate IsAllReady()
      requires Valid()
      reads this
    {
      AllReady(keys, players)
    }

    /** `uuid_from_id`: the stored uuid of the first player, in insertion order, with this seat
        id; KeyError when no player has it. */
    method UuidFromId(playerId: int) returns (r: Result<Uuid>)
      requires Valid()
      ensures r == UuidOfId(keys, players, playerId)
    {
      var i := 0;
      while i < |keys|
        invariant 0 <= i <= |keys|
        invariant FirstWithId(keys, players, playerId) == FirstWithId(keys[i..], players, playerId)
      {
        var player := players[keys[i]];
        if player.playerId == playerId {
          return Success(player.uuid);
        }
        assert keys[i..][1..] == keys[i + 1..];
        i := i + 1;
      }
      return Failure(KeyError);
    }

    /** `id_from_uuid`: the seat id of the player stored under `uuid`; KeyError when absent. */
    function IdFromUuid(uuid: Uuid): (r: Result<int>)
      reads this
      ensures r.Success? <==> uuid in players
      ensures r.Success? ==> r.value == players[uuid].playerId
    {
      if uuid in players then Success(players[uuid].playerId) else Failure(KeyError)
    }
  }

  /** The value `uuid_from_id` computes. */
  function UuidOfId(keys: seq<Uuid>, players: map<Uuid, Player>, playerId: int): (r: Result<Uuid>)
    requires forall u :: u in keys ==> u in players
    ensures r.Success? <==> exists u :: u in keys && players[u].playerId == playerId
    ensures r.Success? ==>
              exists k :: 0 <= k < |keys| && players[keys[k]].playerId == playerId && r.value == players[keys[k]].uuid &&
                          forall j :: 0 <= j < k ==> players[keys[j]].playerId != playerId
    ensures r.Failure? ==> r.error == KeyError
  {
    var first := FirstWithId(keys, players, playerId);
    if first.Some? then Success(players[first.value].uuid) else Failure(KeyError)
  }

  /** Dropping the last key: the rest are distinct and list the other players. */
  lemma DropLastKey(keys: seq<Uuid>, players: map<Uuid, Player>)
    requires keys != [] && Distinct(keys) && (forall u :: u in keys <==> u in players)
    ensures var rest := keys[..|keys| - 1];
            Distinct(rest) && forall u :: u in rest <==> u in players - {keys[|keys| - 1]}
  {
    var k := keys[|keys| - 1];
    var rest := keys[..|keys| - 1];
    forall u ensures u in rest <==> u in players - {k} {
      if u in rest {
        var i :| 0 <= i < |rest| && rest[i] == u;
        assert keys[i] == u;
      }
      if u in players - {k} {
        var i :| 0 <= i < |keys| && keys[i] == u;
        assert rest[i] == u;
      }
    }
    forall i, j | 0 <= i < j < |rest| ensures rest[i] != rest[j] {
      assert rest[i] == keys[i] && rest[j] == keys[j];
    }
  }

  lemma {:induction false} CountKeys(keys: seq<Uuid>, players: map<Uuid, Player>)
    requires Distinct(keys) && (forall u :: u in keys <==> u in players)
    ensures |keys| == |players|
  {
    if keys == [] {
      assert players == map[];
    } else {
      var k := keys[|keys| - 1];
      var smaller := players - {k};
      DropLastKey(keys, players);
      CountKeys(keys[..|keys| - 1], smaller);
      assert players.Keys == smaller.Keys + {k};
    }
  }

  /** With every player stored under its own uuid and seat ids unique, `uuid_from_id` and
      `id_from_uuid` undo each other. */
  lemma IdsAndUuidsInverse(keys: seq<Uuid>, players: map<Uuid, Player>)
    requires forall u :: u in keys <==> u in players
    requires forall u :: u in players ==> players[u].uuid == u
    requires forall u, v :: u in players && v in players && players[u].playerId == players[v].playerId ==> u == v
    ensures forall u :: u in players ==> UuidOfId(keys, players, players[u].playerId) == Success(u)
    ensures forall id :: UuidOfId(keys, players, id).Success? ==>
              UuidOfId(keys, players, id).value in players &&
              players[UuidOfId(keys, players, id).value].playerId == id
  {
    forall u | u in players ensures UuidOfId(keys, players, players[u].playerId) == Success(u) {
      var first := FirstWithId(keys, players, players[u].playerId);
      assert first.Some?;
    }
  }
}
