/** The typed records the parser produces. Go declares one struct per message
    kind, each embedding `Meta` (time and type string) and implementing the
    `Message` interface through `GetType` and `GetTime`; here the structs are
    the constructors of one datatype. */
module Messages {
  import opened Clock
  import K = Kinds

  /** A player as the log prints them: `name<id><steam id><side>`. `side` is
      "CT", "TERRORIST", "Unassigned", "Spectator" or "" when the line carries
      none. */
  datatype Player = Player(name: string, id: int, steamId: string, side: string)

  /** Integer map coordinates `[x y z]`. */
  datatype Position = Position(x: int, y: int, z: int)

  /** A triple of float32 values, kept as the decimal text the log carries
      (`PositionFloat` and `Velocity`). */
  datatype FloatTriple = FloatTriple(x: string, y: string, z: string)

  /** The money change equation `a + b = result` (b is negative for a loss). */
  datatype Equation = Equation(a: int, b: int, result: int)

  /** The part every message shares: its timestamp and its type. Go stores
      the type as its name string; here it is stored as the kind, whose name
      `K.Name` spells (names and kinds correspond one to one, see
      `K.NameRoundTrip`). */
  datatype Meta = Meta(time: DateTime, kind: K.Kind)

  datatype Message =
    | ServerMessage(meta: Meta, text: string)
    | FreezTimeStart(meta: Meta)
    | WorldMatchStart(meta: Meta, mapName: string)
    | WorldRoundStart(meta: Meta)
    | WorldRoundRestart(meta: Meta, timeleft: int)
    | WorldRoundEnd(meta: Meta)
    | WorldGameCommencing(meta: Meta)
    | TeamScored(meta: Meta, side: string, score: int, numPlayers: int)
    | TeamNotice(meta: Meta, side: string, notice: string, scoreCT: int, scoreT: int)
    | PlayerConnected(meta: Meta, player: Player, address: string)
    | PlayerDisconnected(meta: Meta, player: Player, reason: string)
    | PlayerEntered(meta: Meta, player: Player)
    | PlayerBanned(meta: Meta, player: Player, duration: string, bannedBy: string)
    | PlayerSwitched(meta: Meta, player: Player, fromSide: string, toSide: string)
    | PlayerSay(meta: Meta, player: Player, text: string, team: bool)
    | PlayerPurchase(meta: Meta, player: Player, item: string)
    | PlayerKill(meta: Meta, attacker: Player, attackerPosition: Position, victim: Player,
                 victimPosition: Position, weapon: string, headshot: bool, penetrated: bool)
    | PlayerKillAssist(meta: Meta, attacker: Player, victim: Player)
    | PlayerAttack(meta: Meta, attacker: Player, attackerPosition: Position, victim: Player,
                   victimPosition: Position, weapon: string, damage: int, damageArmor: int,
                   health: int, armor: int, hitgroup: string)
    | PlayerKilledBomb(meta: Meta, player: Player, position: Position)
      /** `weapon` is the Go field `With`. */
    | PlayerKilledSuicide(meta: Meta, player: Player, position: Position, weapon: string)
    | PlayerPickedUp(meta: Meta, player: Player, item: string)
    | PlayerDropped(meta: Meta, player: Player, item: string)
    | PlayerMoneyChange(meta: Meta, player: Player, equation: Equation, purchase: string)
    | PlayerBombGot(meta: Meta, player: Player)
    | PlayerBombPlanted(meta: Meta, player: Player)
    | PlayerBombDropped(meta: Meta, player: Player)
    | PlayerBombBeginDefuse(meta: Meta, player: Player, kit: bool)
    | PlayerBombDefused(meta: Meta, player: Player)
    | PlayerThrew(meta: Meta, player: Player, position: Position, entindex: int, grenade: string)
      /** `seconds` is the float32 field `For`, kept as its text. */
    | PlayerBlinded(meta: Meta, attacker: Player, victim: Player, seconds: string, entindex: int)
    | ProjectileSpawned(meta: Meta, origin: FloatTriple, velocity: FloatTriple)
      /** `minutes` is the Go field `Duration`. */
    | GameOver(meta: Meta, mode: string, mapGroup: string, mapName: string,
               scoreCT: int, scoreT: int, minutes: int)
    | Unknown(meta: Meta, raw: string)

  /** The kind a message's shape belongs to. */
  function KindOf(m: Message): K.Kind {
    match m
    case ServerMessage(_, _) => K.ServerMessage
    case FreezTimeStart(_) => K.FreezTimeStart
    case WorldMatchStart(_, _) => K.WorldMatchStart
    case WorldRoundStart(_) => K.WorldRoundStart
    case WorldRoundRestart(_, _) => K.WorldRoundRestart
    case WorldRoundEnd(_) => K.WorldRoundEnd
    case WorldGameCommencing(_) => K.WorldGameCommencing
    case TeamScored(_, _, _, _) => K.TeamScored
    case TeamNotice(_, _, _, _, _) => K.TeamNotice
    case PlayerConnected(_, _, _) => K.PlayerConnected
    case PlayerDisconnected(_, _, _) => K.PlayerDisconnected
    case PlayerEntered(_, _) => K.PlayerEntered
    case PlayerBanned(_, _, _, _) => K.PlayerBanned
    case PlayerSwitched(_, _, _, _) => K.PlayerSwitched
    case PlayerSay(_, _, _, _) => K.PlayerSay
    case PlayerPurchase(_, _, _) => K.PlayerPurchase
    case PlayerKill(_, _, _, _, _, _, _, _) => K.PlayerKill
    case PlayerKillAssist(_, _, _) => K.PlayerKillAssist
    case PlayerAttack(_, _, _, _, _, _, _, _, _, _, _) => K.PlayerAttack
    case PlayerKilledBomb(_, _, _) => K.PlayerKilledBomb
    case PlayerKilledSuicide(_, _, _, _) => K.PlayerKilledSuicide
    case PlayerPickedUp(_, _, _) => K.PlayerPickedUp
    case PlayerDropped(_, _, _) => K.PlayerDropped
    case PlayerMoneyChange(_, _, _, _) => K.PlayerMoneyChange
    case PlayerBombGot(_, _) => K.PlayerBombGot
    case PlayerBombPlanted(_, _) => K.PlayerBombPlanted
    case PlayerBombDropped(_, _) => K.PlayerBombDropped
    case PlayerBombBeginDefuse(_, _, _) => K.PlayerBombBeginDefuse
    case PlayerBombDefused(_, _) => K.PlayerBombDefused
    case PlayerThrew(_, _, _, _, _) => K.PlayerThrew
    case PlayerBlinded(_, _, _, _, _) => K.PlayerBlinded
    case ProjectileSpawned(_, _, _) => K.ProjectileSpawned
    case GameOver(_, _, _, _, _, _, _) => K.GameOver
    case Unknown(_, _) => K.Unknown
  }

  /** `Message.GetType`: the type string stored in the message's `Meta`. */
  function GetType(m: Message): string {
    K.Name(m.meta.kind)
  }

  /** `Message.GetTime`: the timestamp stored in the message's `Meta`. */
  function GetTime(m: Message): DateTime {
    m.meta.time
  }

  /** The stored type is the one of the message's own shape. */
  predicate Stamped(m: Message) {
    m.meta.kind == KindOf(m)
  }

  /** On stamped messages the type string alone determines the shape: a
      consumer that dispatches on "type" recovers the right kind. */
  lemma TypeDeterminesKind(m: Message, n: Message)
    requires Stamped(m) && Stamped(n)
    ensures GetType(m) == GetType(n) <==> KindOf(m) == KindOf(n)
  {
    K.NameInjective(KindOf(m), KindOf(n));
  }
}
