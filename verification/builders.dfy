/** The builders (`New*` in cs2/cs2log.go, `new*` in csgolog.go; the two sets
    are line for line the same). Each turns the timestamp and the capture
    list of its pattern into a typed message by positional indexing: capture
    0 is the whole match, captures 1.. are the pattern's groups in order, and
    a group that took no part in the match is the empty string. */
module Builders {
  import opened Base
  import opened Text
  import opened Coercion
  import opened Clock
  import opened Messages
  import K = Kinds

  /** `NewMeta`: the timestamp and type every builder stamps. */
  function NewMeta(t: DateTime, kind: K.Kind): (meta: Meta)
    ensures meta.time == t && meta.kind == kind
  {
    Meta(t, kind)
  }

  /** A player from the four captures name, id, steam id, side at `i`. */
  function PlayerAt(r: seq<string>, i: nat): Player
    requires i + 4 <= |r|
  {
    Player(r[i], ToInt(r[i + 1]), r[i + 2], r[i + 3])
  }

  /** A player from the three captures name, id, steam id at `i`, for the
      lines logged before the player has a side. */
  function SidelessPlayerAt(r: seq<string>, i: nat): Player
    requires i + 3 <= |r|
  {
    Player(r[i], ToInt(r[i + 1]), r[i + 2], "")
  }

  /** A position from the three coordinate captures at `i`. */
  function PositionAt(r: seq<string>, i: nat): Position
    requires i + 3 <= |r|
  {
    Position(ToInt(r[i]), ToInt(r[i + 1]), ToInt(r[i + 2]))
  }

  function NewServerMessage(t: DateTime, r: seq<string>): (m: Message)
    requires |r| >= 2
    ensures m.ServerMessage? && Stamped(m) && GetTime(m) == t
  {
    ServerMessage(NewMeta(t, K.ServerMessage), r[1])
  }

  function NewFreezTimeStart(t: DateTime, r: seq<string>): (m: Message)
    ensures m.FreezTimeStart? && Stamped(m) && GetTime(m) == t
  {
    FreezTimeStart(NewMeta(t, K.FreezTimeStart))
  }

  function NewWorldMatchStart(t: DateTime, r: seq<string>): (m: Message)
    requires |r| >= 2
    ensures m.WorldMatchStart? && Stamped(m) && GetTime(m) == t
  {
    WorldMatchStart(NewMeta(t, K.WorldMatchStart), r[1])
  }

  function NewWorldRoundStart(t: DateTime, r: seq<string>): (m: Message)
    ensures m.WorldRoundStart? && Stamped(m) && GetTime(m) == t
  {
    WorldRoundStart(NewMeta(t, K.WorldRoundStart))
  }

  function NewWorldRoundRestart(t: DateTime, r: seq<string>): (m: Message)
    requires |r| >= 2
    ensures m.WorldRoundRestart? && Stamped(m) && GetTime(m) == t
  {
    WorldRoundRestart(NewMeta(t, K.WorldRoundRestart), ToInt(r[1]))
  }

  function NewWorldRoundEnd(t: DateTime, r: seq<string>): (m: Message)
    ensures m.WorldRoundEnd? && Stamped(m) && GetTime(m) == t
  {
    WorldRoundEnd(NewMeta(t, K.WorldRoundEnd))
  }

  function NewWorldGameCommencing(t: DateTime, r: seq<string>): (m: Message)
    ensures m.WorldGameCommencing? && Stamped(m) && GetTime(m) == t
  {
    WorldGameCommencing(NewMeta(t, K.WorldGameCommencing))
  }

  function NewTeamScored(t: DateTime, r: seq<string>): (m: Message)
    requires |r| >= 4
    ensures m.TeamScored? && Stamped(m) && GetTime(m) == t
  {
    TeamScored(NewMeta(t, K.TeamScored), r[1], ToInt(r[2]), ToInt(r[3]))
  }

  function NewTeamNotice(t: DateTime, r: seq<string>): (m: Message)
    requires |r| >= 5
    ensures m.TeamNotice? && Stamped(m) && GetTime(m) == t
  {
    TeamNotice(NewMeta(t, K.TeamNotice), r[1], r[2], ToInt(r[3]), ToInt(r[4]))
  }

  function NewPlayerConnected(t: DateTime, r: seq<string>): (m: Message)
    requires |r| >= 5
    ensures m.PlayerConnected? && Stamped(m) && GetTime(m) == t
    ensures m.player.side == ""
  {
    PlayerConnected(NewMeta(t, K.PlayerConnected), SidelessPlayerAt(r, 1), r[4])
  }

  function NewPlayerDisconnected(t: DateTime, r: seq<string>): (m: Message)
    requires |r| >= 6
    ensures m.PlayerDisconnected? && Stamped(m) && GetTime(m) == t
  {
    PlayerDisconnected(NewMeta(t, K.PlayerDisconnected), PlayerAt(r, 1), r[5])
  }

  function NewPlayerEntered(t: DateTime, r: seq<string>): (m: Message)
    requires |r| >= 4
    ensures m.PlayerEntered? && Stamped(m) && GetTime(m) == t
    ensures m.player.side == ""
  {
    PlayerEntered(NewMeta(t, K.PlayerEntered), SidelessPlayerAt(r, 1))
  }

  function NewPlayerBanned(t: DateTime, r: seq<string>): (m: Message)
    requires |r| >= 6
    ensures m.PlayerBanned? && Stamped(m) && GetTime(m) == t
    ensures m.player.side == ""
  {
    PlayerBanned(NewMeta(t, K.PlayerBanned), SidelessPlayerAt(r, 1), r[4], r[5])
  }

  function NewPlayerSwitched(t: DateTime, r: seq<string>): (m: Message)
    requires |r| >= 6
    ensures m.PlayerSwitched? && Stamped(m) && GetTime(m) == t
    ensures m.player.side == ""
  {
    PlayerSwitched(NewMeta(t, K.PlayerSwitched), SidelessPlayerAt(r, 1), r[4], r[5])
  }

  function NewPlayerSay(t: DateTime, r: seq<string>): (m: Message)
    requires |r| >= 7
    ensures m.PlayerSay? && Stamped(m) && GetTime(m) == t
    ensures m.team <==> r[5] == "_team"
  {
    PlayerSay(NewMeta(t, K.PlayerSay), PlayerAt(r, 1), r[6], r[5] == "_team")
  }

  function NewPlayerPurchase(t: DateTime, r: seq<string>): (m: Message)
    requires |r| >= 6
    ensures m.PlayerPurchase? && Stamped(m) && GetTime(m) == t
  {
    PlayerPurchase(NewMeta(t, K.PlayerPurchase), PlayerAt(r, 1), r[5])
  }

  /** The kill flags come from capture 17, the optional
      `headshot|penetrated|headshot penetrated` group, by two independent
      substring tests. */
  function NewPlayerKill(t: DateTime, r: seq<string>): (m: Message)
    requires |r| >= 18
    ensures m.PlayerKill? && Stamped(m) && GetTime(m) == t
    ensures m.headshot <==> exists i :: 0 <= i <= |r[17]| && OccursAt(r[17], "headshot", i)
    ensures m.penetrated <==> exists i :: 0 <= i <= |r[17]| && OccursAt(r[17], "penetrated", i)
  {
    PlayerKill(NewMeta(t, K.PlayerKill), PlayerAt(r, 1), PositionAt(r, 5), PlayerAt(r, 8),
               PositionAt(r, 12), r[15], Contains(r[17], "headshot"), Contains(r[17], "penetrated"))
  }

  function NewPlayerKillAssist(t: DateTime, r: seq<string>): (m: Message)
    requires |r| >= 9
    ensures m.PlayerKillAssist? && Stamped(m) && GetTime(m) == t
  {
    PlayerKillAssist(NewMeta(t, K.PlayerKillAssist), PlayerAt(r, 1), PlayerAt(r, 5))
  }

  function NewPlayerAttack(t: DateTime, r: seq<string>): (m: Message)
    requires |r| >= 21
    ensures m.PlayerAttack? && Stamped(m) && GetTime(m) == t
  {
    PlayerAttack(NewMeta(t, K.PlayerAttack), PlayerAt(r, 1), PositionAt(r, 5), PlayerAt(r, 8),
                 PositionAt(r, 12), r[15], ToInt(r[16]), ToInt(r[17]), ToInt(r[18]),
                 ToInt(r[19]), r[20])
  }

  function NewPlayerKilledBomb(t: DateTime, r: seq<string>): (m: Message)
    requires |r| >= 8
    ensures m.PlayerKilledBomb? && Stamped(m) && GetTime(m) == t
  {
    PlayerKilledBomb(NewMeta(t, K.PlayerKilledBomb), PlayerAt(r, 1), PositionAt(r, 5))
  }

  function NewPlayerKilledSuicide(t: DateTime, r: seq<string>): (m: Message)
    requires |r| >= 9
    ensures m.PlayerKilledSuicide? && Stamped(m) && GetTime(m) == t
  {
    PlayerKilledSuicide(NewMeta(t, K.PlayerKilledSuicide), PlayerAt(r, 1), PositionAt(r, 5), r[8])
  }

  function NewPlayerPickedUp(t: DateTime, r: seq<string>): (m: Message)
    requires |r| >= 6
    ensures m.PlayerPickedUp? && Stamped(m) && GetTime(m) == t
  {
    PlayerPickedUp(NewMeta(t, K.PlayerPickedUp), PlayerAt(r, 1), r[5])
  }

  function NewPlayerDropped(t: DateTime, r: seq<string>): (m: Message)
    requires |r| >= 6
    ensures m.PlayerDropped? && Stamped(m) && GetTime(m) == t
  {
    PlayerDropped(NewMeta(t, K.PlayerDropped), PlayerAt(r, 1), r[5])
  }

  /** Captures 5, 6 and 7 are the equation's A, signed B and result; capture
      8 is the optional ` (purchase: …)` group and 9 the item inside it. */
  function NewPlayerMoneyChange(t: DateTime, r: seq<string>): (m: Message)
    requires |r| >= 10
    ensures m.PlayerMoneyChange? && Stamped(m) && GetTime(m) == t
  {
    PlayerMoneyChange(NewMeta(t, K.PlayerMoneyChange), PlayerAt(r, 1),
                      Equation(ToInt(r[5]), ToInt(r[6]), ToInt(r[7])), r[9])
  }

  function NewPlayerBombGot(t: DateTime, r: seq<string>): (m: Message)
    requires |r| >= 5
    ensures m.PlayerBombGot? && Stamped(m) && GetTime(m) == t
  {
    PlayerBombGot(NewMeta(t, K.PlayerBombGot), PlayerAt(r, 1))
  }

  function NewPlayerBombPlanted(t: DateTime, r: seq<string>): (m: Message)
    requires |r| >= 5
    ensures m.PlayerBombPlanted? && Stamped(m) && GetTime(m) == t
  {
    PlayerBombPlanted(NewMeta(t, K.PlayerBombPlanted), PlayerAt(r, 1))
  }

  function NewPlayerBombDropped(t: DateTime, r: seq<string>): (m: Message)
    requires |r| >= 5
    ensures m.PlayerBombDropped? && Stamped(m) && GetTime(m) == t
  {
    PlayerBombDropped(NewMeta(t, K.PlayerBombDropped), PlayerAt(r, 1))
  }

  /** Capture 5 is the optional `out` of `Begin_Bomb_Defuse_With(out)?_Kit`. */
  function NewPlayerBombBeginDefuse(t: DateTime, r: seq<string>): (m: Message)
    requires |r| >= 6
    ensures m.PlayerBombBeginDefuse? && Stamped(m) && GetTime(m) == t
    ensures !m.kit <==> r[5] == "out"
  {
    PlayerBombBeginDefuse(NewMeta(t, K.PlayerBombBeginDefuse), PlayerAt(r, 1), !(r[5] == "out"))
  }

  function NewPlayerBombDefused(t: DateTime, r: seq<string>): (m: Message)
    requires |r| >= 5
    ensures m.PlayerBombDefused? && Stamped(m) && GetTime(m) == t
  {
    PlayerBombDefused(NewMeta(t, K.PlayerBombDefused), PlayerAt(r, 1))
  }

  /** Capture 9 is the optional ` flashbang entindex N` group; the builder
      reads only N (capture 10), which is empty, hence 0, when it is absent. */
  function NewPlayerThrew(t: DateTime, r: seq<string>): (m: Message)
    requires |r| >= 11
    ensures m.PlayerThrew? && Stamped(m) && GetTime(m) == t
  {
    PlayerThrew(NewMeta(t, K.PlayerThrew), PlayerAt(r, 1), PositionAt(r, 6), ToInt(r[10]), r[5])
  }

  /** The blinded player comes first in the line, the attacker second. */
  function NewPlayerBlinded(t: DateTime, r: seq<string>): (m: Message)
    requires |r| >= 11
    ensures m.PlayerBlinded? && Stamped(m) && GetTime(m) == t
  {
    PlayerBlinded(NewMeta(t, K.PlayerBlinded), PlayerAt(r, 6), PlayerAt(r, 1), r[5], ToInt(r[10]))
  }

  function NewProjectileSpawned(t: DateTime, r: seq<string>): (m: Message)
    requires |r| >= 7
    ensures m.ProjectileSpawned? && Stamped(m) && GetTime(m) == t
  {
    ProjectileSpawned(NewMeta(t, K.ProjectileSpawned), FloatTriple(r[1], r[2], r[3]),
                      FloatTriple(r[4], r[5], r[6]))
  }

  function NewGameOver(t: DateTime, r: seq<string>): (m: Message)
    requires |r| >= 7
    ensures m.GameOver? && Stamped(m) && GetTime(m) == t
  {
    GameOver(NewMeta(t, K.GameOver), r[1], r[2], r[3], ToInt(r[4]), ToInt(r[5]), ToInt(r[6]))
  }

  /** The fallback builder. The parser hands it the log line's captures
      without the whole match, `[timestamp, body]`, so index 1 is the body. */
  function NewUnknown(t: DateTime, r: seq<string>): (m: Message)
    requires |r| >= 2
    ensures m.Unknown? && Stamped(m) && GetTime(m) == t
  {
    Unknown(NewMeta(t, K.Unknown), r[1])
  }

  /** The builder bound to a kind, applied. Whatever the captures, the result
      has the kind's shape, carries the kind's own type string and the given
      timestamp. */
  function Build(k: K.Kind, t: DateTime, r: seq<string>): (m: Message)
    requires |r| >= K.CapturesNeeded(k)
    ensures KindOf(m) == k && m.meta == Meta(t, k)
  {
    match k
    case ServerMessage => NewServerMessage(t, r)
    case FreezTimeStart => NewFreezTimeStart(t, r)
    case WorldMatchStart => NewWorldMatchStart(t, r)
    case WorldRoundStart => NewWorldRoundStart(t, r)
    case WorldRoundRestart => NewWorldRoundRestart(t, r)
    case WorldRoundEnd => NewWorldRoundEnd(t, r)
    case WorldGameCommencing => NewWorldGameCommencing(t, r)
    case TeamScored => NewTeamScored(t, r)
    case TeamNotice => NewTeamNotice(t, r)
    case PlayerConnected => NewPlayerConnected(t, r)
    case PlayerDisconnected => NewPlayerDisconnected(t, r)
    case PlayerEntered => NewPlayerEntered(t, r)
    case PlayerBanned => NewPlayerBanned(t, r)
    case PlayerSwitched => NewPlayerSwitched(t, r)
    case PlayerSay => NewPlayerSay(t, r)
    case PlayerPurchase => NewPlayerPurchase(t, r)
    case PlayerKill => NewPlayerKill(t, r)
    case PlayerKillAssist => NewPlayerKillAssist(t, r)
    case PlayerAttack => NewPlayerAttack(t, r)
    case PlayerKilledBomb => NewPlayerKilledBomb(t, r)
    case PlayerKilledSuicide => NewPlayerKilledSuicide(t, r)
    case PlayerPickedUp => NewPlayerPickedUp(t, r)
    case PlayerDropped => NewPlayerDropped(t, r)
    case PlayerMoneyChange => NewPlayerMoneyChange(t, r)
    case PlayerBombGot => NewPlayerBombGot(t, r)
    case PlayerBombPlanted => NewPlayerBombPlanted(t, r)
    case PlayerBombDropped => NewPlayerBombDropped(t, r)
    case PlayerBombBeginDefuse => NewPlayerBombBeginDefuse(t, r)
    case PlayerBombDefused => NewPlayerBombDefused(t, r)
    case PlayerThrew => NewPlayerThrew(t, r)
    case PlayerBlinded => NewPlayerBlinded(t, r)
    case ProjectileSpawned => NewProjectileSpawned(t, r)
    case GameOver => NewGameOver(t, r)
    case Unknown => NewUnknown(t, r)
  }
  /** `GetTime` and `GetType` read back what the builder stored: the time it
      was given and the type string of its kind, which names that kind. */
  lemma BuildGetters(k: K.Kind, t: DateTime, r: seq<string>)
    requires |r| >= K.CapturesNeeded(k)
    ensures GetTime(Build(k, t, r)) == t
    ensures K.FromName(GetType(Build(k, t, r))) == Some(k)
  {
    K.NameRoundTrip(k);
  }


  /** The flags group of a kill line, as the server writes it. */
  function FlagsText(headshot: bool, penetrated: bool): string {
    if headshot && penetrated then "headshot penetrated"
    else if headshot then "headshot"
    else if penetrated then "penetrated"
    else ""
  }

  /** The two substring tests recover both flags from every form the flags
      group takes, and both are false when the group is absent. */
  lemma {:induction false} KillFlagsReadBack(headshot: bool, penetrated: bool)
    ensures Contains(FlagsText(headshot, penetrated), "headshot") == headshot
    ensures Contains(FlagsText(headshot, penetrated), "penetrated") == penetrated
  {
    var s := FlagsText(headshot, penetrated);
    if headshot {
      assert OccursAt(s, "headshot", 0) by { assert s[0..8] == "headshot"; }
    } else if penetrated {
      forall i | 0 <= i <= |s| ensures !OccursAt(s, "headshot", i) {
        if i <= 2 {
          assert s[i] != 'h';
        }
      }
    } else {
      assert |s| == 0;
    }
    if penetrated {
      var i := |s| - 10;
      assert OccursAt(s, "penetrated", i) by { assert s[i..i + 10] == "penetrated"; }
    } else {
      assert |s| < |"penetrated"|;
    }
  }

  /** The kinds whose captures `Unbuild` writes in one piece. */
  datatype Family = World | Match | Presence | Combat | Bomb

  function FamilyOf(k: K.Kind): Family {
    match k
    case ServerMessage => World
    case FreezTimeStart => World
    case WorldMatchStart => World
    case WorldRoundStart => World
    case WorldRoundRestart => World
    case WorldRoundEnd => World
    case WorldGameCommencing => World
    case TeamScored => Match
    case TeamNotice => Match
    case ProjectileSpawned => Match
    case GameOver => Match
    case Unknown => World
    case PlayerConnected => Presence
    case PlayerDisconnected => Presence
    case PlayerEntered => Presence
    case PlayerBanned => Presence
    case PlayerSwitched => Presence
    case PlayerSay => Presence
    case PlayerPurchase => Presence
    case PlayerPickedUp => Presence
    case PlayerDropped => Presence
    case PlayerMoneyChange => Presence
    case PlayerKill => Combat
    case PlayerKillAssist => Combat
    case PlayerAttack => Combat
    case PlayerKilledBomb => Combat
    case PlayerKilledSuicide => Combat
    case PlayerThrew => Combat
    case PlayerBlinded => Combat
    case PlayerBombGot => Bomb
    case PlayerBombPlanted => Bomb
    case PlayerBombDropped => Bomb
    case PlayerBombBeginDefuse => Bomb
    case PlayerBombDefused => Bomb
  }

  /** The captures a message's fields give back, laid out as Go's engine
      reports them for the message's pattern: the whole match first, left
      empty since no builder reads it, then one capture per group, optional
      groups that took no part being empty. There is one capture more than
      the pattern has groups (`Dispatch.UnbuildMatchesGroups`). */
  function Unbuild(m: Message): (r: seq<string>)
    ensures |r| == if K.CapturesNeeded(KindOf(m)) == 0 then 1 else K.CapturesNeeded(KindOf(m))
  {
    match FamilyOf(KindOf(m))
    case World => UnbuildWorld(m)
    case Match => UnbuildMatch(m)
    case Presence => UnbuildPresence(m)
    case Combat => UnbuildCombat(m)
    case Bomb => UnbuildBomb(m)
  }

  /** `Unbuild` on the server, world and fallback messages. */
  function UnbuildWorld(m: Message): (r: seq<string>)
    requires FamilyOf(KindOf(m)) == World
    ensures |r| == if K.CapturesNeeded(KindOf(m)) == 0 then 1 else K.CapturesNeeded(KindOf(m))
  {
    match m
    case ServerMessage(_, text) =>
      assert KindOf(m) == K.ServerMessage;
      ["", text]
    case FreezTimeStart(_) =>
      assert KindOf(m) == K.FreezTimeStart;
      [""]
    case WorldMatchStart(_, mapName) =>
      assert KindOf(m) == K.WorldMatchStart;
      ["", mapName]
    case WorldRoundStart(_) =>
      assert KindOf(m) == K.WorldRoundStart;
      [""]
    case WorldRoundRestart(_, timeleft) =>
      assert KindOf(m) == K.WorldRoundRestart;
      ["", FormatInt(timeleft)]
    case WorldRoundEnd(_) =>
      assert KindOf(m) == K.WorldRoundEnd;
      [""]
    case WorldGameCommencing(_) =>
      assert KindOf(m) == K.WorldGameCommencing;
      [""]
    case Unknown(_, raw) =>
      assert KindOf(m) == K.Unknown;
      ["", raw]
  }

  /** `Unbuild` on the team results, projectiles and the game's end. */
  function UnbuildMatch(m: Message): (r: seq<string>)
    requires FamilyOf(KindOf(m)) == Match
    ensures |r| == if K.CapturesNeeded(KindOf(m)) == 0 then 1 else K.CapturesNeeded(KindOf(m))
  {
    match m
    case TeamScored(_, side, score, numPlayers) =>
      assert KindOf(m) == K.TeamScored;
      ["", side, FormatInt(score), FormatInt(numPlayers)]
    case TeamNotice(_, side, notice, scoreCT, scoreT) =>
      assert KindOf(m) == K.TeamNotice;
      ["", side, notice, FormatInt(scoreCT), FormatInt(scoreT)]
    case ProjectileSpawned(_, o, v) =>
      assert KindOf(m) == K.ProjectileSpawned;
      ["", o.x, o.y, o.z, v.x, v.y, v.z]
    case GameOver(_, mode, mapGroup, mapName, scoreCT, scoreT, minutes) =>
      assert KindOf(m) == K.GameOver;
      ["", mode, mapGroup, mapName, FormatInt(scoreCT), FormatInt(scoreT), FormatInt(minutes)]
  }

  /** `Unbuild` on the messages about one player joining, leaving, talking or trading. */
  function UnbuildPresence(m: Message): (r: seq<string>)
    requires FamilyOf(KindOf(m)) == Presence
    ensures |r| == if K.CapturesNeeded(KindOf(m)) == 0 then 1 else K.CapturesNeeded(KindOf(m))
  {
    match m
    case PlayerConnected(_, p, address) =>
      assert KindOf(m) == K.PlayerConnected;
      ["", p.name, FormatInt(p.id), p.steamId, address]
    case PlayerDisconnected(_, p, reason) =>
      assert KindOf(m) == K.PlayerDisconnected;
      ["", p.name, FormatInt(p.id), p.steamId, p.side, reason]
    case PlayerEntered(_, p) =>
      assert KindOf(m) == K.PlayerEntered;
      ["", p.name, FormatInt(p.id), p.steamId]
    case PlayerBanned(_, p, duration, bannedBy) =>
      assert KindOf(m) == K.PlayerBanned;
      ["", p.name, FormatInt(p.id), p.steamId, duration, bannedBy]
    case PlayerSwitched(_, p, fromSide, toSide) =>
      assert KindOf(m) == K.PlayerSwitched;
      ["", p.name, FormatInt(p.id), p.steamId, fromSide, toSide]
    case PlayerSay(_, p, text, team) =>
      assert KindOf(m) == K.PlayerSay;
      ["", p.name, FormatInt(p.id), p.steamId, p.side, if team then "_team" else "", text]
    case PlayerPurchase(_, p, item) =>
      assert KindOf(m) == K.PlayerPurchase;
      ["", p.name, FormatInt(p.id), p.steamId, p.side, item]
    case PlayerPickedUp(_, p, item) =>
      assert KindOf(m) == K.PlayerPickedUp;
      ["", p.name, FormatInt(p.id), p.steamId, p.side, item]
    case PlayerDropped(_, p, item) =>
      assert KindOf(m) == K.PlayerDropped;
      ["", p.name, FormatInt(p.id), p.steamId, p.side, item]
    case PlayerMoneyChange(_, p, eq, purchase) =>
      assert KindOf(m) == K.PlayerMoneyChange;
      ["", p.name, FormatInt(p.id), p.steamId, p.side, FormatInt(eq.a), FormatInt(eq.b),
       FormatInt(eq.result), if purchase == "" then "" else " (purchase: " + purchase + ")",
       purchase]
  }

  /** `Unbuild` on the messages about fights, throws and flashes. */
  function UnbuildCombat(m: Message): (r: seq<string>)
    requires FamilyOf(KindOf(m)) == Combat
    ensures |r| == if K.CapturesNeeded(KindOf(m)) == 0 then 1 else K.CapturesNeeded(KindOf(m))
  {
    match m
    case PlayerKill(_, a, ap, v, vp, weapon, headshot, penetrated) =>
      assert KindOf(m) == K.PlayerKill;
      var flags := FlagsText(headshot, penetrated);
      ["", a.name, FormatInt(a.id), a.steamId, a.side, FormatInt(ap.x), FormatInt(ap.y),
       FormatInt(ap.z), v.name, FormatInt(v.id), v.steamId, v.side, FormatInt(vp.x),
       FormatInt(vp.y), FormatInt(vp.z), weapon, if flags == "" then "" else "(" + flags + ")",
       flags]
    case PlayerKillAssist(_, a, v) =>
      assert KindOf(m) == K.PlayerKillAssist;
      ["", a.name, FormatInt(a.id), a.steamId, a.side, v.name, FormatInt(v.id), v.steamId, v.side]
    case PlayerAttack(_, a, ap, v, vp, weapon, damage, damageArmor, health, armor, hitgroup) =>
      assert KindOf(m) == K.PlayerAttack;
      ["", a.name, FormatInt(a.id), a.steamId, a.side, FormatInt(ap.x), FormatInt(ap.y),
       FormatInt(ap.z), v.name, FormatInt(v.id), v.steamId, v.side, FormatInt(vp.x),
       FormatInt(vp.y), FormatInt(vp.z), weapon, FormatInt(damage), FormatInt(damageArmor),
       FormatInt(health), FormatInt(armor), hitgroup]
    case PlayerKilledBomb(_, p, pos) =>
      assert KindOf(m) == K.PlayerKilledBomb;
      ["", p.name, FormatInt(p.id), p.steamId, p.side, FormatInt(pos.x), FormatInt(pos.y),
       FormatInt(pos.z)]
    case PlayerKilledSuicide(_, p, pos, weapon) =>
      assert KindOf(m) == K.PlayerKilledSuicide;
      ["", p.name, FormatInt(p.id), p.steamId, p.side, FormatInt(pos.x), FormatInt(pos.y),
       FormatInt(pos.z), weapon]
    case PlayerThrew(_, p, pos, entindex, grenade) =>
      assert KindOf(m) == K.PlayerThrew;
      ["", p.name, FormatInt(p.id), p.steamId, p.side, grenade, FormatInt(pos.x),
       FormatInt(pos.y), FormatInt(pos.z), " flashbang entindex " + FormatInt(entindex),
       FormatInt(entindex)]
    case PlayerBlinded(_, a, v, seconds, entindex) =>
      assert KindOf(m) == K.PlayerBlinded;
      ["", v.name, FormatInt(v.id), v.steamId, v.side, seconds, a.name, FormatInt(a.id),
       a.steamId, a.side, FormatInt(entindex)]
  }

  /** `Unbuild` on the messages about the bomb. */
  function UnbuildBomb(m: Message): (r: seq<string>)
    requires FamilyOf(KindOf(m)) == Bomb
    ensures |r| == if K.CapturesNeeded(KindOf(m)) == 0 then 1 else K.CapturesNeeded(KindOf(m))
  {
    match m
    case PlayerBombGot(_, p) =>
      assert KindOf(m) == K.PlayerBombGot;
      ["", p.name, FormatInt(p.id), p.steamId, p.side]
    case PlayerBombPlanted(_, p) =>
      assert KindOf(m) == K.PlayerBombPlanted;
      ["", p.name, FormatInt(p.id), p.steamId, p.side]
    case PlayerBombDropped(_, p) =>
      assert KindOf(m) == K.PlayerBombDropped;
      ["", p.name, FormatInt(p.id), p.steamId, p.side]
    case PlayerBombBeginDefuse(_, p, kit) =>
      assert KindOf(m) == K.PlayerBombBeginDefuse;
      ["", p.name, FormatInt(p.id), p.steamId, p.side, if kit then "" else "out"]
    case PlayerBombDefused(_, p) =>
      assert KindOf(m) == K.PlayerBombDefused;
      ["", p.name, FormatInt(p.id), p.steamId, p.side]
  }

  predicate PlayerInRange(p: Player) {
    InIntRange(p.id)
  }

  predicate PositionInRange(p: Position) {
    InIntRange(p.x) && InIntRange(p.y) && InIntRange(p.z)
  }

  /** A message the builders can produce: its type string is its own kind's,
      every integer fits Go's 64-bit `int`, and the kinds whose lines carry
      no side have an empty side. */
  predicate Canonical(m: Message) {
    && Stamped(m)
    && match m
       case WorldRoundRestart(_, timeleft) => InIntRange(timeleft)
       case TeamScored(_, _, score, numPlayers) => InIntRange(score) && InIntRange(numPlayers)
       case TeamNotice(_, _, _, scoreCT, scoreT) => InIntRange(scoreCT) && InIntRange(scoreT)
       case PlayerConnected(_, p, _) => PlayerInRange(p) && p.side == ""
       case PlayerDisconnected(_, p, _) => PlayerInRange(p)
       case PlayerEntered(_, p) => PlayerInRange(p) && p.side == ""
       case PlayerBanned(_, p, _, _) => PlayerInRange(p) && p.side == ""
       case PlayerSwitched(_, p, _, _) => PlayerInRange(p) && p.side == ""
       case PlayerSay(_, p, _, _) => PlayerInRange(p)
       case PlayerPurchase(_, p, _) => PlayerInRange(p)
       case PlayerKill(_, a, ap, v, vp, _, _, _) =>
         PlayerInRange(a) && PositionInRange(ap) && PlayerInRange(v) && PositionInRange(vp)
       case PlayerKillAssist(_, a, v) => PlayerInRange(a) && PlayerInRange(v)
       case PlayerAttack(_, a, ap, v, vp, _, damage, damageArmor, health, armor, _) =>
         && PlayerInRange(a) && PositionInRange(ap) && PlayerInRange(v) && PositionInRange(vp)
         && InIntRange(damage) && InIntRange(damageArmor) && InIntRange(health) && InIntRange(armor)
       case PlayerKilledBomb(_, p, pos) => PlayerInRange(p) && PositionInRange(pos)
       case PlayerKilledSuicide(_, p, pos, _) => PlayerInRange(p) && PositionInRange(pos)
       case PlayerPickedUp(_, p, _) => PlayerInRange(p)
       case PlayerDropped(_, p, _) => PlayerInRange(p)
       case PlayerMoneyChange(_, p, eq, _) =>
         PlayerInRange(p) && InIntRange(eq.a) && InIntRange(eq.b) && InIntRange(eq.result)
       case PlayerBombGot(_, p) => PlayerInRange(p)
       case PlayerBombPlanted(_, p) => PlayerInRange(p)
       case PlayerBombDropped(_, p) => PlayerInRange(p)
       case PlayerBombBeginDefuse(_, p, _) => PlayerInRange(p)
       case PlayerBombDefused(_, p) => PlayerInRange(p)
       case PlayerThrew(_, p, pos, entindex, _) =>
         PlayerInRange(p) && PositionInRange(pos) && InIntRange(entindex)
       case PlayerBlinded(_, a, v, _, entindex) =>
         PlayerInRange(a) && PlayerInRange(v) && InIntRange(entindex)
       case GameOver(_, _, _, _, scoreCT, scoreT, minutes) =>
         InIntRange(scoreCT) && InIntRange(scoreT) && InIntRange(minutes)
       case _ => true
  }

  /** The builders lose nothing: a canonical message is rebuilt exactly from
      its own captures and timestamp. Together with `Build`'s contract this
      says the builders are onto the canonical messages. */
  lemma {:induction false} BuildUnbuild(m: Message)
    requires Canonical(m)
    ensures Build(KindOf(m), GetTime(m), Unbuild(m)) == m
  {
    match FamilyOf(KindOf(m))
    case World => BuildUnbuildWorld(m);
    case Match => BuildUnbuildMatch(m);
    case Presence => BuildUnbuildPresence(m);
    case Combat => BuildUnbuildCombat(m);
    case Bomb => BuildUnbuildBomb(m);
  }

  /** The other half: every message a builder produces is canonical, since
      `toInt` only yields 64-bit values and the sideless builders set no side.
      With `BuildUnbuild`, the canonical messages are exactly the builders'
      range. */
  lemma BuildCanonical(k: K.Kind, t: DateTime, r: seq<string>)
    requires |r| >= K.CapturesNeeded(k)
    ensures Canonical(Build(k, t, r))
  {
    match FamilyOf(k)
    case World => BuildCanonicalWorld(k, t, r);
    case Match => BuildCanonicalMatch(k, t, r);
    case Presence => BuildCanonicalPresence(k, t, r);
    case Combat => BuildCanonicalCombat(k, t, r);
    case Bomb => BuildCanonicalBomb(k, t, r);
  }

  // The five family lemmas below only split `BuildCanonical` by family,
  // to keep each proof small.
  lemma BuildCanonicalWorld(k: K.Kind, t: DateTime, r: seq<string>)
    requires |r| >= K.CapturesNeeded(k) && FamilyOf(k) == World
    ensures Canonical(Build(k, t, r))
  {
    forall s: string
      ensures InIntRange(ToInt(s))
    {
      ToIntMeaning(s);
    }
  }

  lemma BuildCanonicalMatch(k: K.Kind, t: DateTime, r: seq<string>)
    requires |r| >= K.CapturesNeeded(k) && FamilyOf(k) == Match
    ensures Canonical(Build(k, t, r))
  {
    forall s: string
      ensures InIntRange(ToInt(s))
    {
      ToIntMeaning(s);
    }
  }

  lemma BuildCanonicalPresence(k: K.Kind, t: DateTime, r: seq<string>)
    requires |r| >= K.CapturesNeeded(k) && FamilyOf(k) == Presence
    ensures Canonical(Build(k, t, r))
  {
    forall s: string
      ensures InIntRange(ToInt(s))
    {
      ToIntMeaning(s);
    }
  }

  lemma BuildCanonicalCombat(k: K.Kind, t: DateTime, r: seq<string>)
    requires |r| >= K.CapturesNeeded(k) && FamilyOf(k) == Combat
    ensures Canonical(Build(k, t, r))
  {
    forall s: string
      ensures InIntRange(ToInt(s))
    {
      ToIntMeaning(s);
    }
  }

  lemma BuildCanonicalBomb(k: K.Kind, t: DateTime, r: seq<string>)
    requires |r| >= K.CapturesNeeded(k) && FamilyOf(k) == Bomb
    ensures Canonical(Build(k, t, r))
  {
    forall s: string
      ensures InIntRange(ToInt(s))
    {
      ToIntMeaning(s);
    }
  }

  lemma {:induction false} BuildUnbuildWorld(m: Message)
    requires Canonical(m) && FamilyOf(KindOf(m)) == World
    ensures Build(KindOf(m), GetTime(m), Unbuild(m)) == m
  {
    match m {
      case ServerMessage(_, _) => RoundTripServerMessage(m);
      case FreezTimeStart(_) => RoundTripFreezTimeStart(m);
      case WorldMatchStart(_, _) => RoundTripWorldMatchStart(m);
      case WorldRoundStart(_) => RoundTripWorldRoundStart(m);
      case WorldRoundRestart(_, _) => RoundTripWorldRoundRestart(m);
      case WorldRoundEnd(_) => RoundTripWorldRoundEnd(m);
      case WorldGameCommencing(_) => RoundTripWorldGameCommencing(m);
      case Unknown(_, _) => RoundTripUnknown(m);
    }
  }

  lemma {:induction false} BuildUnbuildMatch(m: Message)
    requires Canonical(m) && FamilyOf(KindOf(m)) == Match
    ensures Build(KindOf(m), GetTime(m), Unbuild(m)) == m
  {
    match m {
      case TeamScored(_, _, _, _) => RoundTripTeamScored(m);
      case TeamNotice(_, _, _, _, _) => RoundTripTeamNotice(m);
      case ProjectileSpawned(_, _, _) => RoundTripProjectileSpawned(m);
      case GameOver(_, _, _, _, _, _, _) => RoundTripGameOver(m);
    }
  }

  lemma {:induction false} BuildUnbuildPresence(m: Message)
    requires Canonical(m) && FamilyOf(KindOf(m)) == Presence
    ensures Build(KindOf(m), GetTime(m), Unbuild(m)) == m
  {
    match m {
      case PlayerConnected(_, _, _) => RoundTripPlayerConnected(m);
      case PlayerDisconnected(_, _, _) => RoundTripPlayerDisconnected(m);
      case PlayerEntered(_, _) => RoundTripPlayerEntered(m);
      case PlayerBanned(_, _, _, _) => RoundTripPlayerBanned(m);
      case PlayerSwitched(_, _, _, _) => RoundTripPlayerSwitched(m);
      case PlayerSay(_, _, _, _) => RoundTripPlayerSay(m);
      case PlayerPurchase(_, _, _) => RoundTripPlayerPurchase(m);
      case PlayerPickedUp(_, _, _) => RoundTripPlayerPickedUp(m);
      case PlayerDropped(_, _, _) => RoundTripPlayerDropped(m);
      case PlayerMoneyChange(_, _, _, _) => RoundTripPlayerMoneyChange(m);
    }
  }

  lemma {:induction false} BuildUnbuildCombat(m: Message)
    requires Canonical(m) && FamilyOf(KindOf(m)) == Combat
    ensures Build(KindOf(m), GetTime(m), Unbuild(m)) == m
  {
    match m {
      case PlayerKill(_, _, _, _, _, _, _, _) => RoundTripPlayerKill(m);
      case PlayerKillAssist(_, _, _) => RoundTripPlayerKillAssist(m);
      case PlayerAttack(_, _, _, _, _, _, _, _, _, _, _) => RoundTripPlayerAttack(m);
      case PlayerKilledBomb(_, _, _) => RoundTripPlayerKilledBomb(m);
      case PlayerKilledSuicide(_, _, _, _) => RoundTripPlayerKilledSuicide(m);
      case PlayerThrew(_, _, _, _, _) => RoundTripPlayerThrew(m);
      case PlayerBlinded(_, _, _, _, _) => RoundTripPlayerBlinded(m);
    }
  }

  lemma {:induction false} BuildUnbuildBomb(m: Message)
    requires Canonical(m) && FamilyOf(KindOf(m)) == Bomb
    ensures Build(KindOf(m), GetTime(m), Unbuild(m)) == m
  {
    match m {
      case PlayerBombGot(_, _) => RoundTripPlayerBombGot(m);
      case PlayerBombPlanted(_, _) => RoundTripPlayerBombPlanted(m);
      case PlayerBombDropped(_, _) => RoundTripPlayerBombDropped(m);
      case PlayerBombBeginDefuse(_, _, _) => RoundTripPlayerBombBeginDefuse(m);
      case PlayerBombDefused(_, _) => RoundTripPlayerBombDefused(m);
    }
  }

  lemma {:induction false} RoundTripServerMessage(m: Message)
    requires Canonical(m) && m.ServerMessage?
    ensures Build(KindOf(m), GetTime(m), Unbuild(m)) == m
  {
    assert KindOf(m) == K.ServerMessage;
    assert m.meta == NewMeta(GetTime(m), KindOf(m));
    assert Unbuild(m) == UnbuildWorld(m);
    assert Build(K.ServerMessage, GetTime(m), Unbuild(m))
        == NewServerMessage(GetTime(m), Unbuild(m));
  }

  lemma {:induction false} RoundTripFreezTimeStart(m: Message)
    requires Canonical(m) && m.FreezTimeStart?
    ensures Build(KindOf(m), GetTime(m), Unbuild(m)) == m
  {
    assert KindOf(m) == K.FreezTimeStart;
    assert m.meta == NewMeta(GetTime(m), KindOf(m));
    assert Unbuild(m) == UnbuildWorld(m);
    assert Build(K.FreezTimeStart, GetTime(m), Unbuild(m))
        == NewFreezTimeStart(GetTime(m), Unbuild(m));
  }

  lemma {:induction false} RoundTripWorldMatchStart(m: Message)
    requires Canonical(m) && m.WorldMatchStart?
    ensures Build(KindOf(m), GetTime(m), Unbuild(m)) == m
  {
    assert KindOf(m) == K.WorldMatchStart;
    assert m.meta == NewMeta(GetTime(m), KindOf(m));
    assert Unbuild(m) == UnbuildWorld(m);
    assert Build(K.WorldMatchStart, GetTime(m), Unbuild(m))
        == NewWorldMatchStart(GetTime(m), Unbuild(m));
  }

  lemma {:induction false} RoundTripWorldRoundStart(m: Message)
    requires Canonical(m) && m.WorldRoundStart?
    ensures Build(KindOf(m), GetTime(m), Unbuild(m)) == m
  {
    assert KindOf(m) == K.WorldRoundStart;
    assert m.meta == NewMeta(GetTime(m), KindOf(m));
    assert Unbuild(m) == UnbuildWorld(m);
    assert Build(K.WorldRoundStart, GetTime(m), Unbuild(m))
        == NewWorldRoundStart(GetTime(m), Unbuild(m));
  }

  lemma {:induction false} RoundTripWorldRoundRestart(m: Message)
    requires Canonical(m) && m.WorldRoundRestart?
    ensures Build(KindOf(m), GetTime(m), Unbuild(m)) == m
  {
    assert KindOf(m) == K.WorldRoundRestart;
    assert m.meta == NewMeta(GetTime(m), KindOf(m));
    assert Unbuild(m) == UnbuildWorld(m);
    assert Build(K.WorldRoundRestart, GetTime(m), Unbuild(m))
        == NewWorldRoundRestart(GetTime(m), Unbuild(m));
    ToIntFormatInt(m.timeleft);
  }

  lemma {:induction false} RoundTripWorldRoundEnd(m: Message)
    requires Canonical(m) && m.WorldRoundEnd?
    ensures Build(KindOf(m), GetTime(m), Unbuild(m)) == m
  {
    assert KindOf(m) == K.WorldRoundEnd;
    assert m.meta == NewMeta(GetTime(m), KindOf(m));
    assert Unbuild(m) == UnbuildWorld(m);
    assert Build(K.WorldRoundEnd, GetTime(m), Unbuild(m))
        == NewWorldRoundEnd(GetTime(m), Unbuild(m));
  }

  lemma {:induction false} RoundTripWorldGameCommencing(m: Message)
    requires Canonical(m) && m.WorldGameCommencing?
    ensures Build(KindOf(m), GetTime(m), Unbuild(m)) == m
  {
    assert KindOf(m) == K.WorldGameCommencing;
    assert m.meta == NewMeta(GetTime(m), KindOf(m));
    assert Unbuild(m) == UnbuildWorld(m);
    assert Build(K.WorldGameCommencing, GetTime(m), Unbuild(m))
        == NewWorldGameCommencing(GetTime(m), Unbuild(m));
  }

  lemma {:induction false} RoundTripUnknown(m: Message)
    requires Canonical(m) && m.Unknown?
    ensures Build(KindOf(m), GetTime(m), Unbuild(m)) == m
  {
    assert KindOf(m) == K.Unknown;
    assert m.meta == NewMeta(GetTime(m), KindOf(m));
    assert Unbuild(m) == UnbuildWorld(m);
    assert Build(K.Unknown, GetTime(m), Unbuild(m)) == NewUnknown(GetTime(m), Unbuild(m));
  }

  lemma {:induction false} RoundTripTeamScored(m: Message)
    requires Canonical(m) && m.TeamScored?
    ensures Build(KindOf(m), GetTime(m), Unbuild(m)) == m
  {
    assert KindOf(m) == K.TeamScored;
    assert m.meta == NewMeta(GetTime(m), KindOf(m));
    assert Unbuild(m) == UnbuildMatch(m);
    assert Build(K.TeamScored, GetTime(m), Unbuild(m)) == NewTeamScored(GetTime(m), Unbuild(m));
    ToIntFormatInt(m.score);
    ToIntFormatInt(m.numPlayers);
  }

  lemma {:induction false} RoundTripTeamNotice(m: Message)
    requires Canonical(m) && m.TeamNotice?
    ensures Build(KindOf(m), GetTime(m), Unbuild(m)) == m
  {
    assert KindOf(m) == K.TeamNotice;
    assert m.meta == NewMeta(GetTime(m), KindOf(m));
    assert Unbuild(m) == UnbuildMatch(m);
    assert Build(K.TeamNotice, GetTime(m), Unbuild(m)) == NewTeamNotice(GetTime(m), Unbuild(m));
    ToIntFormatInt(m.scoreCT);
    ToIntFormatInt(m.scoreT);
  }

  lemma {:induction false} RoundTripProjectileSpawned(m: Message)
    requires Canonical(m) && m.ProjectileSpawned?
    ensures Build(KindOf(m), GetTime(m), Unbuild(m)) == m
  {
    assert KindOf(m) == K.ProjectileSpawned;
    assert m.meta == NewMeta(GetTime(m), KindOf(m));
    assert Unbuild(m) == UnbuildMatch(m);
    assert Build(K.ProjectileSpawned, GetTime(m), Unbuild(m))
        == NewProjectileSpawned(GetTime(m), Unbuild(m));
  }

  lemma {:induction false} RoundTripGameOver(m: Message)
    requires Canonical(m) && m.GameOver?
    ensures Build(KindOf(m), GetTime(m), Unbuild(m)) == m
  {
    assert KindOf(m) == K.GameOver;
    assert m.meta == NewMeta(GetTime(m), KindOf(m));
    assert Unbuild(m) == UnbuildMatch(m);
    assert Build(K.GameOver, GetTime(m), Unbuild(m)) == NewGameOver(GetTime(m), Unbuild(m));
    ToIntFormatInt(m.scoreCT);
    ToIntFormatInt(m.scoreT);
    ToIntFormatInt(m.minutes);
  }

  lemma {:induction false} RoundTripPlayerConnected(m: Message)
    requires Canonical(m) && m.PlayerConnected?
    ensures Build(KindOf(m), GetTime(m), Unbuild(m)) == m
  {
    assert KindOf(m) == K.PlayerConnected;
    assert m.meta == NewMeta(GetTime(m), KindOf(m));
    assert Unbuild(m) == UnbuildPresence(m);
    assert Build(K.PlayerConnected, GetTime(m), Unbuild(m))
        == NewPlayerConnected(GetTime(m), Unbuild(m));
    ToIntFormatInt(m.player.id);
  }

  lemma {:induction false} RoundTripPlayerDisconnected(m: Message)
    requires Canonical(m) && m.PlayerDisconnected?
    ensures Build(KindOf(m), GetTime(m), Unbuild(m)) == m
  {
    assert KindOf(m) == K.PlayerDisconnected;
    assert m.meta == NewMeta(GetTime(m), KindOf(m));
    assert Unbuild(m) == UnbuildPresence(m);
    assert Build(K.PlayerDisconnected, GetTime(m), Unbuild(m))
        == NewPlayerDisconnected(GetTime(m), Unbuild(m));
    ToIntFormatInt(m.player.id);
  }

  lemma {:induction false} RoundTripPlayerEntered(m: Message)
    requires Canonical(m) && m.PlayerEntered?
    ensures Build(KindOf(m), GetTime(m), Unbuild(m)) == m
  {
    assert KindOf(m) == K.PlayerEntered;
    assert m.meta == NewMeta(GetTime(m), KindOf(m));
    assert Unbuild(m) == UnbuildPresence(m);
    assert Build(K.PlayerEntered, GetTime(m), Unbuild(m))
        == NewPlayerEntered(GetTime(m), Unbuild(m));
    ToIntFormatInt(m.player.id);
  }

  lemma {:induction false} RoundTripPlayerBanned(m: Message)
    requires Canonical(m) && m.PlayerBanned?
    ensures Build(KindOf(m), GetTime(m), Unbuild(m)) == m
  {
    assert KindOf(m) == K.PlayerBanned;
    assert m.meta == NewMeta(GetTime(m), KindOf(m));
    assert Unbuild(m) == UnbuildPresence(m);
    assert Build(K.PlayerBanned, GetTime(m), Unbuild(m)) == NewPlayerBanned(GetTime(m), Unbuild(m));
    ToIntFormatInt(m.player.id);
  }

  lemma {:induction false} RoundTripPlayerSwitched(m: Message)
    requires Canonical(m) && m.PlayerSwitched?
    ensures Build(KindOf(m), GetTime(m), Unbuild(m)) == m
  {
    assert KindOf(m) == K.PlayerSwitched;
    assert m.meta == NewMeta(GetTime(m), KindOf(m));
    assert Unbuild(m) == UnbuildPresence(m);
    assert Build(K.PlayerSwitched, GetTime(m), Unbuild(m))
        == NewPlayerSwitched(GetTime(m), Unbuild(m));
    ToIntFormatInt(m.player.id);
  }

  lemma {:induction false} RoundTripPlayerSay(m: Message)
    requires Canonical(m) && m.PlayerSay?
    ensures Build(KindOf(m), GetTime(m), Unbuild(m)) == m
  {
    assert KindOf(m) == K.PlayerSay;
    assert m.meta == NewMeta(GetTime(m), KindOf(m));
    assert Unbuild(m) == UnbuildPresence(m);
    assert Build(K.PlayerSay, GetTime(m), Unbuild(m)) == NewPlayerSay(GetTime(m), Unbuild(m));
    ToIntFormatInt(m.player.id);
  }

  lemma {:induction false} RoundTripPlayerPurchase(m: Message)
    requires Canonical(m) && m.PlayerPurchase?
    ensures Build(KindOf(m), GetTime(m), Unbuild(m)) == m
  {
    assert KindOf(m) == K.PlayerPurchase;
    assert m.meta == NewMeta(GetTime(m), KindOf(m));
    assert Unbuild(m) == UnbuildPresence(m);
    assert Build(K.PlayerPurchase, GetTime(m), Unbuild(m))
        == NewPlayerPurchase(GetTime(m), Unbuild(m));
    ToIntFormatInt(m.player.id);
  }

  lemma {:induction false} RoundTripPlayerPickedUp(m: Message)
    requires Canonical(m) && m.PlayerPickedUp?
    ensures Build(KindOf(m), GetTime(m), Unbuild(m)) == m
  {
    assert KindOf(m) == K.PlayerPickedUp;
    assert m.meta == NewMeta(GetTime(m), KindOf(m));
    assert Unbuild(m) == UnbuildPresence(m);
    assert Build(K.PlayerPickedUp, GetTime(m), Unbuild(m))
        == NewPlayerPickedUp(GetTime(m), Unbuild(m));
    ToIntFormatInt(m.player.id);
  }

  lemma {:induction false} RoundTripPlayerDropped(m: Message)
    requires Canonical(m) && m.PlayerDropped?
    ensures Build(KindOf(m), GetTime(m), Unbuild(m)) == m
  {
    assert KindOf(m) == K.PlayerDropped;
    assert m.meta == NewMeta(GetTime(m), KindOf(m));
    assert Unbuild(m) == UnbuildPresence(m);
    assert Build(K.PlayerDropped, GetTime(m), Unbuild(m))
        == NewPlayerDropped(GetTime(m), Unbuild(m));
    ToIntFormatInt(m.player.id);
  }

  lemma {:induction false} RoundTripPlayerMoneyChange(m: Message)
    requires Canonical(m) && m.PlayerMoneyChange?
    ensures Build(KindOf(m), GetTime(m), Unbuild(m)) == m
  {
    assert KindOf(m) == K.PlayerMoneyChange;
    assert m.meta == NewMeta(GetTime(m), KindOf(m));
    assert Unbuild(m) == UnbuildPresence(m);
    assert Build(K.PlayerMoneyChange, GetTime(m), Unbuild(m))
        == NewPlayerMoneyChange(GetTime(m), Unbuild(m));
    ToIntFormatInt(m.player.id);
    ToIntFormatInt(m.equation.a);
    ToIntFormatInt(m.equation.b);
    ToIntFormatInt(m.equation.result);
  }

  lemma {:induction false} RoundTripPlayerKill(m: Message)
    requires Canonical(m) && m.PlayerKill?
    ensures Build(KindOf(m), GetTime(m), Unbuild(m)) == m
  {
    assert KindOf(m) == K.PlayerKill;
    assert m.meta == NewMeta(GetTime(m), KindOf(m));
    assert Unbuild(m) == UnbuildCombat(m);
    assert Build(K.PlayerKill, GetTime(m), Unbuild(m)) == NewPlayerKill(GetTime(m), Unbuild(m));
    ToIntFormatInt(m.attacker.id);
    ToIntFormatInt(m.attackerPosition.x);
    ToIntFormatInt(m.attackerPosition.y);
    ToIntFormatInt(m.attackerPosition.z);
    ToIntFormatInt(m.victim.id);
    ToIntFormatInt(m.victimPosition.x);
    ToIntFormatInt(m.victimPosition.y);
    ToIntFormatInt(m.victimPosition.z);
    KillFlagsReadBack(m.headshot, m.penetrated);
  }

  lemma {:induction false} RoundTripPlayerKillAssist(m: Message)
    requires Canonical(m) && m.PlayerKillAssist?
    ensures Build(KindOf(m), GetTime(m), Unbuild(m)) == m
  {
    assert KindOf(m) == K.PlayerKillAssist;
    assert m.meta == NewMeta(GetTime(m), KindOf(m));
    assert Unbuild(m) == UnbuildCombat(m);
    assert Build(K.PlayerKillAssist, GetTime(m), Unbuild(m))
        == NewPlayerKillAssist(GetTime(m), Unbuild(m));
    ToIntFormatInt(m.attacker.id);
    ToIntFormatInt(m.victim.id);
  }

  lemma {:induction false} RoundTripPlayerAttack(m: Message)
    requires Canonical(m) && m.PlayerAttack?
    ensures Build(KindOf(m), GetTime(m), Unbuild(m)) == m
  {
    assert KindOf(m) == K.PlayerAttack;
    assert m.meta == NewMeta(GetTime(m), KindOf(m));
    assert Unbuild(m) == UnbuildCombat(m);
    assert Build(K.PlayerAttack, GetTime(m), Unbuild(m)) == NewPlayerAttack(GetTime(m), Unbuild(m));
    ToIntFormatInt(m.attacker.id);
    ToIntFormatInt(m.attackerPosition.x);
    ToIntFormatInt(m.attackerPosition.y);
    ToIntFormatInt(m.attackerPosition.z);
    ToIntFormatInt(m.victim.id);
    ToIntFormatInt(m.victimPosition.x);
    ToIntFormatInt(m.victimPosition.y);
    ToIntFormatInt(m.victimPosition.z);
    ToIntFormatInt(m.damage);
    ToIntFormatInt(m.damageArmor);
    ToIntFormatInt(m.health);
    ToIntFormatInt(m.armor);
  }

  lemma {:induction false} RoundTripPlayerKilledBomb(m: Message)
    requires Canonical(m) && m.PlayerKilledBomb?
    ensures Build(KindOf(m), GetTime(m), Unbuild(m)) == m
  {
    assert KindOf(m) == K.PlayerKilledBomb;
    assert m.meta == NewMeta(GetTime(m), KindOf(m));
    assert Unbuild(m) == UnbuildCombat(m);
    assert Build(K.PlayerKilledBomb, GetTime(m), Unbuild(m))
        == NewPlayerKilledBomb(GetTime(m), Unbuild(m));
    ToIntFormatInt(m.player.id);
    ToIntFormatInt(m.position.x);
    ToIntFormatInt(m.position.y);
    ToIntFormatInt(m.position.z);
  }

  lemma {:induction false} RoundTripPlayerKilledSuicide(m: Message)
    requires Canonical(m) && m.PlayerKilledSuicide?
    ensures Build(KindOf(m), GetTime(m), Unbuild(m)) == m
  {
    assert KindOf(m) == K.PlayerKilledSuicide;
    assert m.meta == NewMeta(GetTime(m), KindOf(m));
    assert Unbuild(m) == UnbuildCombat(m);
    assert Build(K.PlayerKilledSuicide, GetTime(m), Unbuild(m))
        == NewPlayerKilledSuicide(GetTime(m), Unbuild(m));
    ToIntFormatInt(m.player.id);
    ToIntFormatInt(m.position.x);
    ToIntFormatInt(m.position.y);
    ToIntFormatInt(m.position.z);
  }

  lemma {:induction false} RoundTripPlayerThrew(m: Message)
    requires Canonical(m) && m.PlayerThrew?
    ensures Build(KindOf(m), GetTime(m), Unbuild(m)) == m
  {
    assert KindOf(m) == K.PlayerThrew;
    assert m.meta == NewMeta(GetTime(m), KindOf(m));
    assert Unbuild(m) == UnbuildCombat(m);
    assert Build(K.PlayerThrew, GetTime(m), Unbuild(m)) == NewPlayerThrew(GetTime(m), Unbuild(m));
    ToIntFormatInt(m.player.id);
    ToIntFormatInt(m.position.x);
    ToIntFormatInt(m.position.y);
    ToIntFormatInt(m.position.z);
    ToIntFormatInt(m.entindex);
  }

  lemma {:induction false} RoundTripPlayerBlinded(m: Message)
    requires Canonical(m) && m.PlayerBlinded?
    ensures Build(KindOf(m), GetTime(m), Unbuild(m)) == m
  {
    assert KindOf(m) == K.PlayerBlinded;
    assert m.meta == NewMeta(GetTime(m), KindOf(m));
    assert Unbuild(m) == UnbuildCombat(m);
    assert Build(K.PlayerBlinded, GetTime(m), Unbuild(m))
        == NewPlayerBlinded(GetTime(m), Unbuild(m));
    ToIntFormatInt(m.attacker.id);
    ToIntFormatInt(m.victim.id);
    ToIntFormatInt(m.entindex);
  }

  lemma {:induction false} RoundTripPlayerBombGot(m: Message)
    requires Canonical(m) && m.PlayerBombGot?
    ensures Build(KindOf(m), GetTime(m), Unbuild(m)) == m
  {
    assert KindOf(m) == K.PlayerBombGot;
    assert m.meta == NewMeta(GetTime(m), KindOf(m));
    assert Unbuild(m) == UnbuildBomb(m);
    assert Build(K.PlayerBombGot, GetTime(m), Unbuild(m))
        == NewPlayerBombGot(GetTime(m), Unbuild(m));
    ToIntFormatInt(m.player.id);
  }

  lemma {:induction false} RoundTripPlayerBombPlanted(m: Message)
    requires Canonical(m) && m.PlayerBombPlanted?
    ensures Build(KindOf(m), GetTime(m), Unbuild(m)) == m
  {
    assert KindOf(m) == K.PlayerBombPlanted;
    assert m.meta == NewMeta(GetTime(m), KindOf(m));
    assert Unbuild(m) == UnbuildBomb(m);
    assert Build(K.PlayerBombPlanted, GetTime(m), Unbuild(m))
        == NewPlayerBombPlanted(GetTime(m), Unbuild(m));
    ToIntFormatInt(m.player.id);
  }

  lemma {:induction false} RoundTripPlayerBombDropped(m: Message)
    requires Canonical(m) && m.PlayerBombDropped?
    ensures Build(KindOf(m), GetTime(m), Unbuild(m)) == m
  {
    assert KindOf(m) == K.PlayerBombDropped;
    assert m.meta == NewMeta(GetTime(m), KindOf(m));
    assert Unbuild(m) == UnbuildBomb(m);
    assert Build(K.PlayerBombDropped, GetTime(m), Unbuild(m))
        == NewPlayerBombDropped(GetTime(m), Unbuild(m));
    ToIntFormatInt(m.player.id);
  }

  lemma {:induction false} RoundTripPlayerBombBeginDefuse(m: Message)
    requires Canonical(m) && m.PlayerBombBeginDefuse?
    ensures Build(KindOf(m), GetTime(m), Unbuild(m)) == m
  {
    assert KindOf(m) == K.PlayerBombBeginDefuse;
    assert m.meta == NewMeta(GetTime(m), KindOf(m));
    assert Unbuild(m) == UnbuildBomb(m);
    assert Build(K.PlayerBombBeginDefuse, GetTime(m), Unbuild(m))
        == NewPlayerBombBeginDefuse(GetTime(m), Unbuild(m));
    ToIntFormatInt(m.player.id);
  }

  lemma {:induction false} RoundTripPlayerBombDefused(m: Message)
    requires Canonical(m) && m.PlayerBombDefused?
    ensures Build(KindOf(m), GetTime(m), Unbuild(m)) == m
  {
    assert KindOf(m) == K.PlayerBombDefused;
    assert m.meta == NewMeta(GetTime(m), KindOf(m));
    assert Unbuild(m) == UnbuildBomb(m);
    assert Build(K.PlayerBombDefused, GetTime(m), Unbuild(m))
        == NewPlayerBombDefused(GetTime(m), Unbuild(m));
    ToIntFormatInt(m.player.id);
  }
}
