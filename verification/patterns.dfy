/** The pattern catalogs: `DefaultPatterns` of cs2/cs2log.go and `patterns`
    of csgolog.go. Each entry pairs the text of a regular expression with the
    kind whose builder the parser calls on its captures. The two catalogs list
    the same kinds in the same order; their texts differ only in how a player
    is written (CS2 allows any player name and bracketed steam ids, CS:GO only
    word characters) and in CS2 knowing the `Spectator` team in team switches.
    The texts are data here: how a regular expression matches is left to the
    engine the parser is given. */
module Patterns {
  import opened Base
  import K = Kinds

  /** The game whose log format a catalog follows. */
  datatype Dialect = Cs2 | CsGo

  /** A catalog entry: a pattern and the kind of the builder bound to it. */
  datatype Entry = Entry(pattern: string, kind: K.Kind)

  /** The group capturing a player's name. */
  function NameGroup(d: Dialect): string {
    match d
    case Cs2 => "(.+)"
    case CsGo => @"(\w+)"
  }

  /** The group capturing a player's steam id. */
  function SteamGroup(d: Dialect): string {
    match d
    case Cs2 => @"([\[\]\w:]+)"
    case CsGo => @"([\w:]+)"
  }

  /** The team alternatives of a team switch. */
  function SwitchSides(d: Dialect): string {
    match d
    case Cs2 => "Unassigned|Spectator|" + "TERRORIST|CT"
    case CsGo => "Unassigned|TERRORIST|CT"
  }

  /** A quoted player with the given side alternatives: four groups. */
  function PlayerText(d: Dialect, sides: string): string {
    "\"" + NameGroup(d) + @"<(\d+)><" + SteamGroup(d) + "><(" + sides + ")>\""
  }

  /** A playing player, on one of the two teams. */
  function Fighter(d: Dialect): string {
    PlayerText(d, "TERRORIST|CT")
  }

  /** A bracketed integer position: three groups. */
  const PositionText: string := @"\[(-?\d+)" + @" (-?\d+)" + @" (-?\d+)\]"

  /** The regular expressions of the catalogs, one per kind, under the names
      of the Go constants. Those that mention a player differ between the
      dialects; the others are the same in both. Long texts are written as
      several literals so that `PatternGroups` can count their groups piece
      by piece; joined, they are the texts of the Go sources. */
  const ServerMessagePattern: string := @"server_message: " + @"""(\w+)"""
  const FreezTimeStartPattern: string := "Starting Freeze period"
  const WorldMatchStartPattern: string :=
    @"World triggered " + @"""Match_Start"" on " + @"""(\w+)"""
  const WorldRoundStartPattern: string := @"World triggered " + @"""Round_Start"""
  const WorldRoundRestartPattern: string :=
    @"World triggered " + @"""Restart_Round_" + @"\((\d+)_second\)"
  const WorldRoundEndPattern: string := @"World triggered " + @"""Round_End"""
  const WorldGameCommencingPattern: string := @"World triggered " + @"""Game_Commencing"""

  const TeamScoredPattern: string :=
    @"Team ""(CT|TERRORIST)""" + @" scored ""(\d+)""" + @" with ""(\d+)""" + " players"

  const TeamNoticePattern: string :=
    @"Team ""(CT|TERRORIST)""" + @" triggered ""(\w+)""" + @" \(CT ""(\d+)""\)"
    + @" \(T ""(\d+)""\)"

  function PlayerConnectedPattern(d: Dialect): string {
    "\"" + NameGroup(d) + @"<(\d+)><" + SteamGroup(d) + @"><>"" connected,"
    + @" address ""(.*)"""
  }

  function PlayerDisconnectedPattern(d: Dialect): string {
    PlayerText(d, "TERRORIST|CT|Unassigned|") + " disconnected" + @" \(reason ""(.+)""\)"
  }

  function PlayerEnteredPattern(d: Dialect): string {
    "\"" + NameGroup(d) + @"<(\d+)><" + SteamGroup(d) + @"><>"" entered the game"
  }

  function PlayerBannedPattern(d: Dialect): string {
    "Banid: \"" + NameGroup(d) + @"<(\d+)><" + SteamGroup(d) + @"><\w*>"" was banned "
    + @"""([\w. ]+)""" + @" by ""(\w+)"""
  }

  function PlayerSwitchedPattern(d: Dialect): string {
    "\"" + NameGroup(d) + @"<(\d+)><" + SteamGroup(d) + ">\" switched from" + " team <("
    + SwitchSides(d) + ")> to <(" + SwitchSides(d) + ")>"
  }

  function PlayerSayPattern(d: Dialect): string {
    Fighter(d) + @" say(_team)? ""(.*)"""
  }

  function PlayerPurchasePattern(d: Dialect): string {
    Fighter(d) + @" purchased ""(\w+)"""
  }

  function PlayerKillPattern(d: Dialect): string {
    Fighter(d) + " " + PositionText + " killed " + Fighter(d) + " " + PositionText
    + @" with ""(\w+)""" + @" ?(\(?(headshot|" + "penetrated|headshot" + @" penetrated)?\))?"
  }

  function PlayerKillAssistPattern(d: Dialect): string {
    Fighter(d) + " assisted killing " + Fighter(d)
  }

  function PlayerAttackPattern(d: Dialect): string {
    Fighter(d) + " " + PositionText + " attacked " + Fighter(d) + " " + PositionText
    + @" with ""(\w+)""" + @" \(damage " + @"""(\d+)""\)" + @" \(damage_armor " + @"""(\d+)""\)"
    + @" \(health " + @"""(\d+)""\)" + @" \(armor " + @"""(\d+)""\)"
    + @" \(hitgroup " + @"""([\w ]+)""\)"
  }

  function PlayerKilledBombPattern(d: Dialect): string {
    Fighter(d) + " " + PositionText + " was killed by" + @" the bomb\."
  }

  function PlayerKilledSuicidePattern(d: Dialect): string {
    Fighter(d) + " " + PositionText + " committed suicide with " + @"""(.*)"""
  }

  function PlayerPickedUpPattern(d: Dialect): string {
    Fighter(d) + @" picked up ""(\w+)"""
  }

  function PlayerDroppedPattern(d: Dialect): string {
    PlayerText(d, "TERRORIST|CT|Unassigned") + @" dropped ""(\w+)"""
  }

  function PlayerMoneyChangePattern(d: Dialect): string {
    Fighter(d) + @" money change (\d+)" + @"\+?(-?\d+)" + @" = \$(\d+)" + @" \(tracked\)"
    + @"( \(purchase: " + @"(\w+)\))?"
  }

  function PlayerBombGotPattern(d: Dialect): string {
    Fighter(d) + " triggered " + @"""Got_The_Bomb"""
  }

  function PlayerBombPlantedPattern(d: Dialect): string {
    Fighter(d) + " triggered " + @"""Planted_The_Bomb"""
  }

  function PlayerBombDroppedPattern(d: Dialect): string {
    Fighter(d) + " triggered " + @"""Dropped_The_Bomb"""
  }

  function PlayerBombBeginDefusePattern(d: Dialect): string {
    Fighter(d) + " triggered " + @"""Begin_Bomb_Defuse" + @"_With(out)?_Kit"""
  }

  function PlayerBombDefusedPattern(d: Dialect): string {
    Fighter(d) + " triggered " + @"""Defused_The_Bomb"""
  }

  function PlayerThrewPattern(d: Dialect): string {
    Fighter(d) + @" threw (\w+) " + PositionText + "( flashbang entindex" + @" (\d+))?\)?"
  }

  function PlayerBlindedPattern(d: Dialect): string {
    Fighter(d) + " blinded for " + @"([\d.]+) by " + Fighter(d) + " from flashbang"
    + @" entindex (\d+)"
  }

  const ProjectileSpawnedPattern: string :=
    "Molotov projectile" + " spawned at " + @"(-?\d+\.\d+)" + @" (-?\d+\.\d+)"
    + @" (-?\d+\.\d+)," + " velocity " + @"(-?\d+\.\d+)" + @" (-?\d+\.\d+)" + @" (-?\d+\.\d+)"

  const GameOverPattern: string :=
    @"Game Over: (\w+)" + @" (\w+) (\w+)" + @" score (\d+):" + @"(\d+) after " + @"(\d+) min"

  /** The regular expression bound to a kind in a dialect's catalog. The
      fallback kind has none. */
  function PatternText(d: Dialect, k: K.Kind): string
    requires k != K.Unknown
  {
    match k
    case ServerMessage => ServerMessagePattern
    case FreezTimeStart => FreezTimeStartPattern
    case WorldMatchStart => WorldMatchStartPattern
    case WorldRoundStart => WorldRoundStartPattern
    case WorldRoundRestart => WorldRoundRestartPattern
    case WorldRoundEnd => WorldRoundEndPattern
    case WorldGameCommencing => WorldGameCommencingPattern
    case TeamScored => TeamScoredPattern
    case TeamNotice => TeamNoticePattern
    case PlayerConnected => PlayerConnectedPattern(d)
    case PlayerDisconnected => PlayerDisconnectedPattern(d)
    case PlayerEntered => PlayerEnteredPattern(d)
    case PlayerBanned => PlayerBannedPattern(d)
    case PlayerSwitched => PlayerSwitchedPattern(d)
    case PlayerSay => PlayerSayPattern(d)
    case PlayerPurchase => PlayerPurchasePattern(d)
    case PlayerKill => PlayerKillPattern(d)
    case PlayerKillAssist => PlayerKillAssistPattern(d)
    case PlayerAttack => PlayerAttackPattern(d)
    case PlayerKilledBomb => PlayerKilledBombPattern(d)
    case PlayerKilledSuicide => PlayerKilledSuicidePattern(d)
    case PlayerPickedUp => PlayerPickedUpPattern(d)
    case PlayerDropped => PlayerDroppedPattern(d)
    case PlayerMoneyChange => PlayerMoneyChangePattern(d)
    case PlayerBombGot => PlayerBombGotPattern(d)
    case PlayerBombPlanted => PlayerBombPlantedPattern(d)
    case PlayerBombDropped => PlayerBombDroppedPattern(d)
    case PlayerBombBeginDefuse => PlayerBombBeginDefusePattern(d)
    case PlayerBombDefused => PlayerBombDefusedPattern(d)
    case PlayerThrew => PlayerThrewPattern(d)
    case PlayerBlinded => PlayerBlindedPattern(d)
    case ProjectileSpawned => ProjectileSpawnedPattern
    case GameOver => GameOverPattern
  }

  /** The number of capturing groups a regular expression text opens: every
      `(` that no backslash escapes and that does not start a `(?` construct.
      `None` when the text ends inside an escape, a text `regexp.MustCompile`
      rejects. This is RE2's count only on texts with no parenthesis inside a
      character class and no named group `(?P<name>…)`, both of which RE2
      treats differently; every catalog pattern is such a text, and the
      count is used on nothing else. */
  function GroupCount(s: string): Option<nat> {
    GroupsFrom(s, 0)
  }

  /** `GroupCount` of the text from index `i` on. */
  function GroupsFrom(s: string, i: nat): Option<nat>
    requires i <= |s|
    decreases |s| - i
  {
    if i == |s| then Some(0)
    else if s[i] == '\\' then (if i + 1 < |s| then GroupsFrom(s, i + 2) else None)
    else
      var rest := GroupsFrom(s, i + 1);
      if rest.Some? && s[i] == '(' && !(i + 1 < |s| && s[i + 1] == '?') then Some(rest.value + 1)
      else rest
  }

  /** The count of two texts put side by side. */
  function AddGroups(a: Option<nat>, b: Option<nat>): Option<nat> {
    if a.Some? && b.Some? then Some(a.value + b.value) else None
  }

  /** Three small cases of the scanner: an escaped parenthesis is literal,
      the non-capturing `(?:` opens no group and a trailing backslash is
      rejected. */
  lemma GroupCountExamples()
    ensures GroupCount(@"\((\d+)\)") == Some(1)
    ensures GroupCount("(?:a)(b)") == Some(1)
    ensures GroupCount(@"a\") == None
  {
    var s := @"\((\d+)\)";
    assert GroupsFrom(s, 7) == Some(0);
    assert GroupsFrom(s, 6) == Some(0);
    assert GroupsFrom(s, 4) == Some(0);
    assert GroupsFrom(s, 2) == Some(1);
    var t := "(?:a)(b)";
    assert GroupsFrom(t, 5) == Some(1);
    assert GroupsFrom(t, 3) == Some(1);
    assert GroupsFrom(t, 1) == Some(1);
    var u := @"a\";
    assert GroupsFrom(u, 1) == None;
  }

  /** Scanning the second half of a joined text is scanning it alone. */
  lemma {:induction false} GroupsFromShift(a: string, b: string, j: nat)
    requires j <= |b|
    ensures GroupsFrom(a + b, |a| + j) == GroupsFrom(b, j)
    decreases |b| - j
  {
    if j < |b| {
      if b[j] == '\\' {
        if j + 1 < |b| {
          GroupsFromShift(a, b, j + 2);
        }
      } else {
        GroupsFromShift(a, b, j + 1);
      }
    }
  }

  lemma {:induction false} GroupsFromAppend(a: string, b: string, i: nat)
    requires i <= |a| && GroupsFrom(a, i).Some?
    requires b == [] || b[0] != '?'
    ensures GroupsFrom(a + b, i) == AddGroups(GroupsFrom(a, i), GroupCount(b))
    decreases |a| - i
  {
    if i == |a| {
      GroupsFromShift(a, b, 0);
    } else if a[i] == '\\' {
      GroupsFromAppend(a, b, i + 2);
    } else {
      GroupsFromAppend(a, b, i + 1);
    }
  }

  /** Joining two texts adds their groups, unless the first ends inside an
      escape or the second starts with `?` (which would turn a final `(` of
      the first into `(?`). */
  lemma GroupCountAppend(a: string, b: string, n: nat)
    requires GroupCount(a) == Some(n) && GroupCount(b).Some?
    requires b == [] || b[0] != '?'
    ensures GroupCount(a + b) == Some(n + GroupCount(b).value)
  {
    GroupsFromAppend(a, b, 0);
  }

  /** The number of entries of a default catalog. */
  const CatalogSize: nat := 33

  /** The kind of the i-th entry of a default catalog, in the order the Go
      map literal lists them. `Unknown` has no entry: it is the fallback. */
  function CatalogKind(i: nat): (k: K.Kind)
    requires i < CatalogSize
    ensures k != K.Unknown && CatalogIndex(k) == i
  {
    if i < 16 then EarlyKind(i) else LateKind(i)
  }

  /** The first sixteen entries: world, team and connection lines. */
  function EarlyKind(i: nat): (k: K.Kind)
    requires i < 16
    ensures k != K.Unknown && CatalogIndex(k) == i
  {
    if i == 0 then K.ServerMessage
    else if i == 1 then K.FreezTimeStart
    else if i == 2 then K.WorldMatchStart
    else if i == 3 then K.WorldRoundStart
    else if i == 4 then K.WorldRoundRestart
    else if i == 5 then K.WorldRoundEnd
    else if i == 6 then K.WorldGameCommencing
    else if i == 7 then K.TeamScored
    else if i == 8 then K.TeamNotice
    else if i == 9 then K.PlayerConnected
    else if i == 10 then K.PlayerDisconnected
    else if i == 11 then K.PlayerEntered
    else if i == 12 then K.PlayerBanned
    else if i == 13 then K.PlayerSwitched
    else if i == 14 then K.PlayerSay
    else K.PlayerPurchase
  }

  /** The remaining entries: combat, economy, bomb and match end. */
  function LateKind(i: nat): (k: K.Kind)
    requires 16 <= i < CatalogSize
    ensures k != K.Unknown && CatalogIndex(k) == i
  {
    if i == 16 then K.PlayerKill
    else if i == 17 then K.PlayerKillAssist
    else if i == 18 then K.PlayerAttack
    else if i == 19 then K.PlayerKilledBomb
    else if i == 20 then K.PlayerKilledSuicide
    else if i == 21 then K.PlayerPickedUp
    else if i == 22 then K.PlayerDropped
    else if i == 23 then K.PlayerMoneyChange
    else if i == 24 then K.PlayerBombGot
    else if i == 25 then K.PlayerBombPlanted
    else if i == 26 then K.PlayerBombDropped
    else if i == 27 then K.PlayerBombBeginDefuse
    else if i == 28 then K.PlayerBombDefused
    else if i == 29 then K.PlayerThrew
    else if i == 30 then K.PlayerBlinded
    else if i == 31 then K.ProjectileSpawned
    else K.GameOver
  }

  /** The i-th entry of a dialect's default catalog. */
  function CatalogEntry(d: Dialect, i: nat): (e: Entry)
    requires i < CatalogSize
    ensures e.kind == CatalogKind(i) && e.pattern == PatternText(d, e.kind)
  {
    var k := CatalogKind(i);
    Entry(PatternText(d, k), k)
  }

  /** `DefaultPatterns` (CS2) and `patterns` (CS:GO): one entry per kind. */
  function DefaultPatterns(d: Dialect): (c: seq<Entry>)
    ensures |c| == CatalogSize
    ensures forall i :: 0 <= i < |c| ==> c[i] == CatalogEntry(d, i)
  {
    seq(CatalogSize, i requires 0 <= i < CatalogSize => CatalogEntry(d, i))
  }

  /** Every kind but the fallback has exactly one entry in each default
      catalog: no builder is unreachable and none is bound twice. */
  lemma DefaultPatternsCoverKinds(d: Dialect, k: K.Kind)
    ensures k != K.Unknown <==>
            exists i :: 0 <= i < |DefaultPatterns(d)| && DefaultPatterns(d)[i].kind == k
    ensures forall i, j :: 0 <= i < j < |DefaultPatterns(d)| ==>
            DefaultPatterns(d)[i].kind != DefaultPatterns(d)[j].kind
  {
    var c := DefaultPatterns(d);
    if k != K.Unknown {
      var i := CatalogIndex(k);
      assert c[i] == CatalogEntry(d, i);
      CatalogKindOfIndex(k);
    }
    forall i, j | 0 <= i < j < |c| ensures c[i].kind != c[j].kind {
      assert c[i] == CatalogEntry(d, i) && c[j] == CatalogEntry(d, j);
    }
  }

  /** Every kind but the fallback sits at its own index. */
  lemma CatalogKindOfIndex(k: K.Kind)
    requires k != K.Unknown
    ensures CatalogKind(CatalogIndex(k)) == k
  {
  }

  /** Where a kind sits in the catalog order. */
  function CatalogIndex(k: K.Kind): (i: nat)
    requires k != K.Unknown
    ensures i < CatalogSize
  {
    match k
    case ServerMessage => 0
    case FreezTimeStart => 1
    case WorldMatchStart => 2
    case WorldRoundStart => 3
    case WorldRoundRestart => 4
    case WorldRoundEnd => 5
    case WorldGameCommencing => 6
    case TeamScored => 7
    case TeamNotice => 8
    case PlayerConnected => 9
    case PlayerDisconnected => 10
    case PlayerEntered => 11
    case PlayerBanned => 12
    case PlayerSwitched => 13
    case PlayerSay => 14
    case PlayerPurchase => 15
    case PlayerKill => 16
    case PlayerKillAssist => 17
    case PlayerAttack => 18
    case PlayerKilledBomb => 19
    case PlayerKilledSuicide => 20
    case PlayerPickedUp => 21
    case PlayerDropped => 22
    case PlayerMoneyChange => 23
    case PlayerBombGot => 24
    case PlayerBombPlanted => 25
    case PlayerBombDropped => 26
    case PlayerBombBeginDefuse => 27
    case PlayerBombDefused => 28
    case PlayerThrew => 29
    case PlayerBlinded => 30
    case ProjectileSpawned => 31
    case GameOver => 32
  }
}
