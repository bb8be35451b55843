/** The kinds of log message. Every message carries its kind as the string
    `Meta.Type`, the discriminator the JSON output exposes as "type". */
module Kinds {
  import opened Base

  /** One kind per message struct of the log package, plus `Unknown` for a
      well-formed line whose body no pattern recognises. */
  datatype Kind =
    | ServerMessage
    | FreezTimeStart
    | WorldMatchStart
    | WorldRoundStart
    | WorldRoundRestart
    | WorldRoundEnd
    | WorldGameCommencing
    | TeamScored
    | TeamNotice
    | PlayerConnected
    | PlayerDisconnected
    | PlayerEntered
    | PlayerBanned
    | PlayerSwitched
    | PlayerSay
    | PlayerPurchase
    | PlayerKill
    | PlayerKillAssist
    | PlayerAttack
    | PlayerKilledBomb
    | PlayerKilledSuicide
    | PlayerPickedUp
    | PlayerDropped
    | PlayerMoneyChange
    | PlayerBombGot
    | PlayerBombPlanted
    | PlayerBombDropped
    | PlayerBombBeginDefuse
    | PlayerBombDefused
    | PlayerThrew
    | PlayerBlinded
    | ProjectileSpawned
    | GameOver
    | Unknown

  /** The type string a builder stamps into `Meta.Type` for its kind. */
  function Name(k: Kind): string {
    match k
    case ServerMessage => "ServerMessage"
    case FreezTimeStart => "FreezTimeStart"
    case WorldMatchStart => "WorldMatchStart"
    case WorldRoundStart => "WorldRoundStart"
    case WorldRoundRestart => "WorldRoundRestart"
    case WorldRoundEnd => "WorldRoundEnd"
    case WorldGameCommencing => "WorldGameCommencing"
    case TeamScored => "TeamScored"
    case TeamNotice => "TeamNotice"
    case PlayerConnected => "PlayerConnected"
    case PlayerDisconnected => "PlayerDisconnected"
    case PlayerEntered => "PlayerEntered"
    case PlayerBanned => "PlayerBanned"
    case PlayerSwitched => "PlayerSwitched"
    case PlayerSay => "PlayerSay"
    case PlayerPurchase => "PlayerPurchase"
    case PlayerKill => "PlayerKill"
    case PlayerKillAssist => "PlayerKillAssist"
    case PlayerAttack => "PlayerAttack"
    case PlayerKilledBomb => "PlayerKilledBomb"
    case PlayerKilledSuicide => "PlayerKilledSuicide"
    case PlayerPickedUp => "PlayerPickedUp"
    case PlayerDropped => "PlayerDropped"
    case PlayerMoneyChange => "PlayerMoneyChange"
    case PlayerBombGot => "PlayerBombGot"
    case PlayerBombPlanted => "PlayerBombPlanted"
    case PlayerBombDropped => "PlayerBombDropped"
    case PlayerBombBeginDefuse => "PlayerBombBeginDefuse"
    case PlayerBombDefused => "PlayerBombDefused"
    case PlayerThrew => "PlayerThrew"
    case PlayerBlinded => "PlayerBlinded"
    case ProjectileSpawned => "ProjectileSpawned"
    case GameOver => "GameOver"
    case Unknown => "Unknown"
  }

  /** Reading a kind back from its type string, as a consumer of the JSON
      output does. */
  function FromName(s: string): Option<Kind> {
    if s == "ServerMessage" then Some(ServerMessage)
    else if s == "FreezTimeStart" then Some(FreezTimeStart)
    else if s == "WorldMatchStart" then Some(WorldMatchStart)
    else if s == "WorldRoundStart" then Some(WorldRoundStart)
    else if s == "WorldRoundRestart" then Some(WorldRoundRestart)
    else if s == "WorldRoundEnd" then Some(WorldRoundEnd)
    else if s == "WorldGameCommencing" then Some(WorldGameCommencing)
    else if s == "TeamScored" then Some(TeamScored)
    else if s == "TeamNotice" then Some(TeamNotice)
    else if s == "PlayerConnected" then Some(PlayerConnected)
    else if s == "PlayerDisconnected" then Some(PlayerDisconnected)
    else if s == "PlayerEntered" then Some(PlayerEntered)
    else if s == "PlayerBanned" then Some(PlayerBanned)
    else if s == "PlayerSwitched" then Some(PlayerSwitched)
    else if s == "PlayerSay" then Some(PlayerSay)
    else if s == "PlayerPurchase" then Some(PlayerPurchase)
    else if s == "PlayerKill" then Some(PlayerKill)
    else if s == "PlayerKillAssist" then Some(PlayerKillAssist)
    else if s == "PlayerAttack" then Some(PlayerAttack)
    else if s == "PlayerKilledBomb" then Some(PlayerKilledBomb)
    else if s == "PlayerKilledSuicide" then Some(PlayerKilledSuicide)
    else if s == "PlayerPickedUp" then Some(PlayerPickedUp)
    else if s == "PlayerDropped" then Some(PlayerDropped)
    else if s == "PlayerMoneyChange" then Some(PlayerMoneyChange)
    else if s == "PlayerBombGot" then Some(PlayerBombGot)
    else if s == "PlayerBombPlanted" then Some(PlayerBombPlanted)
    else if s == "PlayerBombDropped" then Some(PlayerBombDropped)
    else if s == "PlayerBombBeginDefuse" then Some(PlayerBombBeginDefuse)
    else if s == "PlayerBombDefused" then Some(PlayerBombDefused)
    else if s == "PlayerThrew" then Some(PlayerThrew)
    else if s == "PlayerBlinded" then Some(PlayerBlinded)
    else if s == "ProjectileSpawned" then Some(ProjectileSpawned)
    else if s == "GameOver" then Some(GameOver)
    else if s == "Unknown" then Some(Unknown)
    else None
  }

  /** How many leading captures the builder of a kind reads: one more than the
      highest index it accesses, 0 when it reads none. */
  function CapturesNeeded(k: Kind): nat {
    match k
    case ServerMessage => 2
    case FreezTimeStart => 0
    case WorldMatchStart => 2
    case WorldRoundStart => 0
    case WorldRoundRestart => 2
    case WorldRoundEnd => 0
    case WorldGameCommencing => 0
    case TeamScored => 4
    case TeamNotice => 5
    case PlayerConnected => 5
    case PlayerDisconnected => 6
    case PlayerEntered => 4
    case PlayerBanned => 6
    case PlayerSwitched => 6
    case PlayerSay => 7
    case PlayerPurchase => 6
    case PlayerKill => 18
    case PlayerKillAssist => 9
    case PlayerAttack => 21
    case PlayerKilledBomb => 8
    case PlayerKilledSuicide => 9
    case PlayerPickedUp => 6
    case PlayerDropped => 6
    case PlayerMoneyChange => 10
    case PlayerBombGot => 5
    case PlayerBombPlanted => 5
    case PlayerBombDropped => 5
    case PlayerBombBeginDefuse => 6
    case PlayerBombDefused => 5
    case PlayerThrew => 11
    case PlayerBlinded => 11
    case ProjectileSpawned => 7
    case GameOver => 7
    case Unknown => 2
  }

  /** Every type string names exactly one kind. */
  lemma {:induction false} NameRoundTrip(k: Kind)
    ensures FromName(Name(k)) == Some(k)
  {
    match k
    case ServerMessage | FreezTimeStart => NamesReadBack1();
    case WorldMatchStart | WorldRoundStart => NamesReadBack2();
    case WorldRoundRestart | WorldRoundEnd => NamesReadBack3();
    case WorldGameCommencing | TeamScored => NamesReadBack4();
    case TeamNotice | PlayerConnected => NamesReadBack5();
    case PlayerDisconnected | PlayerEntered => NamesReadBack6();
    case PlayerBanned | PlayerSwitched => NamesReadBack7();
    case PlayerSay | PlayerPurchase => NamesReadBack8();
    case PlayerKill | PlayerKillAssist => NamesReadBack9();
    case PlayerAttack | PlayerKilledBomb => NamesReadBack10();
    case PlayerKilledSuicide | PlayerPickedUp => NamesReadBack11();
    case PlayerDropped | PlayerMoneyChange => NamesReadBack12();
    case PlayerBombGot | PlayerBombPlanted => NamesReadBack13();
    case PlayerBombDropped | PlayerBombBeginDefuse => NamesReadBack14();
    case PlayerBombDefused | PlayerThrew => NamesReadBack15();
    case PlayerBlinded | ProjectileSpawned => NamesReadBack16();
    case GameOver | Unknown => NamesReadBack17();
  }

  // NamesReadBack1 to NamesReadBack17 only split the solver's work for
  // `NameRoundTrip` into pairs of kinds; they state nothing beyond it.
  lemma NamesReadBack1()
    ensures FromName("ServerMessage") == Some(ServerMessage)
    ensures FromName("FreezTimeStart") == Some(FreezTimeStart)
  {
  }

  lemma NamesReadBack2()
    ensures FromName("WorldMatchStart") == Some(WorldMatchStart)
    ensures FromName("WorldRoundStart") == Some(WorldRoundStart)
  {
  }

  lemma NamesReadBack3()
    ensures FromName("WorldRoundRestart") == Some(WorldRoundRestart)
    ensures FromName("WorldRoundEnd") == Some(WorldRoundEnd)
  {
  }

  lemma NamesReadBack4()
    ensures FromName("WorldGameCommencing") == Some(WorldGameCommencing)
    ensures FromName("TeamScored") == Some(TeamScored)
  {
  }

  lemma NamesReadBack5()
    ensures FromName("TeamNotice") == Some(TeamNotice)
    ensures FromName("PlayerConnected") == Some(PlayerConnected)
  {
  }

  lemma NamesReadBack6()
    ensures FromName("PlayerDisconnected") == Some(PlayerDisconnected)
    ensures FromName("PlayerEntered") == Some(PlayerEntered)
  {
  }

  lemma NamesReadBack7()
    ensures FromName("PlayerBanned") == Some(PlayerBanned)
    ensures FromName("PlayerSwitched") == Some(PlayerSwitched)
  {
  }

  lemma NamesReadBack8()
    ensures FromName("PlayerSay") == Some(PlayerSay)
    ensures FromName("PlayerPurchase") == Some(PlayerPurchase)
  {
  }

  lemma NamesReadBack9()
    ensures FromName("PlayerKill") == Some(PlayerKill)
    ensures FromName("PlayerKillAssist") == Some(PlayerKillAssist)
  {
  }

  lemma NamesReadBack10()
    ensures FromName("PlayerAttack") == Some(PlayerAttack)
    ensures FromName("PlayerKilledBomb") == Some(PlayerKilledBomb)
  {
  }

  lemma NamesReadBack11()
    ensures FromName("PlayerKilledSuicide") == Some(PlayerKilledSuicide)
    ensures FromName("PlayerPickedUp") == Some(PlayerPickedUp)
  {
  }

  lemma NamesReadBack12()
    ensures FromName("PlayerDropped") == Some(PlayerDropped)
    ensures FromName("PlayerMoneyChange") == Some(PlayerMoneyChange)
  {
  }

  lemma NamesReadBack13()
    ensures FromName("PlayerBombGot") == Some(PlayerBombGot)
    ensures FromName("PlayerBombPlanted") == Some(PlayerBombPlanted)
  {
  }

  lemma NamesReadBack14()
    ensures FromName("PlayerBombDropped") == Some(PlayerBombDropped)
    ensures FromName("PlayerBombBeginDefuse") == Some(PlayerBombBeginDefuse)
  {
  }

  lemma NamesReadBack15()
    ensures FromName("PlayerBombDefused") == Some(PlayerBombDefused)
    ensures FromName("PlayerThrew") == Some(PlayerThrew)
  {
  }

  lemma NamesReadBack16()
    ensures FromName("PlayerBlinded") == Some(PlayerBlinded)
    ensures FromName("ProjectileSpawned") == Some(ProjectileSpawned)
  {
  }

  lemma NamesReadBack17()
    ensures FromName("GameOver") == Some(GameOver)
    ensures FromName("Unknown") == Some(Unknown)
  {
  }

  /** No two kinds share a type string. */
  lemma NameInjective(a: Kind, b: Kind)
    ensures Name(a) == Name(b) ==> a == b
  {
    NameRoundTrip(a);
    NameRoundTrip(b);
  }
}
