/** The group counts of the catalog patterns. Go's engine reports, for a
    match, the whole match and then one submatch per capturing group, so the
    group count of a pattern fixes how many captures its builder receives.

    Each `…Text` lemma counts the groups of one literal piece of a pattern by
    running the scanner `Patterns.GroupsFrom` from the end of the piece back
    to its start, one assertion per scanner step, and the matching
    `…Appended` lemma adds that count to the count of any text before it;
    each `…Groups` lemma chains the pieces of one pattern. The pieces are
    appended to an arbitrary prefix rather than to the pattern's own text,
    which keeps each proof small. */
module PatternGroups {
  import opened Base
  import opened Patterns
  import K = Kinds

  /** The name group is one group in both dialects. */
  lemma NameGroupGroups(d: Dialect)
    ensures GroupCount(NameGroup(d)) == Some(1)
  {
    match d
    case Cs2 =>
      var s := @"(.+)";
      assert GroupsFrom(s, 3) == Some(0);
      assert GroupsFrom(s, 2) == Some(0);
      assert GroupsFrom(s, 1) == Some(0);
    case CsGo =>
      var s := @"(\w+)";
      assert GroupsFrom(s, 4) == Some(0);
      assert GroupsFrom(s, 3) == Some(0);
      assert GroupsFrom(s, 1) == Some(0);
  }

  /** The steam id group is one group in both dialects. */
  lemma SteamGroupGroups(d: Dialect)
    ensures GroupCount(SteamGroup(d)) == Some(1)
  {
    match d
    case Cs2 =>
      var s := @"([\[\]\w:]+)";
      assert GroupsFrom(s, 11) == Some(0);
      assert GroupsFrom(s, 10) == Some(0);
      assert GroupsFrom(s, 9) == Some(0);
      assert GroupsFrom(s, 8) == Some(0);
      assert GroupsFrom(s, 6) == Some(0);
      assert GroupsFrom(s, 4) == Some(0);
      assert GroupsFrom(s, 2) == Some(0);
      assert GroupsFrom(s, 1) == Some(0);
    case CsGo =>
      var s := @"([\w:]+)";
      assert GroupsFrom(s, 7) == Some(0);
      assert GroupsFrom(s, 6) == Some(0);
      assert GroupsFrom(s, 5) == Some(0);
      assert GroupsFrom(s, 4) == Some(0);
      assert GroupsFrom(s, 2) == Some(0);
      assert GroupsFrom(s, 1) == Some(0);
  }

  lemma SwitchSidesText1()
    ensures GroupCount(@"Unassigned|Spectator|") == Some(0)
  {
    var s := @"Unassigned|Spectator|";
    assert GroupsFrom(s, 20) == Some(0);
    assert GroupsFrom(s, 19) == Some(0);
    assert GroupsFrom(s, 18) == Some(0);
    assert GroupsFrom(s, 17) == Some(0);
    assert GroupsFrom(s, 16) == Some(0);
    assert GroupsFrom(s, 15) == Some(0);
    assert GroupsFrom(s, 14) == Some(0);
    assert GroupsFrom(s, 13) == Some(0);
    assert GroupsFrom(s, 12) == Some(0);
    assert GroupsFrom(s, 11) == Some(0);
    assert GroupsFrom(s, 10) == Some(0);
    assert GroupsFrom(s, 9) == Some(0);
    assert GroupsFrom(s, 8) == Some(0);
    assert GroupsFrom(s, 7) == Some(0);
    assert GroupsFrom(s, 6) == Some(0);
    assert GroupsFrom(s, 5) == Some(0);
    assert GroupsFrom(s, 4) == Some(0);
    assert GroupsFrom(s, 3) == Some(0);
    assert GroupsFrom(s, 2) == Some(0);
    assert GroupsFrom(s, 1) == Some(0);
  }

  lemma SwitchSidesText1Appended(a: string, n: nat)
    requires GroupCount(a) == Some(n)
    ensures GroupCount(a + @"Unassigned|Spectator|") == Some(n)
  {
    SwitchSidesText1();
    GroupCountAppend(a, @"Unassigned|Spectator|", n);
  }

  lemma SwitchSidesText2()
    ensures GroupCount(@"TERRORIST|CT") == Some(0)
  {
    var s := @"TERRORIST|CT";
    assert GroupsFrom(s, 11) == Some(0);
    assert GroupsFrom(s, 10) == Some(0);
    assert GroupsFrom(s, 9) == Some(0);
    assert GroupsFrom(s, 8) == Some(0);
    assert GroupsFrom(s, 7) == Some(0);
    assert GroupsFrom(s, 6) == Some(0);
    assert GroupsFrom(s, 5) == Some(0);
    assert GroupsFrom(s, 4) == Some(0);
    assert GroupsFrom(s, 3) == Some(0);
    assert GroupsFrom(s, 2) == Some(0);
    assert GroupsFrom(s, 1) == Some(0);
  }

  lemma SwitchSidesText2Appended(a: string, n: nat)
    requires GroupCount(a) == Some(n)
    ensures GroupCount(a + @"TERRORIST|CT") == Some(n)
  {
    SwitchSidesText2();
    GroupCountAppend(a, @"TERRORIST|CT", n);
  }

  lemma SwitchSidesText3()
    ensures GroupCount(@"Unassigned|TERRORIST|CT") == Some(0)
  {
    var s := @"Unassigned|TERRORIST|CT";
    assert GroupsFrom(s, 22) == Some(0);
    assert GroupsFrom(s, 21) == Some(0);
    assert GroupsFrom(s, 20) == Some(0);
    assert GroupsFrom(s, 19) == Some(0);
    assert GroupsFrom(s, 18) == Some(0);
    assert GroupsFrom(s, 17) == Some(0);
    assert GroupsFrom(s, 16) == Some(0);
    assert GroupsFrom(s, 15) == Some(0);
    assert GroupsFrom(s, 14) == Some(0);
    assert GroupsFrom(s, 13) == Some(0);
    assert GroupsFrom(s, 12) == Some(0);
    assert GroupsFrom(s, 11) == Some(0);
    assert GroupsFrom(s, 10) == Some(0);
    assert GroupsFrom(s, 9) == Some(0);
    assert GroupsFrom(s, 8) == Some(0);
    assert GroupsFrom(s, 7) == Some(0);
    assert GroupsFrom(s, 6) == Some(0);
    assert GroupsFrom(s, 5) == Some(0);
    assert GroupsFrom(s, 4) == Some(0);
    assert GroupsFrom(s, 3) == Some(0);
    assert GroupsFrom(s, 2) == Some(0);
    assert GroupsFrom(s, 1) == Some(0);
  }

  lemma SwitchSidesText3Appended(a: string, n: nat)
    requires GroupCount(a) == Some(n)
    ensures GroupCount(a + @"Unassigned|TERRORIST|CT") == Some(n)
  {
    SwitchSidesText3();
    GroupCountAppend(a, @"Unassigned|TERRORIST|CT", n);
  }

  /** The team alternatives of a switch open no group. */
  lemma SwitchSidesGroups(d: Dialect)
    ensures GroupCount(SwitchSides(d)) == Some(0)
  {
    match d
    case Cs2 =>
      SwitchSidesText1();
      SwitchSidesText2Appended(@"Unassigned|Spectator|", 0);
    case CsGo =>
      SwitchSidesText3();
  }

  lemma PositionTextText1()
    ensures GroupCount(@"\[(-?\d+)") == Some(1)
  {
    var s := @"\[(-?\d+)";
    assert GroupsFrom(s, 8) == Some(0);
    assert GroupsFrom(s, 7) == Some(0);
    assert GroupsFrom(s, 5) == Some(0);
    assert GroupsFrom(s, 4) == Some(0);
    assert GroupsFrom(s, 3) == Some(0);
    assert GroupsFrom(s, 2) == Some(1);
  }

  lemma PositionTextText1Appended(a: string, n: nat)
    requires GroupCount(a) == Some(n)
    ensures GroupCount(a + @"\[(-?\d+)") == Some(n + 1)
  {
    PositionTextText1();
    GroupCountAppend(a, @"\[(-?\d+)", n);
  }

  lemma PositionTextText2()
    ensures GroupCount(@" (-?\d+)") == Some(1)
  {
    var s := @" (-?\d+)";
    assert GroupsFrom(s, 7) == Some(0);
    assert GroupsFrom(s, 6) == Some(0);
    assert GroupsFrom(s, 4) == Some(0);
    assert GroupsFrom(s, 3) == Some(0);
    assert GroupsFrom(s, 2) == Some(0);
    assert GroupsFrom(s, 1) == Some(1);
  }

  lemma PositionTextText2Appended(a: string, n: nat)
    requires GroupCount(a) == Some(n)
    ensures GroupCount(a + @" (-?\d+)") == Some(n + 1)
  {
    PositionTextText2();
    GroupCountAppend(a, @" (-?\d+)", n);
  }

  lemma PositionTextText3()
    ensures GroupCount(@" (-?\d+)\]") == Some(1)
  {
    var s := @" (-?\d+)\]";
    assert GroupsFrom(s, 8) == Some(0);
    assert GroupsFrom(s, 7) == Some(0);
    assert GroupsFrom(s, 6) == Some(0);
    assert GroupsFrom(s, 4) == Some(0);
    assert GroupsFrom(s, 3) == Some(0);
    assert GroupsFrom(s, 2) == Some(0);
    assert GroupsFrom(s, 1) == Some(1);
  }

  lemma PositionTextText3Appended(a: string, n: nat)
    requires GroupCount(a) == Some(n)
    ensures GroupCount(a + @" (-?\d+)\]") == Some(n + 1)
  {
    PositionTextText3();
    GroupCountAppend(a, @" (-?\d+)\]", n);
  }

  /** A position is three groups. */
  lemma PositionTextGroups()
    ensures GroupCount(PositionText) == Some(3)
  {
    PositionTextText1();
    PositionTextText2Appended(@"\[(-?\d+)", 1);
    PositionTextText3Appended(@"\[(-?\d+)" + @" (-?\d+)", 2);
  }

  lemma QuoteText()
    ensures GroupCount(@"""") == Some(0)
  {
    var s := @"""";
  }

  lemma QuoteTextAppended(a: string, n: nat)
    requires GroupCount(a) == Some(n)
    ensures GroupCount(a + @"""") == Some(n)
  {
    QuoteText();
    GroupCountAppend(a, @"""", n);
  }

  lemma IdText()
    ensures GroupCount(@"<(\d+)><") == Some(1)
  {
    var s := @"<(\d+)><";
    assert GroupsFrom(s, 7) == Some(0);
    assert GroupsFrom(s, 6) == Some(0);
    assert GroupsFrom(s, 5) == Some(0);
    assert GroupsFrom(s, 4) == Some(0);
    assert GroupsFrom(s, 2) == Some(0);
    assert GroupsFrom(s, 1) == Some(1);
  }

  lemma IdTextAppended(a: string, n: nat)
    requires GroupCount(a) == Some(n)
    ensures GroupCount(a + @"<(\d+)><") == Some(n + 1)
  {
    IdText();
    GroupCountAppend(a, @"<(\d+)><", n);
  }

  lemma SideOpenText()
    ensures GroupCount(@"><(") == Some(1)
  {
    var s := @"><(";
    assert GroupsFrom(s, 2) == Some(1);
    assert GroupsFrom(s, 1) == Some(1);
  }

  lemma SideOpenTextAppended(a: string, n: nat)
    requires GroupCount(a) == Some(n)
    ensures GroupCount(a + @"><(") == Some(n + 1)
  {
    SideOpenText();
    GroupCountAppend(a, @"><(", n);
  }

  lemma SideCloseText()
    ensures GroupCount(@")>""") == Some(0)
  {
    var s := @")>""";
    assert GroupsFrom(s, 2) == Some(0);
    assert GroupsFrom(s, 1) == Some(0);
  }

  lemma SideCloseTextAppended(a: string, n: nat)
    requires GroupCount(a) == Some(n)
    ensures GroupCount(a + @")>""") == Some(n)
  {
    SideCloseText();
    GroupCountAppend(a, @")>""", n);
  }

  lemma FighterSidesText()
    ensures GroupCount(@"TERRORIST|CT") == Some(0)
  {
    var s := @"TERRORIST|CT";
    assert GroupsFrom(s, 11) == Some(0);
    assert GroupsFrom(s, 10) == Some(0);
    assert GroupsFrom(s, 9) == Some(0);
    assert GroupsFrom(s, 8) == Some(0);
    assert GroupsFrom(s, 7) == Some(0);
    assert GroupsFrom(s, 6) == Some(0);
    assert GroupsFrom(s, 5) == Some(0);
    assert GroupsFrom(s, 4) == Some(0);
    assert GroupsFrom(s, 3) == Some(0);
    assert GroupsFrom(s, 2) == Some(0);
    assert GroupsFrom(s, 1) == Some(0);
  }

  lemma FighterSidesTextAppended(a: string, n: nat)
    requires GroupCount(a) == Some(n)
    ensures GroupCount(a + @"TERRORIST|CT") == Some(n)
  {
    FighterSidesText();
    GroupCountAppend(a, @"TERRORIST|CT", n);
  }

  /** A quoted player is four groups: name, id, steam id and side. */
  lemma PlayerTextGroups(d: Dialect, sides: string)
    requires GroupCount(sides) == Some(0) && sides != [] && sides[0] != '?'
    ensures GroupCount(PlayerText(d, sides)) == Some(4)
  {
    QuoteText();
    NameGroupAppended("\"", 0, d);
    IdTextAppended("\"" + NameGroup(d), 1);
    SteamGroupAppended("\"" + NameGroup(d) + @"<(\d+)><", 2, d);
    SideOpenTextAppended("\"" + NameGroup(d) + @"<(\d+)><" + SteamGroup(d), 3);
    GroupCountAppend("\"" + NameGroup(d) + @"<(\d+)><" + SteamGroup(d) + "><(", sides, 4);
    SideCloseTextAppended("\"" + NameGroup(d) + @"<(\d+)><" + SteamGroup(d) + "><(" + sides, 4);
  }

  lemma FighterGroups(d: Dialect)
    ensures GroupCount(Fighter(d)) == Some(4)
  {
    FighterSidesText();
    PlayerTextGroups(d, "TERRORIST|CT");
  }

  lemma FighterAppended(a: string, n: nat, d: Dialect)
    requires GroupCount(a) == Some(n)
    ensures GroupCount(a + Fighter(d)) == Some(n + 4)
  {
    FighterGroups(d);
    GroupCountAppend(a, Fighter(d), n);
  }

  lemma NameGroupAppended(a: string, n: nat, d: Dialect)
    requires GroupCount(a) == Some(n)
    ensures GroupCount(a + NameGroup(d)) == Some(n + 1)
  {
    NameGroupGroups(d);
    GroupCountAppend(a, NameGroup(d), n);
  }

  lemma SteamGroupAppended(a: string, n: nat, d: Dialect)
    requires GroupCount(a) == Some(n)
    ensures GroupCount(a + SteamGroup(d)) == Some(n + 1)
  {
    SteamGroupGroups(d);
    GroupCountAppend(a, SteamGroup(d), n);
  }

  lemma SwitchSidesAppended(a: string, n: nat, d: Dialect)
    requires GroupCount(a) == Some(n)
    ensures GroupCount(a + SwitchSides(d)) == Some(n)
  {
    SwitchSidesGroups(d);
    GroupCountAppend(a, SwitchSides(d), n);
  }

  lemma PositionTextAppended(a: string, n: nat)
    requires GroupCount(a) == Some(n)
    ensures GroupCount(a + PositionText) == Some(n + 3)
  {
    PositionTextGroups();
    GroupCountAppend(a, PositionText, n);
  }

  lemma PlayerTextAppended(a: string, n: nat, d: Dialect, sides: string)
    requires GroupCount(a) == Some(n)
    requires GroupCount(sides) == Some(0) && sides != [] && sides[0] != '?'
    ensures GroupCount(a + PlayerText(d, sides)) == Some(n + 4)
  {
    PlayerTextGroups(d, sides);
    GroupCountAppend(a, PlayerText(d, sides), n);
  }

  lemma ServerMessageText1()
    ensures GroupCount(@"server_message: ") == Some(0)
  {
    var s := @"server_message: ";
    assert GroupsFrom(s, 15) == Some(0);
    assert GroupsFrom(s, 14) == Some(0);
    assert GroupsFrom(s, 13) == Some(0);
    assert GroupsFrom(s, 12) == Some(0);
    assert GroupsFrom(s, 11) == Some(0);
    assert GroupsFrom(s, 10) == Some(0);
    assert GroupsFrom(s, 9) == Some(0);
    assert GroupsFrom(s, 8) == Some(0);
    assert GroupsFrom(s, 7) == Some(0);
    assert GroupsFrom(s, 6) == Some(0);
    assert GroupsFrom(s, 5) == Some(0);
    assert GroupsFrom(s, 4) == Some(0);
    assert GroupsFrom(s, 3) == Some(0);
    assert GroupsFrom(s, 2) == Some(0);
    assert GroupsFrom(s, 1) == Some(0);
  }

  lemma ServerMessageText1Appended(a: string, n: nat)
    requires GroupCount(a) == Some(n)
    ensures GroupCount(a + @"server_message: ") == Some(n)
  {
    ServerMessageText1();
    GroupCountAppend(a, @"server_message: ", n);
  }

  lemma ServerMessageText2()
    ensures GroupCount(@"""(\w+)""") == Some(1)
  {
    var s := @"""(\w+)""";
    assert GroupsFrom(s, 6) == Some(0);
    assert GroupsFrom(s, 5) == Some(0);
    assert GroupsFrom(s, 4) == Some(0);
    assert GroupsFrom(s, 2) == Some(0);
    assert GroupsFrom(s, 1) == Some(1);
  }

  lemma ServerMessageText2Appended(a: string, n: nat)
    requires GroupCount(a) == Some(n)
    ensures GroupCount(a + @"""(\w+)""") == Some(n + 1)
  {
    ServerMessageText2();
    GroupCountAppend(a, @"""(\w+)""", n);
  }

  lemma FreezTimeStartText1()
    ensures GroupCount(@"Starting Freeze period") == Some(0)
  {
    var s := @"Starting Freeze period";
    assert GroupsFrom(s, 21) == Some(0);
    assert GroupsFrom(s, 20) == Some(0);
    assert GroupsFrom(s, 19) == Some(0);
    assert GroupsFrom(s, 18) == Some(0);
    assert GroupsFrom(s, 17) == Some(0);
    assert GroupsFrom(s, 16) == Some(0);
    assert GroupsFrom(s, 15) == Some(0);
    assert GroupsFrom(s, 14) == Some(0);
    assert GroupsFrom(s, 13) == Some(0);
    assert GroupsFrom(s, 12) == Some(0);
    assert GroupsFrom(s, 11) == Some(0);
    assert GroupsFrom(s, 10) == Some(0);
    assert GroupsFrom(s, 9) == Some(0);
    assert GroupsFrom(s, 8) == Some(0);
    assert GroupsFrom(s, 7) == Some(0);
    assert GroupsFrom(s, 6) == Some(0);
    assert GroupsFrom(s, 5) == Some(0);
    assert GroupsFrom(s, 4) == Some(0);
    assert GroupsFrom(s, 3) == Some(0);
    assert GroupsFrom(s, 2) == Some(0);
    assert GroupsFrom(s, 1) == Some(0);
  }

  lemma FreezTimeStartText1Appended(a: string, n: nat)
    requires GroupCount(a) == Some(n)
    ensures GroupCount(a + @"Starting Freeze period") == Some(n)
  {
    FreezTimeStartText1();
    GroupCountAppend(a, @"Starting Freeze period", n);
  }

  lemma WorldMatchStartText1()
    ensures GroupCount(@"World triggered ") == Some(0)
  {
    var s := @"World triggered ";
    assert GroupsFrom(s, 15) == Some(0);
    assert GroupsFrom(s, 14) == Some(0);
    assert GroupsFrom(s, 13) == Some(0);
    assert GroupsFrom(s, 12) == Some(0);
    assert GroupsFrom(s, 11) == Some(0);
    assert GroupsFrom(s, 10) == Some(0);
    assert GroupsFrom(s, 9) == Some(0);
    assert GroupsFrom(s, 8) == Some(0);
    assert GroupsFrom(s, 7) == Some(0);
    assert GroupsFrom(s, 6) == Some(0);
    assert GroupsFrom(s, 5) == Some(0);
    assert GroupsFrom(s, 4) == Some(0);
    assert GroupsFrom(s, 3) == Some(0);
    assert GroupsFrom(s, 2) == Some(0);
    assert GroupsFrom(s, 1) == Some(0);
  }

  lemma WorldMatchStartText1Appended(a: string, n: nat)
    requires GroupCount(a) == Some(n)
    ensures GroupCount(a + @"World triggered ") == Some(n)
  {
    WorldMatchStartText1();
    GroupCountAppend(a, @"World triggered ", n);
  }

  lemma WorldMatchStartText2()
    ensures GroupCount(@"""Match_Start"" on ") == Some(0)
  {
    var s := @"""Match_Start"" on ";
    assert GroupsFrom(s, 16) == Some(0);
    assert GroupsFrom(s, 15) == Some(0);
    assert GroupsFrom(s, 14) == Some(0);
    assert GroupsFrom(s, 13) == Some(0);
    assert GroupsFrom(s, 12) == Some(0);
    assert GroupsFrom(s, 11) == Some(0);
    assert GroupsFrom(s, 10) == Some(0);
    assert GroupsFrom(s, 9) == Some(0);
    assert GroupsFrom(s, 8) == Some(0);
    assert GroupsFrom(s, 7) == Some(0);
    assert GroupsFrom(s, 6) == Some(0);
    assert GroupsFrom(s, 5) == Some(0);
    assert GroupsFrom(s, 4) == Some(0);
    assert GroupsFrom(s, 3) == Some(0);
    assert GroupsFrom(s, 2) == Some(0);
    assert GroupsFrom(s, 1) == Some(0);
  }

  lemma WorldMatchStartText2Appended(a: string, n: nat)
    requires GroupCount(a) == Some(n)
    ensures GroupCount(a + @"""Match_Start"" on ") == Some(n)
  {
    WorldMatchStartText2();
    GroupCountAppend(a, @"""Match_Start"" on ", n);
  }

  lemma WorldRoundStartText1()
    ensures GroupCount(@"""Round_Start""") == Some(0)
  {
    var s := @"""Round_Start""";
    assert GroupsFrom(s, 12) == Some(0);
    assert GroupsFrom(s, 11) == Some(0);
    assert GroupsFrom(s, 10) == Some(0);
    assert GroupsFrom(s, 9) == Some(0);
    assert GroupsFrom(s, 8) == Some(0);
    assert GroupsFrom(s, 7) == Some(0);
    assert GroupsFrom(s, 6) == Some(0);
    assert GroupsFrom(s, 5) == Some(0);
    assert GroupsFrom(s, 4) == Some(0);
    assert GroupsFrom(s, 3) == Some(0);
    assert GroupsFrom(s, 2) == Some(0);
    assert GroupsFrom(s, 1) == Some(0);
  }

  lemma WorldRoundStartText1Appended(a: string, n: nat)
    requires GroupCount(a) == Some(n)
    ensures GroupCount(a + @"""Round_Start""") == Some(n)
  {
    WorldRoundStartText1();
    GroupCountAppend(a, @"""Round_Start""", n);
  }

  lemma WorldRoundRestartText1()
    ensures GroupCount(@"""Restart_Round_") == Some(0)
  {
    var s := @"""Restart_Round_";
    assert GroupsFrom(s, 14) == Some(0);
    assert GroupsFrom(s, 13) == Some(0);
    assert GroupsFrom(s, 12) == Some(0);
    assert GroupsFrom(s, 11) == Some(0);
    assert GroupsFrom(s, 10) == Some(0);
    assert GroupsFrom(s, 9) == Some(0);
    assert GroupsFrom(s, 8) == Some(0);
    assert GroupsFrom(s, 7) == Some(0);
    assert GroupsFrom(s, 6) == Some(0);
    assert GroupsFrom(s, 5) == Some(0);
    assert GroupsFrom(s, 4) == Some(0);
    assert GroupsFrom(s, 3) == Some(0);
    assert GroupsFrom(s, 2) == Some(0);
    assert GroupsFrom(s, 1) == Some(0);
  }

  lemma WorldRoundRestartText1Appended(a: string, n: nat)
    requires GroupCount(a) == Some(n)
    ensures GroupCount(a + @"""Restart_Round_") == Some(n)
  {
    WorldRoundRestartText1();
    GroupCountAppend(a, @"""Restart_Round_", n);
  }

  lemma WorldRoundRestartText2()
    ensures GroupCount(@"\((\d+)_second\)") == Some(1)
  {
    var s := @"\((\d+)_second\)";
    assert GroupsFrom(s, 14) == Some(0);
    assert GroupsFrom(s, 13) == Some(0);
    assert GroupsFrom(s, 12) == Some(0);
    assert GroupsFrom(s, 11) == Some(0);
    assert GroupsFrom(s, 10) == Some(0);
    assert GroupsFrom(s, 9) == Some(0);
    assert GroupsFrom(s, 8) == Some(0);
    assert GroupsFrom(s, 7) == Some(0);
    assert GroupsFrom(s, 6) == Some(0);
    assert GroupsFrom(s, 5) == Some(0);
    assert GroupsFrom(s, 3) == Some(0);
    assert GroupsFrom(s, 2) == Some(1);
  }

  lemma WorldRoundRestartText2Appended(a: string, n: nat)
    requires GroupCount(a) == Some(n)
    ensures GroupCount(a + @"\((\d+)_second\)") == Some(n + 1)
  {
    WorldRoundRestartText2();
    GroupCountAppend(a, @"\((\d+)_second\)", n);
  }

  lemma WorldRoundEndText1()
    ensures GroupCount(@"""Round_End""") == Some(0)
  {
    var s := @"""Round_End""";
    assert GroupsFrom(s, 10) == Some(0);
    assert GroupsFrom(s, 9) == Some(0);
    assert GroupsFrom(s, 8) == Some(0);
    assert GroupsFrom(s, 7) == Some(0);
    assert GroupsFrom(s, 6) == Some(0);
    assert GroupsFrom(s, 5) == Some(0);
    assert GroupsFrom(s, 4) == Some(0);
    assert GroupsFrom(s, 3) == Some(0);
    assert GroupsFrom(s, 2) == Some(0);
    assert GroupsFrom(s, 1) == Some(0);
  }

  lemma WorldRoundEndText1Appended(a: string, n: nat)
    requires GroupCount(a) == Some(n)
    ensures GroupCount(a + @"""Round_End""") == Some(n)
  {
    WorldRoundEndText1();
    GroupCountAppend(a, @"""Round_End""", n);
  }

  lemma WorldGameCommencingText1()
    ensures GroupCount(@"""Game_Commencing""") == Some(0)
  {
    var s := @"""Game_Commencing""";
    assert GroupsFrom(s, 16) == Some(0);
    assert GroupsFrom(s, 15) == Some(0);
    assert GroupsFrom(s, 14) == Some(0);
    assert GroupsFrom(s, 13) == Some(0);
    assert GroupsFrom(s, 12) == Some(0);
    assert GroupsFrom(s, 11) == Some(0);
    assert GroupsFrom(s, 10) == Some(0);
    assert GroupsFrom(s, 9) == Some(0);
    assert GroupsFrom(s, 8) == Some(0);
    assert GroupsFrom(s, 7) == Some(0);
    assert GroupsFrom(s, 6) == Some(0);
    assert GroupsFrom(s, 5) == Some(0);
    assert GroupsFrom(s, 4) == Some(0);
    assert GroupsFrom(s, 3) == Some(0);
    assert GroupsFrom(s, 2) == Some(0);
    assert GroupsFrom(s, 1) == Some(0);
  }

  lemma WorldGameCommencingText1Appended(a: string, n: nat)
    requires GroupCount(a) == Some(n)
    ensures GroupCount(a + @"""Game_Commencing""") == Some(n)
  {
    WorldGameCommencingText1();
    GroupCountAppend(a, @"""Game_Commencing""", n);
  }

  lemma TeamScoredText1()
    ensures GroupCount(@"Team ""(CT|TERRORIST)""") == Some(1)
  {
    var s := @"Team ""(CT|TERRORIST)""";
    assert GroupsFrom(s, 20) == Some(0);
    assert GroupsFrom(s, 19) == Some(0);
    assert GroupsFrom(s, 18) == Some(0);
    assert GroupsFrom(s, 17) == Some(0);
    assert GroupsFrom(s, 16) == Some(0);
    assert GroupsFrom(s, 15) == Some(0);
    assert GroupsFrom(s, 14) == Some(0);
    assert GroupsFrom(s, 13) == Some(0);
    assert GroupsFrom(s, 12) == Some(0);
    assert GroupsFrom(s, 11) == Some(0);
    assert GroupsFrom(s, 10) == Some(0);
    assert GroupsFrom(s, 9) == Some(0);
    assert GroupsFrom(s, 8) == Some(0);
    assert GroupsFrom(s, 7) == Some(0);
    assert GroupsFrom(s, 6) == Some(1);
    assert GroupsFrom(s, 5) == Some(1);
    assert GroupsFrom(s, 4) == Some(1);
    assert GroupsFrom(s, 3) == Some(1);
    assert GroupsFrom(s, 2) == Some(1);
    assert GroupsFrom(s, 1) == Some(1);
  }

  lemma TeamScoredText1Appended(a: string, n: nat)
    requires GroupCount(a) == Some(n)
    ensures GroupCount(a + @"Team ""(CT|TERRORIST)""") == Some(n + 1)
  {
    TeamScoredText1();
    GroupCountAppend(a, @"Team ""(CT|TERRORIST)""", n);
  }

  lemma TeamScoredText2()
    ensures GroupCount(@" scored ""(\d+)""") == Some(1)
  {
    var s := @" scored ""(\d+)""";
    assert GroupsFrom(s, 14) == Some(0);
    assert GroupsFrom(s, 13) == Some(0);
    assert GroupsFrom(s, 12) == Some(0);
    assert GroupsFrom(s, 10) == Some(0);
    assert GroupsFrom(s, 9) == Some(1);
    assert GroupsFrom(s, 8) == Some(1);
    assert GroupsFrom(s, 7) == Some(1);
    assert GroupsFrom(s, 6) == Some(1);
    assert GroupsFrom(s, 5) == Some(1);
    assert GroupsFrom(s, 4) == Some(1);
    assert GroupsFrom(s, 3) == Some(1);
    assert GroupsFrom(s, 2) == Some(1);
    assert GroupsFrom(s, 1) == Some(1);
  }

  lemma TeamScoredText2Appended(a: string, n: nat)
    requires GroupCount(a) == Some(n)
    ensures GroupCount(a + @" scored ""(\d+)""") == Some(n + 1)
  {
    TeamScoredText2();
    GroupCountAppend(a, @" scored ""(\d+)""", n);
  }

  lemma TeamScoredText3()
    ensures GroupCount(@" with ""(\d+)""") == Some(1)
  {
    var s := @" with ""(\d+)""";
    assert GroupsFrom(s, 12) == Some(0);
    assert GroupsFrom(s, 11) == Some(0);
    assert GroupsFrom(s, 10) == Some(0);
    assert GroupsFrom(s, 8) == Some(0);
    assert GroupsFrom(s, 7) == Some(1);
    assert GroupsFrom(s, 6) == Some(1);
    assert GroupsFrom(s, 5) == Some(1);
    assert GroupsFrom(s, 4) == Some(1);
    assert GroupsFrom(s, 3) == Some(1);
    assert GroupsFrom(s, 2) == Some(1);
    assert GroupsFrom(s, 1) == Some(1);
  }

  lemma TeamScoredText3Appended(a: string, n: nat)
    requires GroupCount(a) == Some(n)
    ensures GroupCount(a + @" with ""(\d+)""") == Some(n + 1)
  {
    TeamScoredText3();
    GroupCountAppend(a, @" with ""(\d+)""", n);
  }

  lemma TeamScoredText4()
    ensures GroupCount(@" players") == Some(0)
  {
    var s := @" players";
    assert GroupsFrom(s, 7) == Some(0);
    assert GroupsFrom(s, 6) == Some(0);
    assert GroupsFrom(s, 5) == Some(0);
    assert GroupsFrom(s, 4) == Some(0);
    assert GroupsFrom(s, 3) == Some(0);
    assert GroupsFrom(s, 2) == Some(0);
    assert GroupsFrom(s, 1) == Some(0);
  }

  lemma TeamScoredText4Appended(a: string, n: nat)
    requires GroupCount(a) == Some(n)
    ensures GroupCount(a + @" players") == Some(n)
  {
    TeamScoredText4();
    GroupCountAppend(a, @" players", n);
  }

  lemma TeamNoticeText1()
    ensures GroupCount(@" triggered ""(\w+)""") == Some(1)
  {
    var s := @" triggered ""(\w+)""";
    assert GroupsFrom(s, 17) == Some(0);
    assert GroupsFrom(s, 16) == Some(0);
    assert GroupsFrom(s, 15) == Some(0);
    assert GroupsFrom(s, 13) == Some(0);
    assert GroupsFrom(s, 12) == Some(1);
    assert GroupsFrom(s, 11) == Some(1);
    assert GroupsFrom(s, 10) == Some(1);
    assert GroupsFrom(s, 9) == Some(1);
    assert GroupsFrom(s, 8) == Some(1);
    assert GroupsFrom(s, 7) == Some(1);
    assert GroupsFrom(s, 6) == Some(1);
    assert GroupsFrom(s, 5) == Some(1);
    assert GroupsFrom(s, 4) == Some(1);
    assert GroupsFrom(s, 3) == Some(1);
    assert GroupsFrom(s, 2) == Some(1);
    assert GroupsFrom(s, 1) == Some(1);
  }

  lemma TeamNoticeText1Appended(a: string, n: nat)
    requires GroupCount(a) == Some(n)
    ensures GroupCount(a + @" triggered ""(\w+)""") == Some(n + 1)
  {
    TeamNoticeText1();
    GroupCountAppend(a, @" triggered ""(\w+)""", n);
  }

  lemma TeamNoticeText2()
    ensures GroupCount(@" \(CT ""(\d+)""\)") == Some(1)
  {
    var s := @" \(CT ""(\d+)""\)";
    assert GroupsFrom(s, 13) == Some(0);
    assert GroupsFrom(s, 12) == Some(0);
    assert GroupsFrom(s, 11) == Some(0);
    assert GroupsFrom(s, 10) == Some(0);
    assert GroupsFrom(s, 8) == Some(0);
    assert GroupsFrom(s, 7) == Some(1);
    assert GroupsFrom(s, 6) == Some(1);
    assert GroupsFrom(s, 5) == Some(1);
    assert GroupsFrom(s, 4) == Some(1);
    assert GroupsFrom(s, 3) == Some(1);
    assert GroupsFrom(s, 1) == Some(1);
  }

  lemma TeamNoticeText2Appended(a: string, n: nat)
    requires GroupCount(a) == Some(n)
    ensures GroupCount(a + @" \(CT ""(\d+)""\)") == Some(n + 1)
  {
    TeamNoticeText2();
    GroupCountAppend(a, @" \(CT ""(\d+)""\)", n);
  }

  lemma TeamNoticeText3()
    ensures GroupCount(@" \(T ""(\d+)""\)") == Some(1)
  {
    var s := @" \(T ""(\d+)""\)";
    assert GroupsFrom(s, 12) == Some(0);
    assert GroupsFrom(s, 11) == Some(0);
    assert GroupsFrom(s, 10) == Some(0);
    assert GroupsFrom(s, 9) == Some(0);
    assert GroupsFrom(s, 7) == Some(0);
    assert GroupsFrom(s, 6) == Some(1);
    assert GroupsFrom(s, 5) == Some(1);
    assert GroupsFrom(s, 4) == Some(1);
    assert GroupsFrom(s, 3) == Some(1);
    assert GroupsFrom(s, 1) == Some(1);
  }

  lemma TeamNoticeText3Appended(a: string, n: nat)
    requires GroupCount(a) == Some(n)
    ensures GroupCount(a + @" \(T ""(\d+)""\)") == Some(n + 1)
  {
    TeamNoticeText3();
    GroupCountAppend(a, @" \(T ""(\d+)""\)", n);
  }

  lemma PlayerConnectedText1()
    ensures GroupCount(@"><>"" connected,") == Some(0)
  {
    var s := @"><>"" connected,";
    assert GroupsFrom(s, 14) == Some(0);
    assert GroupsFrom(s, 13) == Some(0);
    assert GroupsFrom(s, 12) == Some(0);
    assert GroupsFrom(s, 11) == Some(0);
    assert GroupsFrom(s, 10) == Some(0);
    assert GroupsFrom(s, 9) == Some(0);
    assert GroupsFrom(s, 8) == Some(0);
    assert GroupsFrom(s, 7) == Some(0);
    assert GroupsFrom(s, 6) == Some(0);
    assert GroupsFrom(s, 5) == Some(0);
    assert GroupsFrom(s, 4) == Some(0);
    assert GroupsFrom(s, 3) == Some(0);
    assert GroupsFrom(s, 2) == Some(0);
    assert GroupsFrom(s, 1) == Some(0);
  }

  lemma PlayerConnectedText1Appended(a: string, n: nat)
    requires GroupCount(a) == Some(n)
    ensures GroupCount(a + @"><>"" connected,") == Some(n)
  {
    PlayerConnectedText1();
    GroupCountAppend(a, @"><>"" connected,", n);
  }

  lemma PlayerConnectedText2()
    ensures GroupCount(@" address ""(.*)""") == Some(1)
  {
    var s := @" address ""(.*)""";
    assert GroupsFrom(s, 14) == Some(0);
    assert GroupsFrom(s, 13) == Some(0);
    assert GroupsFrom(s, 12) == Some(0);
    assert GroupsFrom(s, 11) == Some(0);
    assert GroupsFrom(s, 10) == Some(1);
    assert GroupsFrom(s, 9) == Some(1);
    assert GroupsFrom(s, 8) == Some(1);
    assert GroupsFrom(s, 7) == Some(1);
    assert GroupsFrom(s, 6) == Some(1);
    assert GroupsFrom(s, 5) == Some(1);
    assert GroupsFrom(s, 4) == Some(1);
    assert GroupsFrom(s, 3) == Some(1);
    assert GroupsFrom(s, 2) == Some(1);
    assert GroupsFrom(s, 1) == Some(1);
  }

  lemma PlayerConnectedText2Appended(a: string, n: nat)
    requires GroupCount(a) == Some(n)
    ensures GroupCount(a + @" address ""(.*)""") == Some(n + 1)
  {
    PlayerConnectedText2();
    GroupCountAppend(a, @" address ""(.*)""", n);
  }

  lemma PlayerDisconnectedText1()
    ensures GroupCount(@"TERRORIST|CT|Unassigned|") == Some(0)
  {
    var s := @"TERRORIST|CT|Unassigned|";
    assert GroupsFrom(s, 23) == Some(0);
    assert GroupsFrom(s, 22) == Some(0);
    assert GroupsFrom(s, 21) == Some(0);
    assert GroupsFrom(s, 20) == Some(0);
    assert GroupsFrom(s, 19) == Some(0);
    assert GroupsFrom(s, 18) == Some(0);
    assert GroupsFrom(s, 17) == Some(0);
    assert GroupsFrom(s, 16) == Some(0);
    assert GroupsFrom(s, 15) == Some(0);
    assert GroupsFrom(s, 14) == Some(0);
    assert GroupsFrom(s, 13) == Some(0);
    assert GroupsFrom(s, 12) == Some(0);
    assert GroupsFrom(s, 11) == Some(0);
    assert GroupsFrom(s, 10) == Some(0);
    assert GroupsFrom(s, 9) == Some(0);
    assert GroupsFrom(s, 8) == Some(0);
    assert GroupsFrom(s, 7) == Some(0);
    assert GroupsFrom(s, 6) == Some(0);
    assert GroupsFrom(s, 5) == Some(0);
    assert GroupsFrom(s, 4) == Some(0);
    assert GroupsFrom(s, 3) == Some(0);
    assert GroupsFrom(s, 2) == Some(0);
    assert GroupsFrom(s, 1) == Some(0);
  }

  lemma PlayerDisconnectedText1Appended(a: string, n: nat)
    requires GroupCount(a) == Some(n)
    ensures GroupCount(a + @"TERRORIST|CT|Unassigned|") == Some(n)
  {
    PlayerDisconnectedText1();
    GroupCountAppend(a, @"TERRORIST|CT|Unassigned|", n);
  }

  lemma PlayerDisconnectedText2()
    ensures GroupCount(@" disconnected") == Some(0)
  {
    var s := @" disconnected";
    assert GroupsFrom(s, 12) == Some(0);
    assert GroupsFrom(s, 11) == Some(0);
    assert GroupsFrom(s, 10) == Some(0);
    assert GroupsFrom(s, 9) == Some(0);
    assert GroupsFrom(s, 8) == Some(0);
    assert GroupsFrom(s, 7) == Some(0);
    assert GroupsFrom(s, 6) == Some(0);
    assert GroupsFrom(s, 5) == Some(0);
    assert GroupsFrom(s, 4) == Some(0);
    assert GroupsFrom(s, 3) == Some(0);
    assert GroupsFrom(s, 2) == Some(0);
    assert GroupsFrom(s, 1) == Some(0);
  }

  lemma PlayerDisconnectedText2Appended(a: string, n: nat)
    requires GroupCount(a) == Some(n)
    ensures GroupCount(a + @" disconnected") == Some(n)
  {
    PlayerDisconnectedText2();
    GroupCountAppend(a, @" disconnected", n);
  }

  lemma PlayerDisconnectedText3()
    ensures GroupCount(@" \(reason ""(.+)""\)") == Some(1)
  {
    var s := @" \(reason ""(.+)""\)";
    assert GroupsFrom(s, 16) == Some(0);
    assert GroupsFrom(s, 15) == Some(0);
    assert GroupsFrom(s, 14) == Some(0);
    assert GroupsFrom(s, 13) == Some(0);
    assert GroupsFrom(s, 12) == Some(0);
    assert GroupsFrom(s, 11) == Some(1);
    assert GroupsFrom(s, 10) == Some(1);
    assert GroupsFrom(s, 9) == Some(1);
    assert GroupsFrom(s, 8) == Some(1);
    assert GroupsFrom(s, 7) == Some(1);
    assert GroupsFrom(s, 6) == Some(1);
    assert GroupsFrom(s, 5) == Some(1);
    assert GroupsFrom(s, 4) == Some(1);
    assert GroupsFrom(s, 3) == Some(1);
    assert GroupsFrom(s, 1) == Some(1);
  }

  lemma PlayerDisconnectedText3Appended(a: string, n: nat)
    requires GroupCount(a) == Some(n)
    ensures GroupCount(a + @" \(reason ""(.+)""\)") == Some(n + 1)
  {
    PlayerDisconnectedText3();
    GroupCountAppend(a, @" \(reason ""(.+)""\)", n);
  }

  lemma PlayerEnteredText1()
    ensures GroupCount(@"><>"" entered the game") == Some(0)
  {
    var s := @"><>"" entered the game";
    assert GroupsFrom(s, 20) == Some(0);
    assert GroupsFrom(s, 19) == Some(0);
    assert GroupsFrom(s, 18) == Some(0);
    assert GroupsFrom(s, 17) == Some(0);
    assert GroupsFrom(s, 16) == Some(0);
    assert GroupsFrom(s, 15) == Some(0);
    assert GroupsFrom(s, 14) == Some(0);
    assert GroupsFrom(s, 13) == Some(0);
    assert GroupsFrom(s, 12) == Some(0);
    assert GroupsFrom(s, 11) == Some(0);
    assert GroupsFrom(s, 10) == Some(0);
    assert GroupsFrom(s, 9) == Some(0);
    assert GroupsFrom(s, 8) == Some(0);
    assert GroupsFrom(s, 7) == Some(0);
    assert GroupsFrom(s, 6) == Some(0);
    assert GroupsFrom(s, 5) == Some(0);
    assert GroupsFrom(s, 4) == Some(0);
    assert GroupsFrom(s, 3) == Some(0);
    assert GroupsFrom(s, 2) == Some(0);
    assert GroupsFrom(s, 1) == Some(0);
  }

  lemma PlayerEnteredText1Appended(a: string, n: nat)
    requires GroupCount(a) == Some(n)
    ensures GroupCount(a + @"><>"" entered the game") == Some(n)
  {
    PlayerEnteredText1();
    GroupCountAppend(a, @"><>"" entered the game", n);
  }

  lemma PlayerBannedText1()
    ensures GroupCount(@"Banid: """) == Some(0)
  {
    var s := @"Banid: """;
    assert GroupsFrom(s, 7) == Some(0);
    assert GroupsFrom(s, 6) == Some(0);
    assert GroupsFrom(s, 5) == Some(0);
    assert GroupsFrom(s, 4) == Some(0);
    assert GroupsFrom(s, 3) == Some(0);
    assert GroupsFrom(s, 2) == Some(0);
    assert GroupsFrom(s, 1) == Some(0);
  }

  lemma PlayerBannedText1Appended(a: string, n: nat)
    requires GroupCount(a) == Some(n)
    ensures GroupCount(a + @"Banid: """) == Some(n)
  {
    PlayerBannedText1();
    GroupCountAppend(a, @"Banid: """, n);
  }

  lemma PlayerBannedText2()
    ensures GroupCount(@"><\w*>"" was banned ") == Some(0)
  {
    var s := @"><\w*>"" was banned ";
    assert GroupsFrom(s, 18) == Some(0);
    assert GroupsFrom(s, 17) == Some(0);
    assert GroupsFrom(s, 16) == Some(0);
    assert GroupsFrom(s, 15) == Some(0);
    assert GroupsFrom(s, 14) == Some(0);
    assert GroupsFrom(s, 13) == Some(0);
    assert GroupsFrom(s, 12) == Some(0);
    assert GroupsFrom(s, 11) == Some(0);
    assert GroupsFrom(s, 10) == Some(0);
    assert GroupsFrom(s, 9) == Some(0);
    assert GroupsFrom(s, 8) == Some(0);
    assert GroupsFrom(s, 7) == Some(0);
    assert GroupsFrom(s, 6) == Some(0);
    assert GroupsFrom(s, 5) == Some(0);
    assert GroupsFrom(s, 4) == Some(0);
    assert GroupsFrom(s, 2) == Some(0);
    assert GroupsFrom(s, 1) == Some(0);
  }

  lemma PlayerBannedText2Appended(a: string, n: nat)
    requires GroupCount(a) == Some(n)
    ensures GroupCount(a + @"><\w*>"" was banned ") == Some(n)
  {
    PlayerBannedText2();
    GroupCountAppend(a, @"><\w*>"" was banned ", n);
  }

  lemma PlayerBannedText3()
    ensures GroupCount(@"""([\w. ]+)""") == Some(1)
  {
    var s := @"""([\w. ]+)""";
    assert GroupsFrom(s, 10) == Some(0);
    assert GroupsFrom(s, 9) == Some(0);
    assert GroupsFrom(s, 8) == Some(0);
    assert GroupsFrom(s, 7) == Some(0);
    assert GroupsFrom(s, 6) == Some(0);
    assert GroupsFrom(s, 5) == Some(0);
    assert GroupsFrom(s, 3) == Some(0);
    assert GroupsFrom(s, 2) == Some(0);
    assert GroupsFrom(s, 1) == Some(1);
  }

  lemma PlayerBannedText3Appended(a: string, n: nat)
    requires GroupCount(a) == Some(n)
    ensures GroupCount(a + @"""([\w. ]+)""") == Some(n + 1)
  {
    PlayerBannedText3();
    GroupCountAppend(a, @"""([\w. ]+)""", n);
  }

  lemma PlayerBannedText4()
    ensures GroupCount(@" by ""(\w+)""") == Some(1)
  {
    var s := @" by ""(\w+)""";
    assert GroupsFrom(s, 10) == Some(0);
    assert GroupsFrom(s, 9) == Some(0);
    assert GroupsFrom(s, 8) == Some(0);
    assert GroupsFrom(s, 6) == Some(0);
    assert GroupsFrom(s, 5) == Some(1);
    assert GroupsFrom(s, 4) == Some(1);
    assert GroupsFrom(s, 3) == Some(1);
    assert GroupsFrom(s, 2) == Some(1);
    assert GroupsFrom(s, 1) == Some(1);
  }

  lemma PlayerBannedText4Appended(a: string, n: nat)
    requires GroupCount(a) == Some(n)
    ensures GroupCount(a + @" by ""(\w+)""") == Some(n + 1)
  {
    PlayerBannedText4();
    GroupCountAppend(a, @" by ""(\w+)""", n);
  }

  lemma PlayerSwitchedText1()
    ensures GroupCount(@">"" switched from") == Some(0)
  {
    var s := @">"" switched from";
    assert GroupsFrom(s, 15) == Some(0);
    assert GroupsFrom(s, 14) == Some(0);
    assert GroupsFrom(s, 13) == Some(0);
    assert GroupsFrom(s, 12) == Some(0);
    assert GroupsFrom(s, 11) == Some(0);
    assert GroupsFrom(s, 10) == Some(0);
    assert GroupsFrom(s, 9) == Some(0);
    assert GroupsFrom(s, 8) == Some(0);
    assert GroupsFrom(s, 7) == Some(0);
    assert GroupsFrom(s, 6) == Some(0);
    assert GroupsFrom(s, 5) == Some(0);
    assert GroupsFrom(s, 4) == Some(0);
    assert GroupsFrom(s, 3) == Some(0);
    assert GroupsFrom(s, 2) == Some(0);
    assert GroupsFrom(s, 1) == Some(0);
  }

  lemma PlayerSwitchedText1Appended(a: string, n: nat)
    requires GroupCount(a) == Some(n)
    ensures GroupCount(a + @">"" switched from") == Some(n)
  {
    PlayerSwitchedText1();
    GroupCountAppend(a, @">"" switched from", n);
  }

  lemma PlayerSwitchedText2()
    ensures GroupCount(@" team <(") == Some(1)
  {
    var s := @" team <(";
    assert GroupsFrom(s, 7) == Some(1);
    assert GroupsFrom(s, 6) == Some(1);
    assert GroupsFrom(s, 5) == Some(1);
    assert GroupsFrom(s, 4) == Some(1);
    assert GroupsFrom(s, 3) == Some(1);
    assert GroupsFrom(s, 2) == Some(1);
    assert GroupsFrom(s, 1) == Some(1);
  }

  lemma PlayerSwitchedText2Appended(a: string, n: nat)
    requires GroupCount(a) == Some(n)
    ensures GroupCount(a + @" team <(") == Some(n + 1)
  {
    PlayerSwitchedText2();
    GroupCountAppend(a, @" team <(", n);
  }

  lemma PlayerSwitchedText3()
    ensures GroupCount(@")> to <(") == Some(1)
  {
    var s := @")> to <(";
    assert GroupsFrom(s, 7) == Some(1);
    assert GroupsFrom(s, 6) == Some(1);
    assert GroupsFrom(s, 5) == Some(1);
    assert GroupsFrom(s, 4) == Some(1);
    assert GroupsFrom(s, 3) == Some(1);
    assert GroupsFrom(s, 2) == Some(1);
    assert GroupsFrom(s, 1) == Some(1);
  }

  lemma PlayerSwitchedText3Appended(a: string, n: nat)
    requires GroupCount(a) == Some(n)
    ensures GroupCount(a + @")> to <(") == Some(n + 1)
  {
    PlayerSwitchedText3();
    GroupCountAppend(a, @")> to <(", n);
  }

  lemma PlayerSwitchedText4()
    ensures GroupCount(@")>") == Some(0)
  {
    var s := @")>";
    assert GroupsFrom(s, 1) == Some(0);
  }

  lemma PlayerSwitchedText4Appended(a: string, n: nat)
    requires GroupCount(a) == Some(n)
    ensures GroupCount(a + @")>") == Some(n)
  {
    PlayerSwitchedText4();
    GroupCountAppend(a, @")>", n);
  }

  lemma PlayerSayText1()
    ensures GroupCount(@" say(_team)? ""(.*)""") == Some(2)
  {
    var s := @" say(_team)? ""(.*)""";
    assert GroupsFrom(s, 18) == Some(0);
    assert GroupsFrom(s, 17) == Some(0);
    assert GroupsFrom(s, 16) == Some(0);
    assert GroupsFrom(s, 15) == Some(0);
    assert GroupsFrom(s, 14) == Some(1);
    assert GroupsFrom(s, 13) == Some(1);
    assert GroupsFrom(s, 12) == Some(1);
    assert GroupsFrom(s, 11) == Some(1);
    assert GroupsFrom(s, 10) == Some(1);
    assert GroupsFrom(s, 9) == Some(1);
    assert GroupsFrom(s, 8) == Some(1);
    assert GroupsFrom(s, 7) == Some(1);
    assert GroupsFrom(s, 6) == Some(1);
    assert GroupsFrom(s, 5) == Some(1);
    assert GroupsFrom(s, 4) == Some(2);
    assert GroupsFrom(s, 3) == Some(2);
    assert GroupsFrom(s, 2) == Some(2);
    assert GroupsFrom(s, 1) == Some(2);
  }

  lemma PlayerSayText1Appended(a: string, n: nat)
    requires GroupCount(a) == Some(n)
    ensures GroupCount(a + @" say(_team)? ""(.*)""") == Some(n + 2)
  {
    PlayerSayText1();
    GroupCountAppend(a, @" say(_team)? ""(.*)""", n);
  }

  lemma PlayerPurchaseText1()
    ensures GroupCount(@" purchased ""(\w+)""") == Some(1)
  {
    var s := @" purchased ""(\w+)""";
    assert GroupsFrom(s, 17) == Some(0);
    assert GroupsFrom(s, 16) == Some(0);
    assert GroupsFrom(s, 15) == Some(0);
    assert GroupsFrom(s, 13) == Some(0);
    assert GroupsFrom(s, 12) == Some(1);
    assert GroupsFrom(s, 11) == Some(1);
    assert GroupsFrom(s, 10) == Some(1);
    assert GroupsFrom(s, 9) == Some(1);
    assert GroupsFrom(s, 8) == Some(1);
    assert GroupsFrom(s, 7) == Some(1);
    assert GroupsFrom(s, 6) == Some(1);
    assert GroupsFrom(s, 5) == Some(1);
    assert GroupsFrom(s, 4) == Some(1);
    assert GroupsFrom(s, 3) == Some(1);
    assert GroupsFrom(s, 2) == Some(1);
    assert GroupsFrom(s, 1) == Some(1);
  }

  lemma PlayerPurchaseText1Appended(a: string, n: nat)
    requires GroupCount(a) == Some(n)
    ensures GroupCount(a + @" purchased ""(\w+)""") == Some(n + 1)
  {
    PlayerPurchaseText1();
    GroupCountAppend(a, @" purchased ""(\w+)""", n);
  }

  lemma PlayerKillText1()
    ensures GroupCount(@" ") == Some(0)
  {
    var s := @" ";
  }

  lemma PlayerKillText1Appended(a: string, n: nat)
    requires GroupCount(a) == Some(n)
    ensures GroupCount(a + @" ") == Some(n)
  {
    PlayerKillText1();
    GroupCountAppend(a, @" ", n);
  }

  lemma PlayerKillText2()
    ensures GroupCount(@" killed ") == Some(0)
  {
    var s := @" killed ";
    assert GroupsFrom(s, 7) == Some(0);
    assert GroupsFrom(s, 6) == Some(0);
    assert GroupsFrom(s, 5) == Some(0);
    assert GroupsFrom(s, 4) == Some(0);
    assert GroupsFrom(s, 3) == Some(0);
    assert GroupsFrom(s, 2) == Some(0);
    assert GroupsFrom(s, 1) == Some(0);
  }

  lemma PlayerKillText2Appended(a: string, n: nat)
    requires GroupCount(a) == Some(n)
    ensures GroupCount(a + @" killed ") == Some(n)
  {
    PlayerKillText2();
    GroupCountAppend(a, @" killed ", n);
  }

  lemma PlayerKillText3()
    ensures GroupCount(@" with ""(\w+)""") == Some(1)
  {
    var s := @" with ""(\w+)""";
    assert GroupsFrom(s, 12) == Some(0);
    assert GroupsFrom(s, 11) == Some(0);
    assert GroupsFrom(s, 10) == Some(0);
    assert GroupsFrom(s, 8) == Some(0);
    assert GroupsFrom(s, 7) == Some(1);
    assert GroupsFrom(s, 6) == Some(1);
    assert GroupsFrom(s, 5) == Some(1);
    assert GroupsFrom(s, 4) == Some(1);
    assert GroupsFrom(s, 3) == Some(1);
    assert GroupsFrom(s, 2) == Some(1);
    assert GroupsFrom(s, 1) == Some(1);
  }

  lemma PlayerKillText3Appended(a: string, n: nat)
    requires GroupCount(a) == Some(n)
    ensures GroupCount(a + @" with ""(\w+)""") == Some(n + 1)
  {
    PlayerKillText3();
    GroupCountAppend(a, @" with ""(\w+)""", n);
  }

  lemma PlayerKillText4()
    ensures GroupCount(@" ?(\(?(headshot|") == Some(2)
  {
    var s := @" ?(\(?(headshot|";
    assert GroupsFrom(s, 15) == Some(0);
    assert GroupsFrom(s, 14) == Some(0);
    assert GroupsFrom(s, 13) == Some(0);
    assert GroupsFrom(s, 12) == Some(0);
    assert GroupsFrom(s, 11) == Some(0);
    assert GroupsFrom(s, 10) == Some(0);
    assert GroupsFrom(s, 9) == Some(0);
    assert GroupsFrom(s, 8) == Some(0);
    assert GroupsFrom(s, 7) == Some(0);
    assert GroupsFrom(s, 6) == Some(1);
    assert GroupsFrom(s, 5) == Some(1);
    assert GroupsFrom(s, 3) == Some(1);
    assert GroupsFrom(s, 2) == Some(2);
    assert GroupsFrom(s, 1) == Some(2);
  }

  lemma PlayerKillText4Appended(a: string, n: nat)
    requires GroupCount(a) == Some(n)
    ensures GroupCount(a + @" ?(\(?(headshot|") == Some(n + 2)
  {
    PlayerKillText4();
    GroupCountAppend(a, @" ?(\(?(headshot|", n);
  }

  lemma PlayerKillText5()
    ensures GroupCount(@"penetrated|headshot") == Some(0)
  {
    var s := @"penetrated|headshot";
    assert GroupsFrom(s, 18) == Some(0);
    assert GroupsFrom(s, 17) == Some(0);
    assert GroupsFrom(s, 16) == Some(0);
    assert GroupsFrom(s, 15) == Some(0);
    assert GroupsFrom(s, 14) == Some(0);
    assert GroupsFrom(s, 13) == Some(0);
    assert GroupsFrom(s, 12) == Some(0);
    assert GroupsFrom(s, 11) == Some(0);
    assert GroupsFrom(s, 10) == Some(0);
    assert GroupsFrom(s, 9) == Some(0);
    assert GroupsFrom(s, 8) == Some(0);
    assert GroupsFrom(s, 7) == Some(0);
    assert GroupsFrom(s, 6) == Some(0);
    assert GroupsFrom(s, 5) == Some(0);
    assert GroupsFrom(s, 4) == Some(0);
    assert GroupsFrom(s, 3) == Some(0);
    assert GroupsFrom(s, 2) == Some(0);
    assert GroupsFrom(s, 1) == Some(0);
  }

  lemma PlayerKillText5Appended(a: string, n: nat)
    requires GroupCount(a) == Some(n)
    ensures GroupCount(a + @"penetrated|headshot") == Some(n)
  {
    PlayerKillText5();
    GroupCountAppend(a, @"penetrated|headshot", n);
  }

  lemma PlayerKillText6()
    ensures GroupCount(@" penetrated)?\))?") == Some(0)
  {
    var s := @" penetrated)?\))?";
    assert GroupsFrom(s, 16) == Some(0);
    assert GroupsFrom(s, 15) == Some(0);
    assert GroupsFrom(s, 13) == Some(0);
    assert GroupsFrom(s, 12) == Some(0);
    assert GroupsFrom(s, 11) == Some(0);
    assert GroupsFrom(s, 10) == Some(0);
    assert GroupsFrom(s, 9) == Some(0);
    assert GroupsFrom(s, 8) == Some(0);
    assert GroupsFrom(s, 7) == Some(0);
    assert GroupsFrom(s, 6) == Some(0);
    assert GroupsFrom(s, 5) == Some(0);
    assert GroupsFrom(s, 4) == Some(0);
    assert GroupsFrom(s, 3) == Some(0);
    assert GroupsFrom(s, 2) == Some(0);
    assert GroupsFrom(s, 1) == Some(0);
  }

  lemma PlayerKillText6Appended(a: string, n: nat)
    requires GroupCount(a) == Some(n)
    ensures GroupCount(a + @" penetrated)?\))?") == Some(n)
  {
    PlayerKillText6();
    GroupCountAppend(a, @" penetrated)?\))?", n);
  }

  lemma PlayerKillAssistText1()
    ensures GroupCount(@" assisted killing ") == Some(0)
  {
    var s := @" assisted killing ";
    assert GroupsFrom(s, 17) == Some(0);
    assert GroupsFrom(s, 16) == Some(0);
    assert GroupsFrom(s, 15) == Some(0);
    assert GroupsFrom(s, 14) == Some(0);
    assert GroupsFrom(s, 13) == Some(0);
    assert GroupsFrom(s, 12) == Some(0);
    assert GroupsFrom(s, 11) == Some(0);
    assert GroupsFrom(s, 10) == Some(0);
    assert GroupsFrom(s, 9) == Some(0);
    assert GroupsFrom(s, 8) == Some(0);
    assert GroupsFrom(s, 7) == Some(0);
    assert GroupsFrom(s, 6) == Some(0);
    assert GroupsFrom(s, 5) == Some(0);
    assert GroupsFrom(s, 4) == Some(0);
    assert GroupsFrom(s, 3) == Some(0);
    assert GroupsFrom(s, 2) == Some(0);
    assert GroupsFrom(s, 1) == Some(0);
  }

  lemma PlayerKillAssistText1Appended(a: string, n: nat)
    requires GroupCount(a) == Some(n)
    ensures GroupCount(a + @" assisted killing ") == Some(n)
  {
    PlayerKillAssistText1();
    GroupCountAppend(a, @" assisted killing ", n);
  }

  lemma PlayerAttackText1()
    ensures GroupCount(@" attacked ") == Some(0)
  {
    var s := @" attacked ";
    assert GroupsFrom(s, 9) == Some(0);
    assert GroupsFrom(s, 8) == Some(0);
    assert GroupsFrom(s, 7) == Some(0);
    assert GroupsFrom(s, 6) == Some(0);
    assert GroupsFrom(s, 5) == Some(0);
    assert GroupsFrom(s, 4) == Some(0);
    assert GroupsFrom(s, 3) == Some(0);
    assert GroupsFrom(s, 2) == Some(0);
    assert GroupsFrom(s, 1) == Some(0);
  }

  lemma PlayerAttackText1Appended(a: string, n: nat)
    requires GroupCount(a) == Some(n)
    ensures GroupCount(a + @" attacked ") == Some(n)
  {
    PlayerAttackText1();
    GroupCountAppend(a, @" attacked ", n);
  }

  lemma PlayerAttackText2()
    ensures GroupCount(@" \(damage ") == Some(0)
  {
    var s := @" \(damage ";
    assert GroupsFrom(s, 9) == Some(0);
    assert GroupsFrom(s, 8) == Some(0);
    assert GroupsFrom(s, 7) == Some(0);
    assert GroupsFrom(s, 6) == Some(0);
    assert GroupsFrom(s, 5) == Some(0);
    assert GroupsFrom(s, 4) == Some(0);
    assert GroupsFrom(s, 3) == Some(0);
    assert GroupsFrom(s, 1) == Some(0);
  }

  lemma PlayerAttackText2Appended(a: string, n: nat)
    requires GroupCount(a) == Some(n)
    ensures GroupCount(a + @" \(damage ") == Some(n)
  {
    PlayerAttackText2();
    GroupCountAppend(a, @" \(damage ", n);
  }

  lemma PlayerAttackText3()
    ensures GroupCount(@"""(\d+)""\)") == Some(1)
  {
    var s := @"""(\d+)""\)";
    assert GroupsFrom(s, 7) == Some(0);
    assert GroupsFrom(s, 6) == Some(0);
    assert GroupsFrom(s, 5) == Some(0);
    assert GroupsFrom(s, 4) == Some(0);
    assert GroupsFrom(s, 2) == Some(0);
    assert GroupsFrom(s, 1) == Some(1);
  }

  lemma PlayerAttackText3Appended(a: string, n: nat)
    requires GroupCount(a) == Some(n)
    ensures GroupCount(a + @"""(\d+)""\)") == Some(n + 1)
  {
    PlayerAttackText3();
    GroupCountAppend(a, @"""(\d+)""\)", n);
  }

  lemma PlayerAttackText4()
    ensures GroupCount(@" \(damage_armor ") == Some(0)
  {
    var s := @" \(damage_armor ";
    assert GroupsFrom(s, 15) == Some(0);
    assert GroupsFrom(s, 14) == Some(0);
    assert GroupsFrom(s, 13) == Some(0);
    assert GroupsFrom(s, 12) == Some(0);
    assert GroupsFrom(s, 11) == Some(0);
    assert GroupsFrom(s, 10) == Some(0);
    assert GroupsFrom(s, 9) == Some(0);
    assert GroupsFrom(s, 8) == Some(0);
    assert GroupsFrom(s, 7) == Some(0);
    assert GroupsFrom(s, 6) == Some(0);
    assert GroupsFrom(s, 5) == Some(0);
    assert GroupsFrom(s, 4) == Some(0);
    assert GroupsFrom(s, 3) == Some(0);
    assert GroupsFrom(s, 1) == Some(0);
  }

  lemma PlayerAttackText4Appended(a: string, n: nat)
    requires GroupCount(a) == Some(n)
    ensures GroupCount(a + @" \(damage_armor ") == Some(n)
  {
    PlayerAttackText4();
    GroupCountAppend(a, @" \(damage_armor ", n);
  }

  lemma PlayerAttackText5()
    ensures GroupCount(@" \(health ") == Some(0)
  {
    var s := @" \(health ";
    assert GroupsFrom(s, 9) == Some(0);
    assert GroupsFrom(s, 8) == Some(0);
    assert GroupsFrom(s, 7) == Some(0);
    assert GroupsFrom(s, 6) == Some(0);
    assert GroupsFrom(s, 5) == Some(0);
    assert GroupsFrom(s, 4) == Some(0);
    assert GroupsFrom(s, 3) == Some(0);
    assert GroupsFrom(s, 1) == Some(0);
  }

  lemma PlayerAttackText5Appended(a: string, n: nat)
    requires GroupCount(a) == Some(n)
    ensures GroupCount(a + @" \(health ") == Some(n)
  {
    PlayerAttackText5();
    GroupCountAppend(a, @" \(health ", n);
  }

  lemma PlayerAttackText6()
    ensures GroupCount(@" \(armor ") == Some(0)
  {
    var s := @" \(armor ";
    assert GroupsFrom(s, 8) == Some(0);
    assert GroupsFrom(s, 7) == Some(0);
    assert GroupsFrom(s, 6) == Some(0);
    assert GroupsFrom(s, 5) == Some(0);
    assert GroupsFrom(s, 4) == Some(0);
    assert GroupsFrom(s, 3) == Some(0);
    assert GroupsFrom(s, 1) == Some(0);
  }

  lemma PlayerAttackText6Appended(a: string, n: nat)
    requires GroupCount(a) == Some(n)
    ensures GroupCount(a + @" \(armor ") == Some(n)
  {
    PlayerAttackText6();
    GroupCountAppend(a, @" \(armor ", n);
  }

  lemma PlayerAttackText7()
    ensures GroupCount(@" \(hitgroup ") == Some(0)
  {
    var s := @" \(hitgroup ";
    assert GroupsFrom(s, 11) == Some(0);
    assert GroupsFrom(s, 10) == Some(0);
    assert GroupsFrom(s, 9) == Some(0);
    assert GroupsFrom(s, 8) == Some(0);
    assert GroupsFrom(s, 7) == Some(0);
    assert GroupsFrom(s, 6) == Some(0);
    assert GroupsFrom(s, 5) == Some(0);
    assert GroupsFrom(s, 4) == Some(0);
    assert GroupsFrom(s, 3) == Some(0);
    assert GroupsFrom(s, 1) == Some(0);
  }

  lemma PlayerAttackText7Appended(a: string, n: nat)
    requires GroupCount(a) == Some(n)
    ensures GroupCount(a + @" \(hitgroup ") == Some(n)
  {
    PlayerAttackText7();
    GroupCountAppend(a, @" \(hitgroup ", n);
  }

  lemma PlayerAttackText8()
    ensures GroupCount(@"""([\w ]+)""\)") == Some(1)
  {
    var s := @"""([\w ]+)""\)";
    assert GroupsFrom(s, 10) == Some(0);
    assert GroupsFrom(s, 9) == Some(0);
    assert GroupsFrom(s, 8) == Some(0);
    assert GroupsFrom(s, 7) == Some(0);
    assert GroupsFrom(s, 6) == Some(0);
    assert GroupsFrom(s, 5) == Some(0);
    assert GroupsFrom(s, 3) == Some(0);
    assert GroupsFrom(s, 2) == Some(0);
    assert GroupsFrom(s, 1) == Some(1);
  }

  lemma PlayerAttackText8Appended(a: string, n: nat)
    requires GroupCount(a) == Some(n)
    ensures GroupCount(a + @"""([\w ]+)""\)") == Some(n + 1)
  {
    PlayerAttackText8();
    GroupCountAppend(a, @"""([\w ]+)""\)", n);
  }

  lemma PlayerKilledBombText1()
    ensures GroupCount(@" was killed by") == Some(0)
  {
    var s := @" was killed by";
    assert GroupsFrom(s, 13) == Some(0);
    assert GroupsFrom(s, 12) == Some(0);
    assert GroupsFrom(s, 11) == Some(0);
    assert GroupsFrom(s, 10) == Some(0);
    assert GroupsFrom(s, 9) == Some(0);
    assert GroupsFrom(s, 8) == Some(0);
    assert GroupsFrom(s, 7) == Some(0);
    assert GroupsFrom(s, 6) == Some(0);
    assert GroupsFrom(s, 5) == Some(0);
    assert GroupsFrom(s, 4) == Some(0);
    assert GroupsFrom(s, 3) == Some(0);
    assert GroupsFrom(s, 2) == Some(0);
    assert GroupsFrom(s, 1) == Some(0);
  }

  lemma PlayerKilledBombText1Appended(a: string, n: nat)
    requires GroupCount(a) == Some(n)
    ensures GroupCount(a + @" was killed by") == Some(n)
  {
    PlayerKilledBombText1();
    GroupCountAppend(a, @" was killed by", n);
  }

  lemma PlayerKilledBombText2()
    ensures GroupCount(@" the bomb\.") == Some(0)
  {
    var s := @" the bomb\.";
    assert GroupsFrom(s, 9) == Some(0);
    assert GroupsFrom(s, 8) == Some(0);
    assert GroupsFrom(s, 7) == Some(0);
    assert GroupsFrom(s, 6) == Some(0);
    assert GroupsFrom(s, 5) == Some(0);
    assert GroupsFrom(s, 4) == Some(0);
    assert GroupsFrom(s, 3) == Some(0);
    assert GroupsFrom(s, 2) == Some(0);
    assert GroupsFrom(s, 1) == Some(0);
  }

  lemma PlayerKilledBombText2Appended(a: string, n: nat)
    requires GroupCount(a) == Some(n)
    ensures GroupCount(a + @" the bomb\.") == Some(n)
  {
    PlayerKilledBombText2();
    GroupCountAppend(a, @" the bomb\.", n);
  }

  lemma PlayerKilledSuicideText1()
    ensures GroupCount(@" committed suicide with ") == Some(0)
  {
    var s := @" committed suicide with ";
    assert GroupsFrom(s, 23) == Some(0);
    assert GroupsFrom(s, 22) == Some(0);
    assert GroupsFrom(s, 21) == Some(0);
    assert GroupsFrom(s, 20) == Some(0);
    assert GroupsFrom(s, 19) == Some(0);
    assert GroupsFrom(s, 18) == Some(0);
    assert GroupsFrom(s, 17) == Some(0);
    assert GroupsFrom(s, 16) == Some(0);
    assert GroupsFrom(s, 15) == Some(0);
    assert GroupsFrom(s, 14) == Some(0);
    assert GroupsFrom(s, 13) == Some(0);
    assert GroupsFrom(s, 12) == Some(0);
    assert GroupsFrom(s, 11) == Some(0);
    assert GroupsFrom(s, 10) == Some(0);
    assert GroupsFrom(s, 9) == Some(0);
    assert GroupsFrom(s, 8) == Some(0);
    assert GroupsFrom(s, 7) == Some(0);
    assert GroupsFrom(s, 6) == Some(0);
    assert GroupsFrom(s, 5) == Some(0);
    assert GroupsFrom(s, 4) == Some(0);
    assert GroupsFrom(s, 3) == Some(0);
    assert GroupsFrom(s, 2) == Some(0);
    assert GroupsFrom(s, 1) == Some(0);
  }

  lemma PlayerKilledSuicideText1Appended(a: string, n: nat)
    requires GroupCount(a) == Some(n)
    ensures GroupCount(a + @" committed suicide with ") == Some(n)
  {
    PlayerKilledSuicideText1();
    GroupCountAppend(a, @" committed suicide with ", n);
  }

  lemma PlayerKilledSuicideText2()
    ensures GroupCount(@"""(.*)""") == Some(1)
  {
    var s := @"""(.*)""";
    assert GroupsFrom(s, 5) == Some(0);
    assert GroupsFrom(s, 4) == Some(0);
    assert GroupsFrom(s, 3) == Some(0);
    assert GroupsFrom(s, 2) == Some(0);
    assert GroupsFrom(s, 1) == Some(1);
  }

  lemma PlayerKilledSuicideText2Appended(a: string, n: nat)
    requires GroupCount(a) == Some(n)
    ensures GroupCount(a + @"""(.*)""") == Some(n + 1)
  {
    PlayerKilledSuicideText2();
    GroupCountAppend(a, @"""(.*)""", n);
  }

  lemma PlayerPickedUpText1()
    ensures GroupCount(@" picked up ""(\w+)""") == Some(1)
  {
    var s := @" picked up ""(\w+)""";
    assert GroupsFrom(s, 17) == Some(0);
    assert GroupsFrom(s, 16) == Some(0);
    assert GroupsFrom(s, 15) == Some(0);
    assert GroupsFrom(s, 13) == Some(0);
    assert GroupsFrom(s, 12) == Some(1);
    assert GroupsFrom(s, 11) == Some(1);
    assert GroupsFrom(s, 10) == Some(1);
    assert GroupsFrom(s, 9) == Some(1);
    assert GroupsFrom(s, 8) == Some(1);
    assert GroupsFrom(s, 7) == Some(1);
    assert GroupsFrom(s, 6) == Some(1);
    assert GroupsFrom(s, 5) == Some(1);
    assert GroupsFrom(s, 4) == Some(1);
    assert GroupsFrom(s, 3) == Some(1);
    assert GroupsFrom(s, 2) == Some(1);
    assert GroupsFrom(s, 1) == Some(1);
  }

  lemma PlayerPickedUpText1Appended(a: string, n: nat)
    requires GroupCount(a) == Some(n)
    ensures GroupCount(a + @" picked up ""(\w+)""") == Some(n + 1)
  {
    PlayerPickedUpText1();
    GroupCountAppend(a, @" picked up ""(\w+)""", n);
  }

  lemma PlayerDroppedText1()
    ensures GroupCount(@"TERRORIST|CT|Unassigned") == Some(0)
  {
    var s := @"TERRORIST|CT|Unassigned";
    assert GroupsFrom(s, 22) == Some(0);
    assert GroupsFrom(s, 21) == Some(0);
    assert GroupsFrom(s, 20) == Some(0);
    assert GroupsFrom(s, 19) == Some(0);
    assert GroupsFrom(s, 18) == Some(0);
    assert GroupsFrom(s, 17) == Some(0);
    assert GroupsFrom(s, 16) == Some(0);
    assert GroupsFrom(s, 15) == Some(0);
    assert GroupsFrom(s, 14) == Some(0);
    assert GroupsFrom(s, 13) == Some(0);
    assert GroupsFrom(s, 12) == Some(0);
    assert GroupsFrom(s, 11) == Some(0);
    assert GroupsFrom(s, 10) == Some(0);
    assert GroupsFrom(s, 9) == Some(0);
    assert GroupsFrom(s, 8) == Some(0);
    assert GroupsFrom(s, 7) == Some(0);
    assert GroupsFrom(s, 6) == Some(0);
    assert GroupsFrom(s, 5) == Some(0);
    assert GroupsFrom(s, 4) == Some(0);
    assert GroupsFrom(s, 3) == Some(0);
    assert GroupsFrom(s, 2) == Some(0);
    assert GroupsFrom(s, 1) == Some(0);
  }

  lemma PlayerDroppedText1Appended(a: string, n: nat)
    requires GroupCount(a) == Some(n)
    ensures GroupCount(a + @"TERRORIST|CT|Unassigned") == Some(n)
  {
    PlayerDroppedText1();
    GroupCountAppend(a, @"TERRORIST|CT|Unassigned", n);
  }

  lemma PlayerDroppedText2()
    ensures GroupCount(@" dropped ""(\w+)""") == Some(1)
  {
    var s := @" dropped ""(\w+)""";
    assert GroupsFrom(s, 15) == Some(0);
    assert GroupsFrom(s, 14) == Some(0);
    assert GroupsFrom(s, 13) == Some(0);
    assert GroupsFrom(s, 11) == Some(0);
    assert GroupsFrom(s, 10) == Some(1);
    assert GroupsFrom(s, 9) == Some(1);
    assert GroupsFrom(s, 8) == Some(1);
    assert GroupsFrom(s, 7) == Some(1);
    assert GroupsFrom(s, 6) == Some(1);
    assert GroupsFrom(s, 5) == Some(1);
    assert GroupsFrom(s, 4) == Some(1);
    assert GroupsFrom(s, 3) == Some(1);
    assert GroupsFrom(s, 2) == Some(1);
    assert GroupsFrom(s, 1) == Some(1);
  }

  lemma PlayerDroppedText2Appended(a: string, n: nat)
    requires GroupCount(a) == Some(n)
    ensures GroupCount(a + @" dropped ""(\w+)""") == Some(n + 1)
  {
    PlayerDroppedText2();
    GroupCountAppend(a, @" dropped ""(\w+)""", n);
  }

  lemma PlayerMoneyChangeText1()
    ensures GroupCount(@" money change (\d+)") == Some(1)
  {
    var s := @" money change (\d+)";
    assert GroupsFrom(s, 18) == Some(0);
    assert GroupsFrom(s, 17) == Some(0);
    assert GroupsFrom(s, 15) == Some(0);
    assert GroupsFrom(s, 14) == Some(1);
    assert GroupsFrom(s, 13) == Some(1);
    assert GroupsFrom(s, 12) == Some(1);
    assert GroupsFrom(s, 11) == Some(1);
    assert GroupsFrom(s, 10) == Some(1);
    assert GroupsFrom(s, 9) == Some(1);
    assert GroupsFrom(s, 8) == Some(1);
    assert GroupsFrom(s, 7) == Some(1);
    assert GroupsFrom(s, 6) == Some(1);
    assert GroupsFrom(s, 5) == Some(1);
    assert GroupsFrom(s, 4) == Some(1);
    assert GroupsFrom(s, 3) == Some(1);
    assert GroupsFrom(s, 2) == Some(1);
    assert GroupsFrom(s, 1) == Some(1);
  }

  lemma PlayerMoneyChangeText1Appended(a: string, n: nat)
    requires GroupCount(a) == Some(n)
    ensures GroupCount(a + @" money change (\d+)") == Some(n + 1)
  {
    PlayerMoneyChangeText1();
    GroupCountAppend(a, @" money change (\d+)", n);
  }

  lemma PlayerMoneyChangeText2()
    ensures GroupCount(@"\+?(-?\d+)") == Some(1)
  {
    var s := @"\+?(-?\d+)";
    assert GroupsFrom(s, 9) == Some(0);
    assert GroupsFrom(s, 8) == Some(0);
    assert GroupsFrom(s, 6) == Some(0);
    assert GroupsFrom(s, 5) == Some(0);
    assert GroupsFrom(s, 4) == Some(0);
    assert GroupsFrom(s, 3) == Some(1);
    assert GroupsFrom(s, 2) == Some(1);
  }

  lemma PlayerMoneyChangeText2Appended(a: string, n: nat)
    requires GroupCount(a) == Some(n)
    ensures GroupCount(a + @"\+?(-?\d+)") == Some(n + 1)
  {
    PlayerMoneyChangeText2();
    GroupCountAppend(a, @"\+?(-?\d+)", n);
  }

  lemma PlayerMoneyChangeText3()
    ensures GroupCount(@" = \$(\d+)") == Some(1)
  {
    var s := @" = \$(\d+)";
    assert GroupsFrom(s, 9) == Some(0);
    assert GroupsFrom(s, 8) == Some(0);
    assert GroupsFrom(s, 6) == Some(0);
    assert GroupsFrom(s, 5) == Some(1);
    assert GroupsFrom(s, 3) == Some(1);
    assert GroupsFrom(s, 2) == Some(1);
    assert GroupsFrom(s, 1) == Some(1);
  }

  lemma PlayerMoneyChangeText3Appended(a: string, n: nat)
    requires GroupCount(a) == Some(n)
    ensures GroupCount(a + @" = \$(\d+)") == Some(n + 1)
  {
    PlayerMoneyChangeText3();
    GroupCountAppend(a, @" = \$(\d+)", n);
  }

  lemma PlayerMoneyChangeText4()
    ensures GroupCount(@" \(tracked\)") == Some(0)
  {
    var s := @" \(tracked\)";
    assert GroupsFrom(s, 10) == Some(0);
    assert GroupsFrom(s, 9) == Some(0);
    assert GroupsFrom(s, 8) == Some(0);
    assert GroupsFrom(s, 7) == Some(0);
    assert GroupsFrom(s, 6) == Some(0);
    assert GroupsFrom(s, 5) == Some(0);
    assert GroupsFrom(s, 4) == Some(0);
    assert GroupsFrom(s, 3) == Some(0);
    assert GroupsFrom(s, 1) == Some(0);
  }

  lemma PlayerMoneyChangeText4Appended(a: string, n: nat)
    requires GroupCount(a) == Some(n)
    ensures GroupCount(a + @" \(tracked\)") == Some(n)
  {
    PlayerMoneyChangeText4();
    GroupCountAppend(a, @" \(tracked\)", n);
  }

  lemma PlayerMoneyChangeText5()
    ensures GroupCount(@"( \(purchase: ") == Some(1)
  {
    var s := @"( \(purchase: ";
    assert GroupsFrom(s, 13) == Some(0);
    assert GroupsFrom(s, 12) == Some(0);
    assert GroupsFrom(s, 11) == Some(0);
    assert GroupsFrom(s, 10) == Some(0);
    assert GroupsFrom(s, 9) == Some(0);
    assert GroupsFrom(s, 8) == Some(0);
    assert GroupsFrom(s, 7) == Some(0);
    assert GroupsFrom(s, 6) == Some(0);
    assert GroupsFrom(s, 5) == Some(0);
    assert GroupsFrom(s, 4) == Some(0);
    assert GroupsFrom(s, 2) == Some(0);
    assert GroupsFrom(s, 1) == Some(0);
  }

  lemma PlayerMoneyChangeText5Appended(a: string, n: nat)
    requires GroupCount(a) == Some(n)
    ensures GroupCount(a + @"( \(purchase: ") == Some(n + 1)
  {
    PlayerMoneyChangeText5();
    GroupCountAppend(a, @"( \(purchase: ", n);
  }

  lemma PlayerMoneyChangeText6()
    ensures GroupCount(@"(\w+)\))?") == Some(1)
  {
    var s := @"(\w+)\))?";
    assert GroupsFrom(s, 8) == Some(0);
    assert GroupsFrom(s, 7) == Some(0);
    assert GroupsFrom(s, 5) == Some(0);
    assert GroupsFrom(s, 4) == Some(0);
    assert GroupsFrom(s, 3) == Some(0);
    assert GroupsFrom(s, 1) == Some(0);
  }

  lemma PlayerMoneyChangeText6Appended(a: string, n: nat)
    requires GroupCount(a) == Some(n)
    ensures GroupCount(a + @"(\w+)\))?") == Some(n + 1)
  {
    PlayerMoneyChangeText6();
    GroupCountAppend(a, @"(\w+)\))?", n);
  }

  lemma PlayerBombGotText1()
    ensures GroupCount(@" triggered ") == Some(0)
  {
    var s := @" triggered ";
    assert GroupsFrom(s, 10) == Some(0);
    assert GroupsFrom(s, 9) == Some(0);
    assert GroupsFrom(s, 8) == Some(0);
    assert GroupsFrom(s, 7) == Some(0);
    assert GroupsFrom(s, 6) == Some(0);
    assert GroupsFrom(s, 5) == Some(0);
    assert GroupsFrom(s, 4) == Some(0);
    assert GroupsFrom(s, 3) == Some(0);
    assert GroupsFrom(s, 2) == Some(0);
    assert GroupsFrom(s, 1) == Some(0);
  }

  lemma PlayerBombGotText1Appended(a: string, n: nat)
    requires GroupCount(a) == Some(n)
    ensures GroupCount(a + @" triggered ") == Some(n)
  {
    PlayerBombGotText1();
    GroupCountAppend(a, @" triggered ", n);
  }

  lemma PlayerBombGotText2()
    ensures GroupCount(@"""Got_The_Bomb""") == Some(0)
  {
    var s := @"""Got_The_Bomb""";
    assert GroupsFrom(s, 13) == Some(0);
    assert GroupsFrom(s, 12) == Some(0);
    assert GroupsFrom(s, 11) == Some(0);
    assert GroupsFrom(s, 10) == Some(0);
    assert GroupsFrom(s, 9) == Some(0);
    assert GroupsFrom(s, 8) == Some(0);
    assert GroupsFrom(s, 7) == Some(0);
    assert GroupsFrom(s, 6) == Some(0);
    assert GroupsFrom(s, 5) == Some(0);
    assert GroupsFrom(s, 4) == Some(0);
    assert GroupsFrom(s, 3) == Some(0);
    assert GroupsFrom(s, 2) == Some(0);
    assert GroupsFrom(s, 1) == Some(0);
  }

  lemma PlayerBombGotText2Appended(a: string, n: nat)
    requires GroupCount(a) == Some(n)
    ensures GroupCount(a + @"""Got_The_Bomb""") == Some(n)
  {
    PlayerBombGotText2();
    GroupCountAppend(a, @"""Got_The_Bomb""", n);
  }

  lemma PlayerBombPlantedText1()
    ensures GroupCount(@"""Planted_The_Bomb""") == Some(0)
  {
    var s := @"""Planted_The_Bomb""";
    assert GroupsFrom(s, 17) == Some(0);
    assert GroupsFrom(s, 16) == Some(0);
    assert GroupsFrom(s, 15) == Some(0);
    assert GroupsFrom(s, 14) == Some(0);
    assert GroupsFrom(s, 13) == Some(0);
    assert GroupsFrom(s, 12) == Some(0);
    assert GroupsFrom(s, 11) == Some(0);
    assert GroupsFrom(s, 10) == Some(0);
    assert GroupsFrom(s, 9) == Some(0);
    assert GroupsFrom(s, 8) == Some(0);
    assert GroupsFrom(s, 7) == Some(0);
    assert GroupsFrom(s, 6) == Some(0);
    assert GroupsFrom(s, 5) == Some(0);
    assert GroupsFrom(s, 4) == Some(0);
    assert GroupsFrom(s, 3) == Some(0);
    assert GroupsFrom(s, 2) == Some(0);
    assert GroupsFrom(s, 1) == Some(0);
  }

  lemma PlayerBombPlantedText1Appended(a: string, n: nat)
    requires GroupCount(a) == Some(n)
    ensures GroupCount(a + @"""Planted_The_Bomb""") == Some(n)
  {
    PlayerBombPlantedText1();
    GroupCountAppend(a, @"""Planted_The_Bomb""", n);
  }

  lemma PlayerBombDroppedText1()
    ensures GroupCount(@"""Dropped_The_Bomb""") == Some(0)
  {
    var s := @"""Dropped_The_Bomb""";
    assert GroupsFrom(s, 17) == Some(0);
    assert GroupsFrom(s, 16) == Some(0);
    assert GroupsFrom(s, 15) == Some(0);
    assert GroupsFrom(s, 14) == Some(0);
    assert GroupsFrom(s, 13) == Some(0);
    assert GroupsFrom(s, 12) == Some(0);
    assert GroupsFrom(s, 11) == Some(0);
    assert GroupsFrom(s, 10) == Some(0);
    assert GroupsFrom(s, 9) == Some(0);
    assert GroupsFrom(s, 8) == Some(0);
    assert GroupsFrom(s, 7) == Some(0);
    assert GroupsFrom(s, 6) == Some(0);
    assert GroupsFrom(s, 5) == Some(0);
    assert GroupsFrom(s, 4) == Some(0);
    assert GroupsFrom(s, 3) == Some(0);
    assert GroupsFrom(s, 2) == Some(0);
    assert GroupsFrom(s, 1) == Some(0);
  }

  lemma PlayerBombDroppedText1Appended(a: string, n: nat)
    requires GroupCount(a) == Some(n)
    ensures GroupCount(a + @"""Dropped_The_Bomb""") == Some(n)
  {
    PlayerBombDroppedText1();
    GroupCountAppend(a, @"""Dropped_The_Bomb""", n);
  }

  lemma PlayerBombBeginDefuseText1()
    ensures GroupCount(@"""Begin_Bomb_Defuse") == Some(0)
  {
    var s := @"""Begin_Bomb_Defuse";
    assert GroupsFrom(s, 17) == Some(0);
    assert GroupsFrom(s, 16) == Some(0);
    assert GroupsFrom(s, 15) == Some(0);
    assert GroupsFrom(s, 14) == Some(0);
    assert GroupsFrom(s, 13) == Some(0);
    assert GroupsFrom(s, 12) == Some(0);
    assert GroupsFrom(s, 11) == Some(0);
    assert GroupsFrom(s, 10) == Some(0);
    assert GroupsFrom(s, 9) == Some(0);
    assert GroupsFrom(s, 8) == Some(0);
    assert GroupsFrom(s, 7) == Some(0);
    assert GroupsFrom(s, 6) == Some(0);
    assert GroupsFrom(s, 5) == Some(0);
    assert GroupsFrom(s, 4) == Some(0);
    assert GroupsFrom(s, 3) == Some(0);
    assert GroupsFrom(s, 2) == Some(0);
    assert GroupsFrom(s, 1) == Some(0);
  }

  lemma PlayerBombBeginDefuseText1Appended(a: string, n: nat)
    requires GroupCount(a) == Some(n)
    ensures GroupCount(a + @"""Begin_Bomb_Defuse") == Some(n)
  {
    PlayerBombBeginDefuseText1();
    GroupCountAppend(a, @"""Begin_Bomb_Defuse", n);
  }

  lemma PlayerBombBeginDefuseText2()
    ensures GroupCount(@"_With(out)?_Kit""") == Some(1)
  {
    var s := @"_With(out)?_Kit""";
    assert GroupsFrom(s, 15) == Some(0);
    assert GroupsFrom(s, 14) == Some(0);
    assert GroupsFrom(s, 13) == Some(0);
    assert GroupsFrom(s, 12) == Some(0);
    assert GroupsFrom(s, 11) == Some(0);
    assert GroupsFrom(s, 10) == Some(0);
    assert GroupsFrom(s, 9) == Some(0);
    assert GroupsFrom(s, 8) == Some(0);
    assert GroupsFrom(s, 7) == Some(0);
    assert GroupsFrom(s, 6) == Some(0);
    assert GroupsFrom(s, 5) == Some(1);
    assert GroupsFrom(s, 4) == Some(1);
    assert GroupsFrom(s, 3) == Some(1);
    assert GroupsFrom(s, 2) == Some(1);
    assert GroupsFrom(s, 1) == Some(1);
  }

  lemma PlayerBombBeginDefuseText2Appended(a: string, n: nat)
    requires GroupCount(a) == Some(n)
    ensures GroupCount(a + @"_With(out)?_Kit""") == Some(n + 1)
  {
    PlayerBombBeginDefuseText2();
    GroupCountAppend(a, @"_With(out)?_Kit""", n);
  }

  lemma PlayerBombDefusedText1()
    ensures GroupCount(@"""Defused_The_Bomb""") == Some(0)
  {
    var s := @"""Defused_The_Bomb""";
    assert GroupsFrom(s, 17) == Some(0);
    assert GroupsFrom(s, 16) == Some(0);
    assert GroupsFrom(s, 15) == Some(0);
    assert GroupsFrom(s, 14) == Some(0);
    assert GroupsFrom(s, 13) == Some(0);
    assert GroupsFrom(s, 12) == Some(0);
    assert GroupsFrom(s, 11) == Some(0);
    assert GroupsFrom(s, 10) == Some(0);
    assert GroupsFrom(s, 9) == Some(0);
    assert GroupsFrom(s, 8) == Some(0);
    assert GroupsFrom(s, 7) == Some(0);
    assert GroupsFrom(s, 6) == Some(0);
    assert GroupsFrom(s, 5) == Some(0);
    assert GroupsFrom(s, 4) == Some(0);
    assert GroupsFrom(s, 3) == Some(0);
    assert GroupsFrom(s, 2) == Some(0);
    assert GroupsFrom(s, 1) == Some(0);
  }

  lemma PlayerBombDefusedText1Appended(a: string, n: nat)
    requires GroupCount(a) == Some(n)
    ensures GroupCount(a + @"""Defused_The_Bomb""") == Some(n)
  {
    PlayerBombDefusedText1();
    GroupCountAppend(a, @"""Defused_The_Bomb""", n);
  }

  lemma PlayerThrewText1()
    ensures GroupCount(@" threw (\w+) ") == Some(1)
  {
    var s := @" threw (\w+) ";
    assert GroupsFrom(s, 12) == Some(0);
    assert GroupsFrom(s, 11) == Some(0);
    assert GroupsFrom(s, 10) == Some(0);
    assert GroupsFrom(s, 8) == Some(0);
    assert GroupsFrom(s, 7) == Some(1);
    assert GroupsFrom(s, 6) == Some(1);
    assert GroupsFrom(s, 5) == Some(1);
    assert GroupsFrom(s, 4) == Some(1);
    assert GroupsFrom(s, 3) == Some(1);
    assert GroupsFrom(s, 2) == Some(1);
    assert GroupsFrom(s, 1) == Some(1);
  }

  lemma PlayerThrewText1Appended(a: string, n: nat)
    requires GroupCount(a) == Some(n)
    ensures GroupCount(a + @" threw (\w+) ") == Some(n + 1)
  {
    PlayerThrewText1();
    GroupCountAppend(a, @" threw (\w+) ", n);
  }

  lemma PlayerThrewText2()
    ensures GroupCount(@"( flashbang entindex") == Some(1)
  {
    var s := @"( flashbang entindex";
    assert GroupsFrom(s, 19) == Some(0);
    assert GroupsFrom(s, 18) == Some(0);
    assert GroupsFrom(s, 17) == Some(0);
    assert GroupsFrom(s, 16) == Some(0);
    assert GroupsFrom(s, 15) == Some(0);
    assert GroupsFrom(s, 14) == Some(0);
    assert GroupsFrom(s, 13) == Some(0);
    assert GroupsFrom(s, 12) == Some(0);
    assert GroupsFrom(s, 11) == Some(0);
    assert GroupsFrom(s, 10) == Some(0);
    assert GroupsFrom(s, 9) == Some(0);
    assert GroupsFrom(s, 8) == Some(0);
    assert GroupsFrom(s, 7) == Some(0);
    assert GroupsFrom(s, 6) == Some(0);
    assert GroupsFrom(s, 5) == Some(0);
    assert GroupsFrom(s, 4) == Some(0);
    assert GroupsFrom(s, 3) == Some(0);
    assert GroupsFrom(s, 2) == Some(0);
    assert GroupsFrom(s, 1) == Some(0);
  }

  lemma PlayerThrewText2Appended(a: string, n: nat)
    requires GroupCount(a) == Some(n)
    ensures GroupCount(a + @"( flashbang entindex") == Some(n + 1)
  {
    PlayerThrewText2();
    GroupCountAppend(a, @"( flashbang entindex", n);
  }

  lemma PlayerThrewText3()
    ensures GroupCount(@" (\d+))?\)?") == Some(1)
  {
    var s := @" (\d+))?\)?";
    assert GroupsFrom(s, 10) == Some(0);
    assert GroupsFrom(s, 8) == Some(0);
    assert GroupsFrom(s, 7) == Some(0);
    assert GroupsFrom(s, 6) == Some(0);
    assert GroupsFrom(s, 5) == Some(0);
    assert GroupsFrom(s, 4) == Some(0);
    assert GroupsFrom(s, 2) == Some(0);
    assert GroupsFrom(s, 1) == Some(1);
  }

  lemma PlayerThrewText3Appended(a: string, n: nat)
    requires GroupCount(a) == Some(n)
    ensures GroupCount(a + @" (\d+))?\)?") == Some(n + 1)
  {
    PlayerThrewText3();
    GroupCountAppend(a, @" (\d+))?\)?", n);
  }

  lemma PlayerBlindedText1()
    ensures GroupCount(@" blinded for ") == Some(0)
  {
    var s := @" blinded for ";
    assert GroupsFrom(s, 12) == Some(0);
    assert GroupsFrom(s, 11) == Some(0);
    assert GroupsFrom(s, 10) == Some(0);
    assert GroupsFrom(s, 9) == Some(0);
    assert GroupsFrom(s, 8) == Some(0);
    assert GroupsFrom(s, 7) == Some(0);
    assert GroupsFrom(s, 6) == Some(0);
    assert GroupsFrom(s, 5) == Some(0);
    assert GroupsFrom(s, 4) == Some(0);
    assert GroupsFrom(s, 3) == Some(0);
    assert GroupsFrom(s, 2) == Some(0);
    assert GroupsFrom(s, 1) == Some(0);
  }

  lemma PlayerBlindedText1Appended(a: string, n: nat)
    requires GroupCount(a) == Some(n)
    ensures GroupCount(a + @" blinded for ") == Some(n)
  {
    PlayerBlindedText1();
    GroupCountAppend(a, @" blinded for ", n);
  }

  lemma PlayerBlindedText2()
    ensures GroupCount(@"([\d.]+) by ") == Some(1)
  {
    var s := @"([\d.]+) by ";
    assert GroupsFrom(s, 11) == Some(0);
    assert GroupsFrom(s, 10) == Some(0);
    assert GroupsFrom(s, 9) == Some(0);
    assert GroupsFrom(s, 8) == Some(0);
    assert GroupsFrom(s, 7) == Some(0);
    assert GroupsFrom(s, 6) == Some(0);
    assert GroupsFrom(s, 5) == Some(0);
    assert GroupsFrom(s, 4) == Some(0);
    assert GroupsFrom(s, 2) == Some(0);
    assert GroupsFrom(s, 1) == Some(0);
  }

  lemma PlayerBlindedText2Appended(a: string, n: nat)
    requires GroupCount(a) == Some(n)
    ensures GroupCount(a + @"([\d.]+) by ") == Some(n + 1)
  {
    PlayerBlindedText2();
    GroupCountAppend(a, @"([\d.]+) by ", n);
  }

  lemma PlayerBlindedText3()
    ensures GroupCount(@" from flashbang") == Some(0)
  {
    var s := @" from flashbang";
    assert GroupsFrom(s, 14) == Some(0);
    assert GroupsFrom(s, 13) == Some(0);
    assert GroupsFrom(s, 12) == Some(0);
    assert GroupsFrom(s, 11) == Some(0);
    assert GroupsFrom(s, 10) == Some(0);
    assert GroupsFrom(s, 9) == Some(0);
    assert GroupsFrom(s, 8) == Some(0);
    assert GroupsFrom(s, 7) == Some(0);
    assert GroupsFrom(s, 6) == Some(0);
    assert GroupsFrom(s, 5) == Some(0);
    assert GroupsFrom(s, 4) == Some(0);
    assert GroupsFrom(s, 3) == Some(0);
    assert GroupsFrom(s, 2) == Some(0);
    assert GroupsFrom(s, 1) == Some(0);
  }

  lemma PlayerBlindedText3Appended(a: string, n: nat)
    requires GroupCount(a) == Some(n)
    ensures GroupCount(a + @" from flashbang") == Some(n)
  {
    PlayerBlindedText3();
    GroupCountAppend(a, @" from flashbang", n);
  }

  lemma PlayerBlindedText4()
    ensures GroupCount(@" entindex (\d+)") == Some(1)
  {
    var s := @" entindex (\d+)";
    assert GroupsFrom(s, 14) == Some(0);
    assert GroupsFrom(s, 13) == Some(0);
    assert GroupsFrom(s, 11) == Some(0);
    assert GroupsFrom(s, 10) == Some(1);
    assert GroupsFrom(s, 9) == Some(1);
    assert GroupsFrom(s, 8) == Some(1);
    assert GroupsFrom(s, 7) == Some(1);
    assert GroupsFrom(s, 6) == Some(1);
    assert GroupsFrom(s, 5) == Some(1);
    assert GroupsFrom(s, 4) == Some(1);
    assert GroupsFrom(s, 3) == Some(1);
    assert GroupsFrom(s, 2) == Some(1);
    assert GroupsFrom(s, 1) == Some(1);
  }

  lemma PlayerBlindedText4Appended(a: string, n: nat)
    requires GroupCount(a) == Some(n)
    ensures GroupCount(a + @" entindex (\d+)") == Some(n + 1)
  {
    PlayerBlindedText4();
    GroupCountAppend(a, @" entindex (\d+)", n);
  }

  lemma ProjectileSpawnedText1()
    ensures GroupCount(@"Molotov projectile") == Some(0)
  {
    var s := @"Molotov projectile";
    assert GroupsFrom(s, 17) == Some(0);
    assert GroupsFrom(s, 16) == Some(0);
    assert GroupsFrom(s, 15) == Some(0);
    assert GroupsFrom(s, 14) == Some(0);
    assert GroupsFrom(s, 13) == Some(0);
    assert GroupsFrom(s, 12) == Some(0);
    assert GroupsFrom(s, 11) == Some(0);
    assert GroupsFrom(s, 10) == Some(0);
    assert GroupsFrom(s, 9) == Some(0);
    assert GroupsFrom(s, 8) == Some(0);
    assert GroupsFrom(s, 7) == Some(0);
    assert GroupsFrom(s, 6) == Some(0);
    assert GroupsFrom(s, 5) == Some(0);
    assert GroupsFrom(s, 4) == Some(0);
    assert GroupsFrom(s, 3) == Some(0);
    assert GroupsFrom(s, 2) == Some(0);
    assert GroupsFrom(s, 1) == Some(0);
  }

  lemma ProjectileSpawnedText1Appended(a: string, n: nat)
    requires GroupCount(a) == Some(n)
    ensures GroupCount(a + @"Molotov projectile") == Some(n)
  {
    ProjectileSpawnedText1();
    GroupCountAppend(a, @"Molotov projectile", n);
  }

  lemma ProjectileSpawnedText2()
    ensures GroupCount(@" spawned at ") == Some(0)
  {
    var s := @" spawned at ";
    assert GroupsFrom(s, 11) == Some(0);
    assert GroupsFrom(s, 10) == Some(0);
    assert GroupsFrom(s, 9) == Some(0);
    assert GroupsFrom(s, 8) == Some(0);
    assert GroupsFrom(s, 7) == Some(0);
    assert GroupsFrom(s, 6) == Some(0);
    assert GroupsFrom(s, 5) == Some(0);
    assert GroupsFrom(s, 4) == Some(0);
    assert GroupsFrom(s, 3) == Some(0);
    assert GroupsFrom(s, 2) == Some(0);
    assert GroupsFrom(s, 1) == Some(0);
  }

  lemma ProjectileSpawnedText2Appended(a: string, n: nat)
    requires GroupCount(a) == Some(n)
    ensures GroupCount(a + @" spawned at ") == Some(n)
  {
    ProjectileSpawnedText2();
    GroupCountAppend(a, @" spawned at ", n);
  }

  lemma ProjectileSpawnedText3()
    ensures GroupCount(@"(-?\d+\.\d+)") == Some(1)
  {
    var s := @"(-?\d+\.\d+)";
    assert GroupsFrom(s, 11) == Some(0);
    assert GroupsFrom(s, 10) == Some(0);
    assert GroupsFrom(s, 8) == Some(0);
    assert GroupsFrom(s, 6) == Some(0);
    assert GroupsFrom(s, 5) == Some(0);
    assert GroupsFrom(s, 3) == Some(0);
    assert GroupsFrom(s, 2) == Some(0);
    assert GroupsFrom(s, 1) == Some(0);
  }

  lemma ProjectileSpawnedText3Appended(a: string, n: nat)
    requires GroupCount(a) == Some(n)
    ensures GroupCount(a + @"(-?\d+\.\d+)") == Some(n + 1)
  {
    ProjectileSpawnedText3();
    GroupCountAppend(a, @"(-?\d+\.\d+)", n);
  }

  lemma ProjectileSpawnedText4()
    ensures GroupCount(@" (-?\d+\.\d+)") == Some(1)
  {
    var s := @" (-?\d+\.\d+)";
    assert GroupsFrom(s, 12) == Some(0);
    assert GroupsFrom(s, 11) == Some(0);
    assert GroupsFrom(s, 9) == Some(0);
    assert GroupsFrom(s, 7) == Some(0);
    assert GroupsFrom(s, 6) == Some(0);
    assert GroupsFrom(s, 4) == Some(0);
    assert GroupsFrom(s, 3) == Some(0);
    assert GroupsFrom(s, 2) == Some(0);
    assert GroupsFrom(s, 1) == Some(1);
  }

  lemma ProjectileSpawnedText4Appended(a: string, n: nat)
    requires GroupCount(a) == Some(n)
    ensures GroupCount(a + @" (-?\d+\.\d+)") == Some(n + 1)
  {
    ProjectileSpawnedText4();
    GroupCountAppend(a, @" (-?\d+\.\d+)", n);
  }

  lemma ProjectileSpawnedText5()
    ensures GroupCount(@" (-?\d+\.\d+),") == Some(1)
  {
    var s := @" (-?\d+\.\d+),";
    assert GroupsFrom(s, 13) == Some(0);
    assert GroupsFrom(s, 12) == Some(0);
    assert GroupsFrom(s, 11) == Some(0);
    assert GroupsFrom(s, 9) == Some(0);
    assert GroupsFrom(s, 7) == Some(0);
    assert GroupsFrom(s, 6) == Some(0);
    assert GroupsFrom(s, 4) == Some(0);
    assert GroupsFrom(s, 3) == Some(0);
    assert GroupsFrom(s, 2) == Some(0);
    assert GroupsFrom(s, 1) == Some(1);
  }

  lemma ProjectileSpawnedText5Appended(a: string, n: nat)
    requires GroupCount(a) == Some(n)
    ensures GroupCount(a + @" (-?\d+\.\d+),") == Some(n + 1)
  {
    ProjectileSpawnedText5();
    GroupCountAppend(a, @" (-?\d+\.\d+),", n);
  }

  lemma ProjectileSpawnedText6()
    ensures GroupCount(@" velocity ") == Some(0)
  {
    var s := @" velocity ";
    assert GroupsFrom(s, 9) == Some(0);
    assert GroupsFrom(s, 8) == Some(0);
    assert GroupsFrom(s, 7) == Some(0);
    assert GroupsFrom(s, 6) == Some(0);
    assert GroupsFrom(s, 5) == Some(0);
    assert GroupsFrom(s, 4) == Some(0);
    assert GroupsFrom(s, 3) == Some(0);
    assert GroupsFrom(s, 2) == Some(0);
    assert GroupsFrom(s, 1) == Some(0);
  }

  lemma ProjectileSpawnedText6Appended(a: string, n: nat)
    requires GroupCount(a) == Some(n)
    ensures GroupCount(a + @" velocity ") == Some(n)
  {
    ProjectileSpawnedText6();
    GroupCountAppend(a, @" velocity ", n);
  }

  lemma GameOverText1()
    ensures GroupCount(@"Game Over: (\w+)") == Some(1)
  {
    var s := @"Game Over: (\w+)";
    assert GroupsFrom(s, 15) == Some(0);
    assert GroupsFrom(s, 14) == Some(0);
    assert GroupsFrom(s, 12) == Some(0);
    assert GroupsFrom(s, 11) == Some(1);
    assert GroupsFrom(s, 10) == Some(1);
    assert GroupsFrom(s, 9) == Some(1);
    assert GroupsFrom(s, 8) == Some(1);
    assert GroupsFrom(s, 7) == Some(1);
    assert GroupsFrom(s, 6) == Some(1);
    assert GroupsFrom(s, 5) == Some(1);
    assert GroupsFrom(s, 4) == Some(1);
    assert GroupsFrom(s, 3) == Some(1);
    assert GroupsFrom(s, 2) == Some(1);
    assert GroupsFrom(s, 1) == Some(1);
  }

  lemma GameOverText1Appended(a: string, n: nat)
    requires GroupCount(a) == Some(n)
    ensures GroupCount(a + @"Game Over: (\w+)") == Some(n + 1)
  {
    GameOverText1();
    GroupCountAppend(a, @"Game Over: (\w+)", n);
  }

  lemma GameOverText2()
    ensures GroupCount(@" (\w+) (\w+)") == Some(2)
  {
    var s := @" (\w+) (\w+)";
    assert GroupsFrom(s, 11) == Some(0);
    assert GroupsFrom(s, 10) == Some(0);
    assert GroupsFrom(s, 8) == Some(0);
    assert GroupsFrom(s, 7) == Some(1);
    assert GroupsFrom(s, 6) == Some(1);
    assert GroupsFrom(s, 5) == Some(1);
    assert GroupsFrom(s, 4) == Some(1);
    assert GroupsFrom(s, 2) == Some(1);
    assert GroupsFrom(s, 1) == Some(2);
  }

  lemma GameOverText2Appended(a: string, n: nat)
    requires GroupCount(a) == Some(n)
    ensures GroupCount(a + @" (\w+) (\w+)") == Some(n + 2)
  {
    GameOverText2();
    GroupCountAppend(a, @" (\w+) (\w+)", n);
  }

  lemma GameOverText3()
    ensures GroupCount(@" score (\d+):") == Some(1)
  {
    var s := @" score (\d+):";
    assert GroupsFrom(s, 12) == Some(0);
    assert GroupsFrom(s, 11) == Some(0);
    assert GroupsFrom(s, 10) == Some(0);
    assert GroupsFrom(s, 8) == Some(0);
    assert GroupsFrom(s, 7) == Some(1);
    assert GroupsFrom(s, 6) == Some(1);
    assert GroupsFrom(s, 5) == Some(1);
    assert GroupsFrom(s, 4) == Some(1);
    assert GroupsFrom(s, 3) == Some(1);
    assert GroupsFrom(s, 2) == Some(1);
    assert GroupsFrom(s, 1) == Some(1);
  }

  lemma GameOverText3Appended(a: string, n: nat)
    requires GroupCount(a) == Some(n)
    ensures GroupCount(a + @" score (\d+):") == Some(n + 1)
  {
    GameOverText3();
    GroupCountAppend(a, @" score (\d+):", n);
  }

  lemma GameOverText4()
    ensures GroupCount(@"(\d+) after ") == Some(1)
  {
    var s := @"(\d+) after ";
    assert GroupsFrom(s, 11) == Some(0);
    assert GroupsFrom(s, 10) == Some(0);
    assert GroupsFrom(s, 9) == Some(0);
    assert GroupsFrom(s, 8) == Some(0);
    assert GroupsFrom(s, 7) == Some(0);
    assert GroupsFrom(s, 6) == Some(0);
    assert GroupsFrom(s, 5) == Some(0);
    assert GroupsFrom(s, 4) == Some(0);
    assert GroupsFrom(s, 3) == Some(0);
    assert GroupsFrom(s, 1) == Some(0);
  }

  lemma GameOverText4Appended(a: string, n: nat)
    requires GroupCount(a) == Some(n)
    ensures GroupCount(a + @"(\d+) after ") == Some(n + 1)
  {
    GameOverText4();
    GroupCountAppend(a, @"(\d+) after ", n);
  }

  lemma GameOverText5()
    ensures GroupCount(@"(\d+) min") == Some(1)
  {
    var s := @"(\d+) min";
    assert GroupsFrom(s, 8) == Some(0);
    assert GroupsFrom(s, 7) == Some(0);
    assert GroupsFrom(s, 6) == Some(0);
    assert GroupsFrom(s, 5) == Some(0);
    assert GroupsFrom(s, 4) == Some(0);
    assert GroupsFrom(s, 3) == Some(0);
    assert GroupsFrom(s, 1) == Some(0);
  }

  lemma GameOverText5Appended(a: string, n: nat)
    requires GroupCount(a) == Some(n)
    ensures GroupCount(a + @"(\d+) min") == Some(n + 1)
  {
    GameOverText5();
    GroupCountAppend(a, @"(\d+) min", n);
  }

  lemma ServerMessageGroups()
    ensures GroupCount(ServerMessagePattern) == Some(1)
  {
    ServerMessageText1();
    ServerMessageText2Appended(@"server_message: ", 0);
  }

  lemma FreezTimeStartGroups()
    ensures GroupCount(FreezTimeStartPattern) == Some(0)
  {
    FreezTimeStartText1();
  }

  lemma WorldMatchStartGroups()
    ensures GroupCount(WorldMatchStartPattern) == Some(1)
  {
    WorldMatchStartText1();
    WorldMatchStartText2Appended(@"World triggered ", 0);
    ServerMessageText2Appended(@"World triggered " + @"""Match_Start"" on ", 0);
  }

  lemma WorldRoundStartGroups()
    ensures GroupCount(WorldRoundStartPattern) == Some(0)
  {
    WorldMatchStartText1();
    WorldRoundStartText1Appended(@"World triggered ", 0);
  }

  lemma WorldRoundRestartGroups()
    ensures GroupCount(WorldRoundRestartPattern) == Some(1)
  {
    WorldMatchStartText1();
    WorldRoundRestartText1Appended(@"World triggered ", 0);
    WorldRoundRestartText2Appended(@"World triggered " + @"""Restart_Round_", 0);
  }

  lemma WorldRoundEndGroups()
    ensures GroupCount(WorldRoundEndPattern) == Some(0)
  {
    WorldMatchStartText1();
    WorldRoundEndText1Appended(@"World triggered ", 0);
  }

  lemma WorldGameCommencingGroups()
    ensures GroupCount(WorldGameCommencingPattern) == Some(0)
  {
    WorldMatchStartText1();
    WorldGameCommencingText1Appended(@"World triggered ", 0);
  }

  lemma TeamScoredGroups()
    ensures GroupCount(TeamScoredPattern) == Some(3)
  {
    TeamScoredText1();
    TeamScoredText2Appended(@"Team ""(CT|TERRORIST)""", 1);
    TeamScoredText3Appended(@"Team ""(CT|TERRORIST)""" + @" scored ""(\d+)""", 2);
    TeamScoredText4Appended(@"Team ""(CT|TERRORIST)""" + @" scored ""(\d+)""" + @" with ""(\d+)""", 3);
  }

  lemma TeamNoticeGroups()
    ensures GroupCount(TeamNoticePattern) == Some(4)
  {
    TeamScoredText1();
    TeamNoticeText1Appended(@"Team ""(CT|TERRORIST)""", 1);
    TeamNoticeText2Appended(@"Team ""(CT|TERRORIST)""" + @" triggered ""(\w+)""", 2);
    TeamNoticeText3Appended(@"Team ""(CT|TERRORIST)""" + @" triggered ""(\w+)""" + @" \(CT ""(\d+)""\)", 3);
  }

  lemma PlayerConnectedGroups(d: Dialect)
    ensures GroupCount(PlayerConnectedPattern(d)) == Some(4)
  {
    QuoteText();
    NameGroupAppended(@"""", 0, d);
    IdTextAppended(@"""" + NameGroup(d), 1);
    SteamGroupAppended(@"""" + NameGroup(d) + @"<(\d+)><", 2, d);
    PlayerConnectedText1Appended(@"""" + NameGroup(d) + @"<(\d+)><" + SteamGroup(d), 3);
    PlayerConnectedText2Appended(@"""" + NameGroup(d) + @"<(\d+)><" + SteamGroup(d) + @"><>"" connected,", 3);
  }

  lemma PlayerDisconnectedGroups(d: Dialect)
    ensures GroupCount(PlayerDisconnectedPattern(d)) == Some(5)
  {
    PlayerDisconnectedText1();
    PlayerTextGroups(d, @"TERRORIST|CT|Unassigned|");
    PlayerDisconnectedText2Appended(PlayerText(d, @"TERRORIST|CT|Unassigned|"), 4);
    PlayerDisconnectedText3Appended(PlayerText(d, @"TERRORIST|CT|Unassigned|") + @" disconnected", 4);
  }

  lemma PlayerEnteredGroups(d: Dialect)
    ensures GroupCount(PlayerEnteredPattern(d)) == Some(3)
  {
    QuoteText();
    NameGroupAppended(@"""", 0, d);
    IdTextAppended(@"""" + NameGroup(d), 1);
    SteamGroupAppended(@"""" + NameGroup(d) + @"<(\d+)><", 2, d);
    PlayerEnteredText1Appended(@"""" + NameGroup(d) + @"<(\d+)><" + SteamGroup(d), 3);
  }

  lemma PlayerBannedGroups(d: Dialect)
    ensures GroupCount(PlayerBannedPattern(d)) == Some(5)
  {
    PlayerBannedText1();
    NameGroupAppended(@"Banid: """, 0, d);
    IdTextAppended(@"Banid: """ + NameGroup(d), 1);
    SteamGroupAppended(@"Banid: """ + NameGroup(d) + @"<(\d+)><", 2, d);
    PlayerBannedText2Appended(@"Banid: """ + NameGroup(d) + @"<(\d+)><" + SteamGroup(d), 3);
    PlayerBannedText3Appended(@"Banid: """ + NameGroup(d) + @"<(\d+)><" + SteamGroup(d) + @"><\w*>"" was banned ", 3);
    PlayerBannedText4Appended(@"Banid: """ + NameGroup(d) + @"<(\d+)><" + SteamGroup(d) + @"><\w*>"" was banned " + @"""([\w. ]+)""", 4);
  }

  lemma PlayerSwitchedGroups(d: Dialect)
    ensures GroupCount(PlayerSwitchedPattern(d)) == Some(5)
  {
    QuoteText();
    NameGroupAppended(@"""", 0, d);
    IdTextAppended(@"""" + NameGroup(d), 1);
    SteamGroupAppended(@"""" + NameGroup(d) + @"<(\d+)><", 2, d);
    PlayerSwitchedText1Appended(@"""" + NameGroup(d) + @"<(\d+)><" + SteamGroup(d), 3);
    PlayerSwitchedText2Appended(@"""" + NameGroup(d) + @"<(\d+)><" + SteamGroup(d) + @">"" switched from", 3);
    SwitchSidesAppended(@"""" + NameGroup(d) + @"<(\d+)><" + SteamGroup(d) + @">"" switched from" + @" team <(", 4, d);
    PlayerSwitchedText3Appended(@"""" + NameGroup(d) + @"<(\d+)><" + SteamGroup(d) + @">"" switched from" + @" team <(" + SwitchSides(d), 4);
    SwitchSidesAppended(@"""" + NameGroup(d) + @"<(\d+)><" + SteamGroup(d) + @">"" switched from" + @" team <(" + SwitchSides(d) + @")> to <(", 5, d);
    PlayerSwitchedText4Appended(@"""" + NameGroup(d) + @"<(\d+)><" + SteamGroup(d) + @">"" switched from" + @" team <(" + SwitchSides(d) + @")> to <(" + SwitchSides(d), 5);
  }

  lemma PlayerSayGroups(d: Dialect)
    ensures GroupCount(PlayerSayPattern(d)) == Some(6)
  {
    FighterGroups(d);
    PlayerSayText1Appended(Fighter(d), 4);
  }

  lemma PlayerPurchaseGroups(d: Dialect)
    ensures GroupCount(PlayerPurchasePattern(d)) == Some(5)
  {
    FighterGroups(d);
    PlayerPurchaseText1Appended(Fighter(d), 4);
  }

  lemma PlayerKillGroups(d: Dialect)
    ensures GroupCount(PlayerKillPattern(d)) == Some(17)
  {
    FighterGroups(d);
    PlayerKillText1Appended(Fighter(d), 4);
    PositionTextAppended(Fighter(d) + @" ", 4);
    PlayerKillText2Appended(Fighter(d) + @" " + PositionText, 7);
    FighterAppended(Fighter(d) + @" " + PositionText + @" killed ", 7, d);
    PlayerKillText1Appended(Fighter(d) + @" " + PositionText + @" killed " + Fighter(d), 11);
    PositionTextAppended(Fighter(d) + @" " + PositionText + @" killed " + Fighter(d) + @" ", 11);
    PlayerKillText3Appended(Fighter(d) + @" " + PositionText + @" killed " + Fighter(d) + @" " + PositionText, 14);
    PlayerKillText4Appended(Fighter(d) + @" " + PositionText + @" killed " + Fighter(d) + @" " + PositionText + @" with ""(\w+)""", 15);
    PlayerKillText5Appended(Fighter(d) + @" " + PositionText + @" killed " + Fighter(d) + @" " + PositionText + @" with ""(\w+)""" + @" ?(\(?(headshot|", 17);
    PlayerKillText6Appended(Fighter(d) + @" " + PositionText + @" killed " + Fighter(d) + @" " + PositionText + @" with ""(\w+)""" + @" ?(\(?(headshot|" + @"penetrated|headshot", 17);
  }

  lemma PlayerKillAssistGroups(d: Dialect)
    ensures GroupCount(PlayerKillAssistPattern(d)) == Some(8)
  {
    FighterGroups(d);
    PlayerKillAssistText1Appended(Fighter(d), 4);
    FighterAppended(Fighter(d) + @" assisted killing ", 4, d);
  }

  lemma PlayerAttackGroups(d: Dialect)
    ensures GroupCount(PlayerAttackPattern(d)) == Some(20)
  {
    FighterGroups(d);
    PlayerKillText1Appended(Fighter(d), 4);
    PositionTextAppended(Fighter(d) + @" ", 4);
    PlayerAttackText1Appended(Fighter(d) + @" " + PositionText, 7);
    FighterAppended(Fighter(d) + @" " + PositionText + @" attacked ", 7, d);
    PlayerKillText1Appended(Fighter(d) + @" " + PositionText + @" attacked " + Fighter(d), 11);
    PositionTextAppended(Fighter(d) + @" " + PositionText + @" attacked " + Fighter(d) + @" ", 11);
    PlayerKillText3Appended(Fighter(d) + @" " + PositionText + @" attacked " + Fighter(d) + @" " + PositionText, 14);
    PlayerAttackText2Appended(Fighter(d) + @" " + PositionText + @" attacked " + Fighter(d) + @" " + PositionText + @" with ""(\w+)""", 15);
    PlayerAttackText3Appended(Fighter(d) + @" " + PositionText + @" attacked " + Fighter(d) + @" " + PositionText + @" with ""(\w+)""" + @" \(damage ", 15);
    PlayerAttackText4Appended(Fighter(d) + @" " + PositionText + @" attacked " + Fighter(d) + @" " + PositionText + @" with ""(\w+)""" + @" \(damage " + @"""(\d+)""\)", 16);
    PlayerAttackText3Appended(Fighter(d) + @" " + PositionText + @" attacked " + Fighter(d) + @" " + PositionText + @" with ""(\w+)""" + @" \(damage " + @"""(\d+)""\)" + @" \(damage_armor ", 16);
    PlayerAttackText5Appended(Fighter(d) + @" " + PositionText + @" attacked " + Fighter(d) + @" " + PositionText + @" with ""(\w+)""" + @" \(damage " + @"""(\d+)""\)" + @" \(damage_armor " + @"""(\d+)""\)", 17);
    PlayerAttackText3Appended(Fighter(d) + @" " + PositionText + @" attacked " + Fighter(d) + @" " + PositionText + @" with ""(\w+)""" + @" \(damage " + @"""(\d+)""\)" + @" \(damage_armor " + @"""(\d+)""\)" + @" \(health ", 17);
    PlayerAttackText6Appended(Fighter(d) + @" " + PositionText + @" attacked " + Fighter(d) + @" " + PositionText + @" with ""(\w+)""" + @" \(damage " + @"""(\d+)""\)" + @" \(damage_armor " + @"""(\d+)""\)" + @" \(health " + @"""(\d+)""\)", 18);
    PlayerAttackText3Appended(Fighter(d) + @" " + PositionText + @" attacked " + Fighter(d) + @" " + PositionText + @" with ""(\w+)""" + @" \(damage " + @"""(\d+)""\)" + @" \(damage_armor " + @"""(\d+)""\)" + @" \(health " + @"""(\d+)""\)" + @" \(armor ", 18);
    PlayerAttackText7Appended(Fighter(d) + @" " + PositionText + @" attacked " + Fighter(d) + @" " + PositionText + @" with ""(\w+)""" + @" \(damage " + @"""(\d+)""\)" + @" \(damage_armor " + @"""(\d+)""\)" + @" \(health " + @"""(\d+)""\)" + @" \(armor " + @"""(\d+)""\)", 19);
    PlayerAttackText8Appended(Fighter(d) + @" " + PositionText + @" attacked " + Fighter(d) + @" " + PositionText + @" with ""(\w+)""" + @" \(damage " + @"""(\d+)""\)" + @" \(damage_armor " + @"""(\d+)""\)" + @" \(health " + @"""(\d+)""\)" + @" \(armor " + @"""(\d+)""\)" + @" \(hitgroup ", 19);
  }

  lemma PlayerKilledBombGroups(d: Dialect)
    ensures GroupCount(PlayerKilledBombPattern(d)) == Some(7)
  {
    FighterGroups(d);
    PlayerKillText1Appended(Fighter(d), 4);
    PositionTextAppended(Fighter(d) + @" ", 4);
    PlayerKilledBombText1Appended(Fighter(d) + @" " + PositionText, 7);
    PlayerKilledBombText2Appended(Fighter(d) + @" " + PositionText + @" was killed by", 7);
  }

  lemma PlayerKilledSuicideGroups(d: Dialect)
    ensures GroupCount(PlayerKilledSuicidePattern(d)) == Some(8)
  {
    FighterGroups(d);
    PlayerKillText1Appended(Fighter(d), 4);
    PositionTextAppended(Fighter(d) + @" ", 4);
    PlayerKilledSuicideText1Appended(Fighter(d) + @" " + PositionText, 7);
    PlayerKilledSuicideText2Appended(Fighter(d) + @" " + PositionText + @" committed suicide with ", 7);
  }

  lemma PlayerPickedUpGroups(d: Dialect)
    ensures GroupCount(PlayerPickedUpPattern(d)) == Some(5)
  {
    FighterGroups(d);
    PlayerPickedUpText1Appended(Fighter(d), 4);
  }

  lemma PlayerDroppedGroups(d: Dialect)
    ensures GroupCount(PlayerDroppedPattern(d)) == Some(5)
  {
    PlayerDroppedText1();
    PlayerTextGroups(d, @"TERRORIST|CT|Unassigned");
    PlayerDroppedText2Appended(PlayerText(d, @"TERRORIST|CT|Unassigned"), 4);
  }

  lemma PlayerMoneyChangeGroups(d: Dialect)
    ensures GroupCount(PlayerMoneyChangePattern(d)) == Some(9)
  {
    FighterGroups(d);
    PlayerMoneyChangeText1Appended(Fighter(d), 4);
    PlayerMoneyChangeText2Appended(Fighter(d) + @" money change (\d+)", 5);
    PlayerMoneyChangeText3Appended(Fighter(d) + @" money change (\d+)" + @"\+?(-?\d+)", 6);
    PlayerMoneyChangeText4Appended(Fighter(d) + @" money change (\d+)" + @"\+?(-?\d+)" + @" = \$(\d+)", 7);
    PlayerMoneyChangeText5Appended(Fighter(d) + @" money change (\d+)" + @"\+?(-?\d+)" + @" = \$(\d+)" + @" \(tracked\)", 7);
    PlayerMoneyChangeText6Appended(Fighter(d) + @" money change (\d+)" + @"\+?(-?\d+)" + @" = \$(\d+)" + @" \(tracked\)" + @"( \(purchase: ", 8);
  }

  lemma PlayerBombGotGroups(d: Dialect)
    ensures GroupCount(PlayerBombGotPattern(d)) == Some(4)
  {
    FighterGroups(d);
    PlayerBombGotText1Appended(Fighter(d), 4);
    PlayerBombGotText2Appended(Fighter(d) + @" triggered ", 4);
  }

  lemma PlayerBombPlantedGroups(d: Dialect)
    ensures GroupCount(PlayerBombPlantedPattern(d)) == Some(4)
  {
    FighterGroups(d);
    PlayerBombGotText1Appended(Fighter(d), 4);
    PlayerBombPlantedText1Appended(Fighter(d) + @" triggered ", 4);
  }

  lemma PlayerBombDroppedGroups(d: Dialect)
    ensures GroupCount(PlayerBombDroppedPattern(d)) == Some(4)
  {
    FighterGroups(d);
    PlayerBombGotText1Appended(Fighter(d), 4);
    PlayerBombDroppedText1Appended(Fighter(d) + @" triggered ", 4);
  }

  lemma PlayerBombBeginDefuseGroups(d: Dialect)
    ensures GroupCount(PlayerBombBeginDefusePattern(d)) == Some(5)
  {
    FighterGroups(d);
    PlayerBombGotText1Appended(Fighter(d), 4);
    PlayerBombBeginDefuseText1Appended(Fighter(d) + @" triggered ", 4);
    PlayerBombBeginDefuseText2Appended(Fighter(d) + @" triggered " + @"""Begin_Bomb_Defuse", 4);
  }

  lemma PlayerBombDefusedGroups(d: Dialect)
    ensures GroupCount(PlayerBombDefusedPattern(d)) == Some(4)
  {
    FighterGroups(d);
    PlayerBombGotText1Appended(Fighter(d), 4);
    PlayerBombDefusedText1Appended(Fighter(d) + @" triggered ", 4);
  }

  lemma PlayerThrewGroups(d: Dialect)
    ensures GroupCount(PlayerThrewPattern(d)) == Some(10)
  {
    FighterGroups(d);
    PlayerThrewText1Appended(Fighter(d), 4);
    PositionTextAppended(Fighter(d) + @" threw (\w+) ", 5);
    PlayerThrewText2Appended(Fighter(d) + @" threw (\w+) " + PositionText, 8);
    PlayerThrewText3Appended(Fighter(d) + @" threw (\w+) " + PositionText + @"( flashbang entindex", 9);
  }

  lemma PlayerBlindedGroups(d: Dialect)
    ensures GroupCount(PlayerBlindedPattern(d)) == Some(10)
  {
    FighterGroups(d);
    PlayerBlindedText1Appended(Fighter(d), 4);
    PlayerBlindedText2Appended(Fighter(d) + @" blinded for ", 4);
    FighterAppended(Fighter(d) + @" blinded for " + @"([\d.]+) by ", 5, d);
    PlayerBlindedText3Appended(Fighter(d) + @" blinded for " + @"([\d.]+) by " + Fighter(d), 9);
    PlayerBlindedText4Appended(Fighter(d) + @" blinded for " + @"([\d.]+) by " + Fighter(d) + @" from flashbang", 9);
  }

  lemma ProjectileSpawnedGroups()
    ensures GroupCount(ProjectileSpawnedPattern) == Some(6)
  {
    ProjectileSpawnedText1();
    ProjectileSpawnedText2Appended(@"Molotov projectile", 0);
    ProjectileSpawnedText3Appended(@"Molotov projectile" + @" spawned at ", 0);
    ProjectileSpawnedText4Appended(@"Molotov projectile" + @" spawned at " + @"(-?\d+\.\d+)", 1);
    ProjectileSpawnedText5Appended(@"Molotov projectile" + @" spawned at " + @"(-?\d+\.\d+)" + @" (-?\d+\.\d+)", 2);
    ProjectileSpawnedText6Appended(@"Molotov projectile" + @" spawned at " + @"(-?\d+\.\d+)" + @" (-?\d+\.\d+)" + @" (-?\d+\.\d+),", 3);
    ProjectileSpawnedText3Appended(@"Molotov projectile" + @" spawned at " + @"(-?\d+\.\d+)" + @" (-?\d+\.\d+)" + @" (-?\d+\.\d+)," + @" velocity ", 3);
    ProjectileSpawnedText4Appended(@"Molotov projectile" + @" spawned at " + @"(-?\d+\.\d+)" + @" (-?\d+\.\d+)" + @" (-?\d+\.\d+)," + @" velocity " + @"(-?\d+\.\d+)", 4);
    ProjectileSpawnedText4Appended(@"Molotov projectile" + @" spawned at " + @"(-?\d+\.\d+)" + @" (-?\d+\.\d+)" + @" (-?\d+\.\d+)," + @" velocity " + @"(-?\d+\.\d+)" + @" (-?\d+\.\d+)", 5);
  }

  lemma GameOverGroups()
    ensures GroupCount(GameOverPattern) == Some(6)
  {
    GameOverText1();
    GameOverText2Appended(@"Game Over: (\w+)", 1);
    GameOverText3Appended(@"Game Over: (\w+)" + @" (\w+) (\w+)", 3);
    GameOverText4Appended(@"Game Over: (\w+)" + @" (\w+) (\w+)" + @" score (\d+):", 4);
    GameOverText5Appended(@"Game Over: (\w+)" + @" (\w+) (\w+)" + @" score (\d+):" + @"(\d+) after ", 5);
  }

  /** Every catalog pattern opens one group fewer than the captures its
      kind's builder reads, or none when the builder reads none: with the
      whole match in front, Go's engine hands each builder exactly the
      captures it reads. */
  lemma PatternGroupCount(d: Dialect, k: K.Kind)
    requires k != K.Unknown
    ensures GroupCount(PatternText(d, k))
            == Some(if K.CapturesNeeded(k) == 0 then 0 else K.CapturesNeeded(k) - 1)
  {
    if CatalogIndex(k) < 11 {
      WorldTeamGroupCount(d, k);
    } else if CatalogIndex(k) < 22 {
      PresenceGroupCount(d, k);
    } else {
      ActionGroupCount(d, k);
    }
  }

  /** `PatternGroupCount` on the server, world and team lines and the first connection lines. */
  lemma WorldTeamGroupCount(d: Dialect, k: K.Kind)
    requires k != K.Unknown && CatalogIndex(k) < 11
    ensures GroupCount(PatternText(d, k))
            == Some(if K.CapturesNeeded(k) == 0 then 0 else K.CapturesNeeded(k) - 1)
  {
    match k
    case ServerMessage => ServerMessageGroups();
    case FreezTimeStart => FreezTimeStartGroups();
    case WorldMatchStart => WorldMatchStartGroups();
    case WorldRoundStart => WorldRoundStartGroups();
    case WorldRoundRestart => WorldRoundRestartGroups();
    case WorldRoundEnd => WorldRoundEndGroups();
    case WorldGameCommencing => WorldGameCommencingGroups();
    case TeamScored => TeamScoredGroups();
    case TeamNotice => TeamNoticeGroups();
    case PlayerConnected => PlayerConnectedGroups(d);
    case PlayerDisconnected => PlayerDisconnectedGroups(d);
  }

  /** `PatternGroupCount` on the player lines from entering the game to picking up. */
  lemma PresenceGroupCount(d: Dialect, k: K.Kind)
    requires k != K.Unknown && 11 <= CatalogIndex(k) < 22
    ensures GroupCount(PatternText(d, k))
            == Some(if K.CapturesNeeded(k) == 0 then 0 else K.CapturesNeeded(k) - 1)
  {
    match k
    case PlayerEntered => PlayerEnteredGroups(d);
    case PlayerBanned => PlayerBannedGroups(d);
    case PlayerSwitched => PlayerSwitchedGroups(d);
    case PlayerSay => PlayerSayGroups(d);
    case PlayerPurchase => PlayerPurchaseGroups(d);
    case PlayerKill => PlayerKillGroups(d);
    case PlayerKillAssist => PlayerKillAssistGroups(d);
    case PlayerAttack => PlayerAttackGroups(d);
    case PlayerKilledBomb => PlayerKilledBombGroups(d);
    case PlayerKilledSuicide => PlayerKilledSuicideGroups(d);
    case PlayerPickedUp => PlayerPickedUpGroups(d);
  }

  /** `PatternGroupCount` on the remaining player lines, projectiles and the game end. */
  lemma ActionGroupCount(d: Dialect, k: K.Kind)
    requires k != K.Unknown && 22 <= CatalogIndex(k)
    ensures GroupCount(PatternText(d, k))
            == Some(if K.CapturesNeeded(k) == 0 then 0 else K.CapturesNeeded(k) - 1)
  {
    match k
    case PlayerDropped => PlayerDroppedGroups(d);
    case PlayerMoneyChange => PlayerMoneyChangeGroups(d);
    case PlayerBombGot => PlayerBombGotGroups(d);
    case PlayerBombPlanted => PlayerBombPlantedGroups(d);
    case PlayerBombDropped => PlayerBombDroppedGroups(d);
    case PlayerBombBeginDefuse => PlayerBombBeginDefuseGroups(d);
    case PlayerBombDefused => PlayerBombDefusedGroups(d);
    case PlayerThrew => PlayerThrewGroups(d);
    case PlayerBlinded => PlayerBlindedGroups(d);
    case ProjectileSpawned => ProjectileSpawnedGroups();
    case GameOver => GameOverGroups();
  }
}
