# csgo-log parser model

A Dafny model of the log-line parser of `csgo-log`, a Go library that turns
the lines a Counter-Strike (CS:GO and CS2) dedicated server writes to its log
into typed messages. The library has two copies of the same parser: the CS2
one in `cs2/cs2log.go` (`Parse`, `ParseWithPatterns`, `DefaultPatterns`,
`New*`) and the CS:GO one in `csgolog.go` (`Parse`, and the unexported
`patterns` and `new*`; it compiles the log line pattern inline and has no
`ParseWithPatterns`). The two behave alike except for the texts of
their regular expressions, which the model keeps as data of two dialects;
`Dispatch.ParseWithPatterns` with a default catalog stands for either
`Parse`.

Parsing a line goes through four steps, each a module here:

- `LogLine`: the log line pattern `L MM/DD/YYYY - HH:MM:SS: <body>` is found
  at its leftmost position; the body stops at the first newline. No match is
  the error `ErrorNoMatch` ("no match").
- `Clock`: the timestamp goes through `time.Parse` with the layout
  `01/02/2006 - 15:04:05`. A field out of range is the error
  `parsing time "<stamp>": <field> out of range`. Month, hour, minute and
  second are checked in that order, and the day last, against its month
  and year.
- `Dispatch` with `Patterns`: the catalog's patterns are tried on the body.
  The first that matches has its builder applied to its captures. When none
  matches, the result is an `Unknown` message that carries the body.
- `Builders` with `Coercion`: each builder reads its captures by position.
  Numeric captures go through `toInt` (`strconv.Atoi`, 0 on any error). The
  kill flags are substring tests. Each builder stamps its message with its
  type name (`Kinds.Name`) and the time.

`Messages` holds the 34 message shapes, with `GetType` and `GetTime`. `Base`
holds `Option` and `Result`. `Text` holds digit strings and
`strings.Contains`.

The regular expression engine is a parameter of the parser
(`Dispatch.Engine`). The model states what the parser does with any engine
that returns enough captures for each pattern's builder (`Dispatch.Fits`).
The default catalogs meet that condition under any engine that reports,
for a match of a default pattern, the whole match plus one capture per
group (`Dispatch.ReportsGroups`, `Dispatch.DefaultCatalogFits`), which is
what Go's `FindStringSubmatch` returns. `PatternGroups` counts the groups of
every default pattern text; the scanner it uses (`Patterns.GroupCount`)
agrees with RE2 on those texts but not on every regular expression.
Go's catalog is a map, so its iteration order is unspecified. The model
therefore tries a sequence in order, and proves both directions:
`Dispatch.OrderIrrelevant` shows the order is irrelevant when at most one
pattern matches, and `Dispatch.OrderMatters` shows it decides the result
when two patterns of different kinds match.

## Model

A builder `Builders.New<Kind>` only computes, so its row names the lemma
`Builders.RoundTrip<Kind>` about it: building from the capture list
`Builders.Unbuild` gives for a message yields that message back.
`Unbuild` lays the message's fields out where its pattern's groups sit; that
its length is one more than the pattern's group count is proved
(`Dispatch.UnbuildMatchesGroups`), but that the pattern matches a line
printing those fields is not, since the engine is a parameter. The builder keeps
its own row where its contract says more than the message's shape, type and
time.

| member | source | states |
|---|---|---|
| LogLine.SplitLine | cs2/cs2log.go:24 | no capture exactly when no index of the line starts `L `, a timestamp-shaped text and `: `; otherwise the capture is the leftmost such match, whose body runs to the first newline or the end |
| LogLine.SplitPrefixed | csgolog.go:450 | a line written as `L <stamp>: <body>`, optionally followed by a newline and more text, splits back into exactly that stamp and body |
| Clock.ParseStamp | cs2/cs2log.go:463-468 | success exactly on timestamp-shaped text naming a valid instant, which it returns; a shaped text that fails reports an out-of-range field and carries the parsed text |
| Clock.ParseFormatStamp | cs2/cs2log.go:463 | parsing the server's rendering of any valid instant gives that instant back |
| Clock.FormatParseStamp | cs2/cs2log.go:463 | a text that parses is exactly the rendering of its instant, so no instant has two accepted spellings |
| Coercion.AtoiMeaning | cs2/cs2log.go:949 | Atoi accepts exactly an optional sign followed by one or more digits whose value fits in 64 bits, and returns that value |
| Coercion.ToIntMeaning | cs2/cs2log.go:947-956 | toInt is the text's value when Atoi accepts it and 0 otherwise; the result is always a 64-bit integer |
| Coercion.ToIntFormatInt | csgolog.go:942-951 | toInt inverts decimal rendering on the whole 64-bit range |
| Coercion.ToIntOfDigits | cs2/cs2log.go:947-956 | a `\d+` capture, and its negation, coerce to their value when it fits |
| Coercion.FormatIntMeaning | cs2/cs2log.go:947-956 | the decimal rendering of an int, which Go's code does not contain and which serves `ToIntFormatInt`, is integer text that denotes it |
| Coercion.ToIntExamples | cs2/cs2log_test.go:1056-1065 | `toInt("1337")` is 1337 and `toInt("hello")` is 0; the empty text and a lone sign give 0, and `+42` gives 42 |
| Text.Contains | cs2/cs2log.go:673-674 | true exactly when some index of the text starts an occurrence of the substring |
| Text.NatToDecimalMeaning | cs2/cs2log.go:947-956 | the rendering of a natural number, a proof-side renderer with no Go counterpart that serves `ToIntFormatInt`, is a non-empty digit string with no leading zero that denotes it |
| Kinds.NameRoundTrip | cs2/cs2log.go:328-330 | reading a kind back from its type string gives the same kind |
| Kinds.NameInjective | cs2/cs2log.go:328-330 | no two kinds share a type string |
| Messages.TypeDeterminesKind | csgolog.go:329-331 | on messages stamped by their own builder, equal type strings mean equal shapes and the reverse |
| Builders.RoundTripServerMessage | cs2/cs2log.go:498-503 | any ServerMessage is rebuilt field by field from the capture list `Unbuild` gives it |
| Builders.RoundTripFreezTimeStart | cs2/cs2log.go:505-507 | any FreezTimeStart is rebuilt field by field from the capture list `Unbuild` gives it |
| Builders.RoundTripWorldMatchStart | cs2/cs2log.go:509-514 | any WorldMatchStart is rebuilt field by field from the capture list `Unbuild` gives it |
| Builders.RoundTripWorldRoundStart | cs2/cs2log.go:516-518 | any WorldRoundStart is rebuilt field by field from the capture list `Unbuild` gives it |
| Builders.RoundTripWorldRoundRestart | cs2/cs2log.go:520-525 | any WorldRoundRestart whose integers fit in 64 bits is rebuilt field by field from the capture list `Unbuild` gives it |
| Builders.RoundTripWorldRoundEnd | cs2/cs2log.go:527-529 | any WorldRoundEnd is rebuilt field by field from the capture list `Unbuild` gives it |
| Builders.RoundTripWorldGameCommencing | cs2/cs2log.go:531-533 | any WorldGameCommencing is rebuilt field by field from the capture list `Unbuild` gives it |
| Builders.RoundTripTeamScored | cs2/cs2log.go:535-542 | any TeamScored whose integers fit in 64 bits is rebuilt field by field from the capture list `Unbuild` gives it |
| Builders.RoundTripTeamNotice | cs2/cs2log.go:544-552 | any TeamNotice whose integers fit in 64 bits is rebuilt field by field from the capture list `Unbuild` gives it |
| Builders.NewPlayerConnected | cs2/cs2log.go:554-565 | a PlayerConnected whose player has no side, since the line carries none |
| Builders.RoundTripPlayerConnected | cs2/cs2log.go:554-565 | any PlayerConnected whose player has no side and whose integers fit in 64 bits is rebuilt field by field from the capture list `Unbuild` gives it |
| Builders.RoundTripPlayerDisconnected | cs2/cs2log.go:567-578 | any PlayerDisconnected whose integers fit in 64 bits is rebuilt field by field from the capture list `Unbuild` gives it |
| Builders.NewPlayerEntered | cs2/cs2log.go:580-590 | a PlayerEntered whose player has no side |
| Builders.RoundTripPlayerEntered | cs2/cs2log.go:580-590 | any PlayerEntered whose player has no side and whose integers fit in 64 bits is rebuilt field by field from the capture list `Unbuild` gives it |
| Builders.NewPlayerBanned | cs2/cs2log.go:592-604 | a PlayerBanned whose player has no side |
| Builders.RoundTripPlayerBanned | cs2/cs2log.go:592-604 | any PlayerBanned whose player has no side and whose integers fit in 64 bits is rebuilt field by field from the capture list `Unbuild` gives it |
| Builders.NewPlayerSwitched | cs2/cs2log.go:606-618 | a PlayerSwitched whose player has no side (the sides are the from and to fields) |
| Builders.RoundTripPlayerSwitched | cs2/cs2log.go:606-618 | any PlayerSwitched whose player has no side and whose integers fit in 64 bits is rebuilt field by field from the capture list `Unbuild` gives it |
| Builders.NewPlayerSay | cs2/cs2log.go:620-632 | a PlayerSay that is a team message exactly when the optional group captured `_team` |
| Builders.RoundTripPlayerSay | cs2/cs2log.go:620-632 | any PlayerSay whose integers fit in 64 bits is rebuilt field by field from the capture list `Unbuild` gives it |
| Builders.RoundTripPlayerPurchase | cs2/cs2log.go:634-645 | any PlayerPurchase whose integers fit in 64 bits is rebuilt field by field from the capture list `Unbuild` gives it |
| Builders.NewPlayerKill | cs2/cs2log.go:647-676 | a PlayerKill whose headshot and penetrated flags hold exactly when the flags capture contains `headshot` and `penetrated` |
| Builders.RoundTripPlayerKill | cs2/cs2log.go:647-676 | any PlayerKill whose integers fit in 64 bits is rebuilt field by field from the capture list `Unbuild` gives it |
| Builders.RoundTripPlayerKillAssist | cs2/cs2log.go:678-694 | any PlayerKillAssist whose integers fit in 64 bits is rebuilt field by field from the capture list `Unbuild` gives it |
| Builders.RoundTripPlayerAttack | cs2/cs2log.go:696-728 | any PlayerAttack whose integers fit in 64 bits is rebuilt field by field from the capture list `Unbuild` gives it |
| Builders.RoundTripPlayerKilledBomb | cs2/cs2log.go:730-745 | any PlayerKilledBomb whose integers fit in 64 bits is rebuilt field by field from the capture list `Unbuild` gives it |
| Builders.RoundTripPlayerKilledSuicide | cs2/cs2log.go:747-763 | any PlayerKilledSuicide whose integers fit in 64 bits is rebuilt field by field from the capture list `Unbuild` gives it |
| Builders.RoundTripPlayerPickedUp | cs2/cs2log.go:765-776 | any PlayerPickedUp whose integers fit in 64 bits is rebuilt field by field from the capture list `Unbuild` gives it |
| Builders.RoundTripPlayerDropped | cs2/cs2log.go:778-789 | any PlayerDropped whose integers fit in 64 bits is rebuilt field by field from the capture list `Unbuild` gives it |
| Builders.RoundTripPlayerMoneyChange | cs2/cs2log.go:791-807 | any PlayerMoneyChange whose integers fit in 64 bits is rebuilt field by field from the capture list `Unbuild` gives it |
| Builders.RoundTripPlayerBombGot | cs2/cs2log.go:809-819 | any PlayerBombGot whose integers fit in 64 bits is rebuilt field by field from the capture list `Unbuild` gives it |
| Builders.RoundTripPlayerBombPlanted | cs2/cs2log.go:821-831 | any PlayerBombPlanted whose integers fit in 64 bits is rebuilt field by field from the capture list `Unbuild` gives it |
| Builders.RoundTripPlayerBombDropped | cs2/cs2log.go:833-843 | any PlayerBombDropped whose integers fit in 64 bits is rebuilt field by field from the capture list `Unbuild` gives it |
| Builders.NewPlayerBombBeginDefuse | cs2/cs2log.go:845-856 | a PlayerBombBeginDefuse without a kit exactly when the optional group captured `out` |
| Builders.RoundTripPlayerBombBeginDefuse | cs2/cs2log.go:845-856 | any PlayerBombBeginDefuse whose integers fit in 64 bits is rebuilt field by field from the capture list `Unbuild` gives it |
| Builders.RoundTripPlayerBombDefused | cs2/cs2log.go:858-868 | any PlayerBombDefused whose integers fit in 64 bits is rebuilt field by field from the capture list `Unbuild` gives it |
| Builders.RoundTripPlayerThrew | cs2/cs2log.go:870-887 | any PlayerThrew whose integers fit in 64 bits is rebuilt field by field from the capture list `Unbuild` gives it |
| Builders.RoundTripPlayerBlinded | cs2/cs2log.go:889-907 | any PlayerBlinded whose integers fit in 64 bits is rebuilt field by field from the capture list `Unbuild` gives it |
| Builders.RoundTripProjectileSpawned | cs2/cs2log.go:909-923 | any ProjectileSpawned is rebuilt field by field from the capture list `Unbuild` gives it |
| Builders.RoundTripGameOver | cs2/cs2log.go:925-935 | any GameOver whose integers fit in 64 bits is rebuilt field by field from the capture list `Unbuild` gives it |
| Builders.RoundTripUnknown | cs2/cs2log.go:937-942 | any Unknown message is rebuilt from a capture list whose second entry is its raw text, the place where the parser puts the body |
| Builders.Build | cs2/cs2log.go:408-442 | the builder bound to a kind yields a message of that kind's shape, stamped with that kind's type and the given time |
| Builders.KillFlagsReadBack | csgolog.go:668-669 | the two substring tests recover both kill flags from each form of the flags group, and both are false when the group is absent |
| Builders.Unbuild | cs2/cs2log.go:339-406 | the capture list for a message holds an empty entry 0 in place of the whole match and one entry per group of its pattern, as many as its builder reads |
| Builders.BuildUnbuild | cs2/cs2log.go:498-942 | the builders lose nothing: building from the capture list `Unbuild` gives any message with 64-bit fields yields that message back, field by field |
| Builders.BuildCanonical | cs2/cs2log.go:498-942 | every message a builder produces is canonical: its integers come from `toInt` and fit in 64 bits, and the sideless kinds carry no side |
| Builders.BuildGetters | cs2/cs2log.go:328-335 | `GetTime` returns the time the builder was given, and `GetType` the type string of its kind, which names that kind back |
| Patterns.CatalogKind | cs2/cs2log.go:408-442 | each catalog position holds a non-fallback kind, and that kind sits at exactly that position |
| Patterns.EarlyKind | cs2/cs2log.go:409-424 | the first sixteen catalog positions hold non-fallback kinds, each at its own position |
| Patterns.LateKind | cs2/cs2log.go:425-441 | the remaining positions hold non-fallback kinds, each at its own position |
| Patterns.CatalogEntry | csgolog.go:410-442 | each entry binds its position's kind to that kind's pattern in the dialect |
| Patterns.DefaultPatterns | csgolog.go:409-443 | the default catalog has 33 entries, each pairing a kind with its dialect's pattern |
| Patterns.DefaultPatternsCoverKinds | cs2/cs2log.go:408-442 | every kind except the fallback has an entry, and no kind has two |
| Patterns.GroupCountExamples | cs2/cs2log.go:339-406 | the group scanner treats an escaped parenthesis as literal, opens no group at `(?` and rejects a trailing backslash |
| Patterns.GroupCountAppend | cs2/cs2log.go:339-406 | the groups of two joined pattern pieces add up, so long patterns are counted piece by piece |
| PatternGroups.PatternGroupCount | cs2/cs2log.go:339-406 | every default pattern of either dialect opens exactly one group fewer than the captures its kind's builder reads (none for builders that read none) |
| PatternGroups.WorldTeamGroupCount | csgolog.go:342-362 | the group count of the server, world, team and connection patterns |
| PatternGroups.PresenceGroupCount | csgolog.go:364-384 | the group count of the patterns from entering the game to picking up |
| PatternGroups.ActionGroupCount | csgolog.go:386-406 | the group count of the remaining patterns |
| Dispatch.UnbuildMatchesGroups | cs2/cs2log.go:339-406 | the capture list `Unbuild` gives a message has one entry more than its pattern has groups, the length Go's engine reports for a match of that pattern |
| Dispatch.DefaultCatalogFits | cs2/cs2log.go:408-442 | under any engine that reports one capture per group plus the whole match, each default catalog hands every builder the captures it reads |
| Dispatch.FieldNamesDistinct | cs2/cs2log.go:463 | the field names `time.Parse` reports are distinct, so a time error names its field unambiguously |
| Dispatch.ErrorText | cs2/cs2log.go:21 | the text of `ErrorNoMatch` is "no match" and no time error has that text; a time error's text starts by quoting the timestamp it could not parse |
| Dispatch.FirstHit | cs2/cs2log.go:471-474 | the result is the first entry whose pattern matches, and none exists when no entry matches |
| Dispatch.Dispatch | cs2/cs2log.go:471-479 | the message has the time and its own type; without a match it is Unknown carrying the body, otherwise it has the first matching entry's kind |
| Dispatch.ParseWithPatterns | cs2/cs2log.go:453-480 | `ErrorNoMatch` exactly when the line has no log prefix; a time error only for a timestamp that fails to parse, carrying its text and field; a message is the dispatch of the line's body at its timestamp's valid time |
| Dispatch.Parse | cs2/cs2log.go:446-448 | an error exactly when the line has no log prefix or its timestamp does not parse; otherwise the dispatch of the body over the dialect's default catalog at the timestamp's time |
| Dispatch.NoPrefixNoMatch | csgolog.go:453-455 | a line without the prefix gives `ErrorNoMatch`, whose text is "no match" |
| Dispatch.BadStampReported | csgolog.go:458-463 | a well-formed prefix with an impossible time gives the time error of that stamp, whatever the body |
| Dispatch.DayFiftyStamp | cs2/cs2log_test.go:1026-1033 | day 50 of November 2018 fails on the day field |
| Dispatch.DayOutOfRangeExample | cs2/cs2log_test.go:1023-1035 | the day-50 line fails with `parsing time "11/50/2018 - 15:44:36": day out of range` |
| Dispatch.DayFiftyText | cs2/cs2log_test.go:1033 | the error text of the day-50 stamp |
| Dispatch.NoHitUnknown | csgolog.go:472-474 | a valid line that no pattern matches gives `Unknown` with the body and the stamp's time |
| Dispatch.HitBuilds | csgolog.go:466-470 | a valid line whose first matching entry is `i` gives that entry's builder applied to its captures |
| Dispatch.FirstHitIs | cs2/cs2log.go:471-474 | the first hit is the matching entry that every earlier entry misses |
| Dispatch.OrderIrrelevant | cs2/cs2log.go:471 | two catalogs with the same entries give the same message when at most one distinct entry matches |
| Dispatch.OrderMatters | cs2/cs2log.go:471 | when two entries both match, the kind of the result is that of whichever is tried first |
| Dispatch.UnknownIffNoHit | cs2/cs2log.go:471-479 | in a catalog that binds no pattern to the fallback, a message is Unknown exactly when no entry matches the body |
| Dispatch.DefaultUnknownIffNoHit | cs2/cs2log.go:476-479 | with a default catalog, a parsed message is Unknown exactly when no default pattern matches its body |

## Left out

- The regular expression engine: the pattern texts are kept verbatim, but how they match is a parameter (`Dispatch.Engine`). Proving that a given line matches a given pattern would need a model of Go's RE2 semantics.
- A consequence of this: the patterns are not anchored, so a chat line whose text itself holds a whole player token and a purchase, such as the say text `"a<1><x><CT>" purchased "awp"`, matches both the say and the purchase pattern, in both dialects, and its result depends on map order. `Dispatch.OrderMatters` states the general fact; the concrete overlap is not proved.
- Custom catalogs: `ParseWithPatterns` accepts any `MessageFunc`. Here an entry binds a pattern to one of the library's own builders, named by its kind.
- `time.Time`: an instant is kept as its six calendar fields in UTC. Time zones, monotonic readings and `Time.String` are not modelled.
- Clock.ParseStamp: the `LayoutMismatch` error cannot reach the parser, because the log line pattern only captures timestamp-shaped text; it is kept for the function's own totality.
- `toFloat32` (`strconv.ParseFloat` to float32): floating point is out of scope. `PlayerBlinded.For` and the `ProjectileSpawned` vectors are kept as the captured decimal text.
- `ToJSON` and the JSON field tags: encoding is out of scope.
- Messages.Meta: stores the kind instead of the type string. `GetType` spells it with `Kinds.Name`, a bijection (`Kinds.NameRoundTrip`).
- Go's `int` is taken to be 64 bits wide. Atoi's range error on larger values gives 0.
- Builders.Unbuild: the whole-match capture 0 is left empty, since no builder reads it.
- Builders.Unbuild: the capture list is built from the message, not read off a matched line, and `Canonical` admits messages no server line produces (negative counts where the pattern has `\d+`, names outside `\w+` in the CS:GO dialect, a `TeamScored` side other than `CT` or `TERRORIST`). The round trips are therefore about the builders' reading of positions, not about the regular expressions.
- Builders.BuildUnbuild: it needs `Canonical` messages, meaning every integer fits in 64 bits and the sideless kinds have an empty side. The builders produce nothing else (`Builders.BuildCanonical`), so the canonical messages are exactly their range.
- Dispatch.DefaultCatalogFits: Go's engine is taken to report, on a match of a default pattern, one capture per group plus the whole match (`Dispatch.ReportsGroups`), as `FindStringSubmatch` documents; the engine itself is a parameter. `Patterns.GroupCount` does not model RE2's count for a parenthesis inside a character class or a named group `(?P<name>…)`, since no default pattern has either.
- Dispatch.ParseWithPatterns: the captures are assumed to be as many as the builder reads (`Dispatch.Fits`). Go's engine guarantees this for the default catalogs, where each pattern has exactly as many groups as its builder's highest index. With a custom catalog, Go would panic on an index out of range, and that is not modelled.
- Go strings are byte strings; here a `string` is a sequence of characters, as if every line were valid UTF-8 text. Matching is the engine parameter's, and `Atoi` and `strings.Contains` answer the same on valid text whether it is read as bytes or as characters.
- `example/main.go`: a command-line reader of log files, which is I/O around `Parse`.
