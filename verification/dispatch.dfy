/** `ParseWithPatterns` and `Parse` (cs2/cs2log.go) and `Parse` (csgolog.go):
    split the line into timestamp and body, parse the timestamp, try the
    catalog's patterns on the body and build the message of the first that
    matches, or an `Unknown` message when none does.

    Go keeps the catalog in a map and tries its entries in the map's
    iteration order, which Go leaves unspecified. Here the catalog is a
    sequence tried front to back; `OrderIrrelevant` shows that any order gives
    the same result as long as at most one pattern matches a body, and
    `OrderMatters` that the order decides otherwise. */
module Dispatch {
  import opened Base
  import opened Text
  import opened Clock
  import opened LogLine
  import opened Messages
  import opened Builders
  import opened Patterns
  import opened PatternGroups
  import K = Kinds

  /** The regular expression engine: `engine(pattern, text)` is Go's
      `regexp.MustCompile(pattern).FindStringSubmatch(text)`, `None` standing
      for nil. */
  type Engine = (string, string) -> Option<seq<string>>

  /** The engine returns, for every pattern of the catalog, at least as many
      captures as the pattern's builder reads. `DefaultCatalogFits` shows the
      default catalogs meet it under any engine that `ReportsGroups`, as Go's
      does on those patterns. */
  ghost predicate Fits(engine: Engine, catalog: seq<Entry>) {
    forall i, body :: 0 <= i < |catalog| && engine(catalog[i].pattern, body).Some? ==>
      |engine(catalog[i].pattern, body).value| >= K.CapturesNeeded(catalog[i].kind)
  }

  /** What `FindStringSubmatch` promises of a match of a default pattern of
      the dialect: the whole match and then one capture per group, so one
      more than the pattern's `GroupCount`, which is RE2's count on these
      texts. */
  ghost predicate ReportsGroups(d: Dialect, engine: Engine) {
    forall k: K.Kind, body :: k != K.Unknown && engine(PatternText(d, k), body).Some? ==>
      && GroupCount(PatternText(d, k)).Some?
      && |engine(PatternText(d, k), body).value| == GroupCount(PatternText(d, k)).value + 1
  }

  /** Under such an engine a default catalog fits: a match of any default
      pattern yields every capture the entry's builder reads. */
  lemma DefaultCatalogFits(d: Dialect, engine: Engine)
    requires ReportsGroups(d, engine)
    ensures Fits(engine, DefaultPatterns(d))
  {
    var c := DefaultPatterns(d);
    forall i, body | 0 <= i < |c| && engine(c[i].pattern, body).Some?
      ensures |engine(c[i].pattern, body).value| >= K.CapturesNeeded(c[i].kind)
    {
      assert c[i] == CatalogEntry(d, i);
      PatternGroupCount(d, c[i].kind);
    }
  }

  /** `Unbuild` lays out exactly as many captures as Go's engine reports for
      the message's pattern in either dialect: one more than its groups. */
  lemma UnbuildMatchesGroups(d: Dialect, m: Message)
    ensures KindOf(m) != K.Unknown ==>
      GroupCount(PatternText(d, KindOf(m))) == Some(|Unbuild(m)| - 1)
  {
    if KindOf(m) != K.Unknown {
      PatternGroupCount(d, KindOf(m));
    }
  }

  /** The entry's pattern matches somewhere in the body. */
  predicate Hits(engine: Engine, e: Entry, body: string) {
    engine(e.pattern, body).Some?
  }

  /** The first entry at or after `from` whose pattern matches the body. */
  function FirstHit(engine: Engine, catalog: seq<Entry>, body: string, from: nat): (r: Option<nat>)
    requires from <= |catalog|
    ensures r.Some? ==> from <= r.value < |catalog| && Hits(engine, catalog[r.value], body)
    ensures r.Some? ==> forall j :: from <= j < r.value ==> !Hits(engine, catalog[j], body)
    ensures r.None? ==> forall j :: from <= j < |catalog| ==> !Hits(engine, catalog[j], body)
    decreases |catalog| - from
  {
    if from == |catalog| then None
    else if Hits(engine, catalog[from], body) then Some(from)
    else FirstHit(engine, catalog, body, from + 1)
  }

  /** The errors `Parse` returns. */
  datatype ParseError =
    | ErrorNoMatch
      /** The `*time.ParseError` of an out-of-range timestamp field. */
    | TimeOutOfRange(value: string, field: TimeField)

  /** The name `time.Parse` gives a layout element in its out-of-range
      message. */
  function FieldName(f: TimeField): string {
    match f
    case Month => "month"
    case Day => "day"
    case Hour => "hour"
    case Minute => "minute"
    case Second => "second"
  }

  /** Distinct fields have distinct names, so a time error's text tells
      which field was out of range. */
  lemma FieldNamesDistinct(f: TimeField, g: TimeField)
    ensures FieldName(f) == FieldName(g) <==> f == g
  {
  }

  /** `err.Error()`. The two kinds of error never share a text, and a time
      error names the timestamp text it could not parse. */
  function ErrorText(e: ParseError): (r: string)
    ensures r == "no match" <==> e.ErrorNoMatch?
    ensures e.TimeOutOfRange? ==> "parsing time \"" + e.value + "\": " <= r
  {
    match e
    case ErrorNoMatch => "no match"
    case TimeOutOfRange(value, field) =>
      "parsing time \"" + value + "\": " + FieldName(field) + " out of range"
  }

  /** The message built for a body with a valid timestamp: the first matching
      entry's builder on that entry's captures, or `Unknown` carrying the
      body. `NewUnknown` receives the log line's captures without the whole
      match, `[timestamp, body]`. */
  function Dispatch(engine: Engine, catalog: seq<Entry>, t: DateTime, c: Capture): (m: Message)
    requires Fits(engine, catalog)
    ensures Stamped(m) && GetTime(m) == t
    ensures FirstHit(engine, catalog, c.body, 0).None? ==> m.Unknown? && m.raw == c.body
    ensures FirstHit(engine, catalog, c.body, 0).Some? ==>
      KindOf(m) == catalog[FirstHit(engine, catalog, c.body, 0).value].kind
  {
    match FirstHit(engine, catalog, c.body, 0)
    case Some(i) => Build(catalog[i].kind, t, engine(catalog[i].pattern, c.body).value)
    case None => NewUnknown(t, [c.stamp, c.body])
  }

  /** `ParseWithPatterns(line, patterns)`: `Failure` stands for a nil message
      with a non-nil error, `Success` for a message with a nil error. */
  function ParseWithPatterns(line: string, catalog: seq<Entry>, engine: Engine)
    : (r: Result<Message, ParseError>)
    requires Fits(engine, catalog)
    ensures r == Failure(ErrorNoMatch) <==> !HasLogPrefix(line)
    ensures r.Failure? && r.error.TimeOutOfRange? ==>
      && SplitLine(line).Some?
      && ParseStamp(SplitLine(line).value.stamp)
         == Failure(OutOfRange(r.error.value, r.error.field))
    ensures r.Success? ==> Stamped(r.value) && ValidDateTime(GetTime(r.value))
    ensures r.Success? ==>
      && SplitLine(line).Some?
      && r.value == Dispatch(engine, catalog, StampFields(SplitLine(line).value.stamp),
                             SplitLine(line).value)
  {
    match SplitLine(line)
    case None => Failure(ErrorNoMatch)
    case Some(c) =>
      match ParseStamp(c.stamp)
      case Failure(e) => Failure(TimeOutOfRange(e.value, e.field))
      case Success(t) => Success(Dispatch(engine, catalog, t, c))
  }

  /** `Parse(line)`: the dialect's default catalog. */
  function Parse(d: Dialect, line: string, engine: Engine): (r: Result<Message, ParseError>)
    requires Fits(engine, DefaultPatterns(d))
    ensures r.Failure? <==> !HasLogPrefix(line) || ParseStamp(SplitLine(line).value.stamp).Failure?
    ensures r.Success? ==>
      r.value == Dispatch(engine, DefaultPatterns(d), StampFields(SplitLine(line).value.stamp),
                          SplitLine(line).value)
  {
    ParseWithPatterns(line, DefaultPatterns(d), engine)
  }

  /** A line without the log line prefix is `ErrorNoMatch`, whose text is
      "no match". */
  lemma NoPrefixNoMatch(line: string, catalog: seq<Entry>, engine: Engine)
    requires Fits(engine, catalog)
    requires !HasLogPrefix(line)
    ensures ParseWithPatterns(line, catalog, engine) == Failure(ErrorNoMatch)
    ensures ErrorText(ParseWithPatterns(line, catalog, engine).error) == "no match"
  {
  }

  /** A well-formed prefix whose timestamp names no valid time fails with the
      time error of the timestamp text, whatever the body. */
  lemma BadStampReported(stamp: string, body: string, rest: string,
                         catalog: seq<Entry>, engine: Engine)
    requires Fits(engine, catalog)
    requires IsStampShape(stamp) && !ValidDateTime(StampFields(stamp))
    requires '\n' !in body && (rest == [] || rest[0] == '\n')
    ensures ParseStamp(stamp).Failure? && ParseStamp(stamp).error.OutOfRange?
    ensures ParseWithPatterns(Prefixed(stamp, body) + rest, catalog, engine)
            == Failure(TimeOutOfRange(stamp, ParseStamp(stamp).error.field))
  {
    SplitPrefixed(stamp, body, rest);
  }

  /** The timestamp of the day-50 line: shaped right, with month, hour,
      minute and second in range, so the day check is the one that fails. */
  lemma DayFiftyStamp()
    ensures ParseStamp("11/50/2018 - 15:44:36") == Failure(OutOfRange("11/50/2018 - 15:44:36", Day))
  {
    var stamp := "11/50/2018 - 15:44:36";
    assert stamp[0..2] == "11";
    assert stamp[3..5] == "50";
    assert stamp[6..10] == "2018";
    assert stamp[13..15] == "15";
    assert stamp[16..18] == "44";
    assert stamp[19..21] == "36";
    assert IsStampShape(stamp);
    DecimalValuePair(stamp[0..2]);
    DecimalValuePair(stamp[3..5]);
    DecimalValuePair(stamp[13..15]);
    DecimalValuePair(stamp[16..18]);
    DecimalValuePair(stamp[19..21]);
  }

  /** Day 50 of November: the timestamp has the right shape, so the failure
      is the time error, spelled as Go spells it. */
  lemma DayOutOfRangeExample(body: string, catalog: seq<Entry>, engine: Engine)
    requires Fits(engine, catalog) && '\n' !in body
    ensures var r := ParseWithPatterns(Prefixed("11/50/2018 - 15:44:36", body), catalog, engine);
            && r.Failure?
            && ErrorText(r.error)
               == "parsing time \"" + "11/50/2018 - 15:44:36" + "\": day out of range"
  {
    var stamp := "11/50/2018 - 15:44:36";
    DayFiftyStamp();
    assert Prefixed(stamp, body) + [] == Prefixed(stamp, body);
    BadStampReported(stamp, body, [], catalog, engine);
    DayFiftyText();
  }

  lemma DayFiftyText()
    ensures ErrorText(TimeOutOfRange("11/50/2018 - 15:44:36", Day))
            == "parsing time \"" + "11/50/2018 - 15:44:36" + "\": day out of range"
  {
  }

  /** A line with a valid timestamp whose body no entry matches parses to an
      `Unknown` message carrying the body and the timestamp's time. */
  lemma NoHitUnknown(stamp: string, body: string, rest: string, catalog: seq<Entry>, engine: Engine)
    requires Fits(engine, catalog)
    requires IsStampShape(stamp) && ValidDateTime(StampFields(stamp))
    requires '\n' !in body && (rest == [] || rest[0] == '\n')
    requires forall i :: 0 <= i < |catalog| ==> !Hits(engine, catalog[i], body)
    ensures ParseWithPatterns(Prefixed(stamp, body) + rest, catalog, engine)
            == Success(Unknown(Meta(StampFields(stamp), K.Unknown), body))
  {
    SplitPrefixed(stamp, body, rest);
  }

  /** A line with a valid timestamp whose body entry `i` matches, and no
      earlier entry does, parses to the message entry `i`'s builder makes of
      its captures. */
  lemma HitBuilds(stamp: string, body: string, rest: string,
                  catalog: seq<Entry>, engine: Engine, i: nat)
    requires Fits(engine, catalog)
    requires IsStampShape(stamp) && ValidDateTime(StampFields(stamp))
    requires '\n' !in body && (rest == [] || rest[0] == '\n')
    requires i < |catalog| && Hits(engine, catalog[i], body)
    requires forall j :: 0 <= j < i ==> !Hits(engine, catalog[j], body)
    ensures |engine(catalog[i].pattern, body).value| >= K.CapturesNeeded(catalog[i].kind)
    ensures ParseWithPatterns(Prefixed(stamp, body) + rest, catalog, engine)
            == Success(Build(catalog[i].kind, StampFields(stamp),
                             engine(catalog[i].pattern, body).value))
  {
    SplitPrefixed(stamp, body, rest);
    FirstHitIs(engine, catalog, body, 0, i);
  }

  /** The first hit is the matching entry every earlier entry misses. */
  lemma {:induction false} FirstHitIs(engine: Engine, catalog: seq<Entry>, body: string,
                                      from: nat, i: nat)
    requires from <= i < |catalog| && Hits(engine, catalog[i], body)
    requires forall j :: from <= j < i ==> !Hits(engine, catalog[j], body)
    ensures FirstHit(engine, catalog, body, from) == Some(i)
    decreases i - from
  {
    if from < i {
      FirstHitIs(engine, catalog, body, from + 1, i);
    }
  }

  /** Map order does not matter when at most one distinct entry matches a
      body: any two catalogs holding the same entries build the same
      message. */
  lemma OrderIrrelevant(engine: Engine, a: seq<Entry>, b: seq<Entry>, t: DateTime, c: Capture)
    requires Fits(engine, a) && Fits(engine, b)
    requires forall e :: e in a <==> e in b
    requires forall i, j ::
               0 <= i < |a| && 0 <= j < |a| && Hits(engine, a[i], c.body) && Hits(engine, a[j], c.body)
               ==> a[i] == a[j]
    ensures Dispatch(engine, a, t, c) == Dispatch(engine, b, t, c)
  {
    var ha, hb := FirstHit(engine, a, c.body, 0), FirstHit(engine, b, c.body, 0);
    if ha.Some? {
      assert a[ha.value] in b;
      assert hb.Some?;
      assert b[hb.value] in a;
      assert b[hb.value] == a[ha.value];
    } else {
      forall j | 0 <= j < |b| ensures !Hits(engine, b[j], c.body) {
        assert b[j] in a;
      }
    }
  }

  /** Map order matters as soon as two entries of different kinds match the
      same body: the kind of the result follows whichever is tried first. */
  lemma OrderMatters(engine: Engine, e: Entry, f: Entry, t: DateTime, c: Capture)
    requires Fits(engine, [e, f]) && Fits(engine, [f, e])
    requires Hits(engine, e, c.body) && Hits(engine, f, c.body)
    ensures KindOf(Dispatch(engine, [e, f], t, c)) == e.kind
    ensures KindOf(Dispatch(engine, [f, e], t, c)) == f.kind
  {
    assert [e, f][0] == e && [f, e][0] == f;
  }

  /** In a catalog that binds no pattern to the fallback, a message is
      `Unknown` exactly when no entry matches the body. */
  lemma UnknownIffNoHit(engine: Engine, catalog: seq<Entry>, t: DateTime, c: Capture)
    requires Fits(engine, catalog)
    requires forall i :: 0 <= i < |catalog| ==> catalog[i].kind != K.Unknown
    ensures Dispatch(engine, catalog, t, c).Unknown? <==>
            forall i :: 0 <= i < |catalog| ==> !Hits(engine, catalog[i], c.body)
  {
  }

  /** With a default catalog, a parsed line is `Unknown` exactly when no
      default pattern matches its body: no builder stands behind the
      fallback. */
  lemma DefaultUnknownIffNoHit(d: Dialect, line: string, engine: Engine)
    requires Fits(engine, DefaultPatterns(d))
    requires Parse(d, line, engine).Success?
    ensures Parse(d, line, engine).value.Unknown? <==>
            forall i :: 0 <= i < CatalogSize ==>
              !Hits(engine, DefaultPatterns(d)[i], SplitLine(line).value.body)
  {
    var c := DefaultPatterns(d);
    forall i | 0 <= i < |c| ensures c[i].kind != K.Unknown {
      assert c[i] == CatalogEntry(d, i);
    }
    var split := SplitLine(line).value;
    var t := ParseStamp(split.stamp).value;
    assert Parse(d, line, engine).value == Dispatch(engine, c, t, split);
    UnknownIffNoHit(engine, c, t, split);
  }
}
