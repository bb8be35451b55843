/** The first step of parsing: the log line pattern
    `L (\d{2}/\d{2}/\d{4} - \d{2}:\d{2}:\d{2}): (.*)`, applied with Go's
    `FindStringSubmatch`. The pattern is not anchored, so it matches at the
    leftmost index where `L `, a timestamp-shaped text and `: ` follow each
    other; `(.*)` then captures the body, which stops before the first
    newline because `.` does not match `\n`. */
module LogLine {
  import opened Base
  import opened Text
  import opened Clock

  /** `L ` + 21 timestamp characters + `: `. */
  const PrefixLength: nat := 25

  /** The two captures of the log line pattern: the timestamp text and the
      message body. */
  datatype Capture = Capture(stamp: string, body: string)

  /** The log line pattern can start matching at index `i` of `line`. */
  predicate PrefixAt(line: string, i: nat) {
    && i + PrefixLength <= |line|
    && line[i] == 'L' && line[i + 1] == ' '
    && IsStampShape(line[i + 2..i + 23])
    && line[i + 23] == ':' && line[i + 24] == ' '
  }

  /** The line contains a match of the log line pattern somewhere. */
  predicate HasLogPrefix(line: string) {
    exists i: nat :: i < |line| && PrefixAt(line, i)
  }

  /** `i` is where the leftmost match of the log line pattern starts. */
  predicate LeftmostPrefix(line: string, i: nat) {
    PrefixAt(line, i) && forall j: nat :: j < i ==> !PrefixAt(line, j)
  }

  /** The text the pattern matches for a given timestamp and body. */
  function Prefixed(stamp: string, body: string): string {
    "L " + stamp + ": " + body
  }

  /** The first index at or after `from` where the pattern can start. */
  function FindPrefix(line: string, from: nat): (r: Option<nat>)
    ensures r.Some? ==> from <= r.value && PrefixAt(line, r.value)
    ensures r.Some? ==> forall j: nat :: from <= j < r.value ==> !PrefixAt(line, j)
    ensures r.None? ==> forall j: nat :: from <= j ==> !PrefixAt(line, j)
    decreases |line| - from
  {
    if |line| < from + PrefixLength then None
    else if PrefixAt(line, from) then Some(from)
    else FindPrefix(line, from + 1)
  }

  /** The end of the line segment starting at `from`: the first newline at or
      after `from`, or the end of the text. */
  function LineEnd(line: string, from: nat): (e: nat)
    requires from <= |line|
    ensures from <= e <= |line|
    ensures e == |line| || line[e] == '\n'
    ensures forall k :: from <= k < e ==> line[k] != '\n'
    decreases |line| - from
  {
    if from == |line| || line[from] == '\n' then from else LineEnd(line, from + 1)
  }

  /** `LogLinePattern.FindStringSubmatch(line)`, reduced to its captures 1
      and 2; `None` is Go's nil result. */
  function SplitLine(line: string): (r: Option<Capture>)
    ensures r.None? <==> !HasLogPrefix(line)
    ensures r.Some? ==> IsStampShape(r.value.stamp) && '\n' !in r.value.body
    ensures r.Some? ==>
      exists i: nat :: && LeftmostPrefix(line, i)
                       && OccursAt(line, Prefixed(r.value.stamp, r.value.body), i)
                       && var e := i + PrefixLength + |r.value.body|;
                          e == |line| || line[e] == '\n'
  {
    match FindPrefix(line, 0)
    case None => None
    case Some(i) =>
      var e := LineEnd(line, i + PrefixLength);
      var c := Capture(line[i + 2..i + 23], line[i + PrefixLength..e]);
      assert '\n' !in c.body by {
        forall k | 0 <= k < |c.body| ensures c.body[k] != '\n' {
          assert c.body[k] == line[i + PrefixLength + k];
        }
      }
      PrefixedSlice(line, i, e);
      assert LeftmostPrefix(line, i);
      Some(c)
  }

  /** The text from a match start to any later point is the prefix followed
      by what lies between. */
  lemma PrefixedSlice(line: string, i: nat, e: nat)
    requires PrefixAt(line, i) && i + PrefixLength <= e <= |line|
    ensures OccursAt(line, Prefixed(line[i + 2..i + 23], line[i + PrefixLength..e]), i)
  {
    var p := Prefixed(line[i + 2..i + 23], line[i + PrefixLength..e]);
    assert |p| == e - i;
    forall k | 0 <= k < |p| ensures line[i..e][k] == p[k] {
      if k < 2 {
      } else if k < 23 {
        assert p[k] == line[i + 2..i + 23][k - 2];
      } else if k < PrefixLength {
      } else {
        assert p[k] == line[i + PrefixLength..e][k - PrefixLength];
      }
    }
    assert line[i..e] == p;
  }

  /** A line that starts with the prefix reads back as its own timestamp and
      body, whatever follows the body's terminating newline. */
  lemma {:induction false} SplitPrefixed(stamp: string, body: string, rest: string)
    requires IsStampShape(stamp) && '\n' !in body
    requires rest == [] || rest[0] == '\n'
    ensures SplitLine(Prefixed(stamp, body) + rest) == Some(Capture(stamp, body))
  {
    var head := "L " + stamp + ": ";
    var line := head + body + rest;
    assert line == Prefixed(stamp, body) + rest;
    assert |head| == PrefixLength;
    assert line[2..23] == head[2..23] == stamp;
    assert line[0] == 'L' && line[1] == ' ' && line[23] == ':' && line[24] == ' ';
    assert PrefixAt(line, 0);
    var e := LineEnd(line, PrefixLength);
    var end := PrefixLength + |body|;
    assert end == |line| || line[end] == '\n';
    assert e == end;
    assert line[PrefixLength..e] == body;
  }
}
