/** The lossy integer coercion every builder applies to numeric captures:
    `toInt` runs `strconv.Atoi` and turns any error into 0. Go's `int` is taken
    to be 64 bits wide, so a value outside the 64-bit range is an Atoi range
    error and coerces to 0 as well. */
module Coercion {
  import opened Base
  import opened Text

  const MinInt: int := -0x8000_0000_0000_0000
  const MaxInt: int := 0x7fff_ffff_ffff_ffff

  predicate InIntRange(n: int) {
    MinInt <= n <= MaxInt
  }

  /** The text Atoi accepts in base 10: an optional `+` or `-` followed by one
      or more decimal digits, and nothing else (no spaces, no underscores). */
  predicate IsIntSyntax(s: string) {
    && |s| > 0
    && var digits := if s[0] == '+' || s[0] == '-' then s[1..] else s;
       |digits| > 0 && AllDigits(digits)
  }

  /** The signed value such a text denotes, before any range check. */
  function SyntaxValue(s: string): int
    requires IsIntSyntax(s)
  {
    if s[0] == '-' then -(DecimalValue(s[1..]) as int)
    else if s[0] == '+' then DecimalValue(s[1..])
    else DecimalValue(s)
  }

  /** Atoi's digit loop: `n = n*10 + digit` from the left, failing at the first
      byte that is not a digit. `acc` is the value of the digits already read. */
  function Accumulate(digits: string, i: nat, acc: nat): Option<nat>
    requires i <= |digits|
    decreases |digits| - i
  {
    if i == |digits| then Some(acc)
    else if !IsDigit(digits[i]) then None
    else Accumulate(digits, i + 1, acc * 10 + DigitValue(digits[i]))
  }

  /** The loop succeeds exactly on all-digit text and then yields its value. */
  lemma {:induction false} AccumulateMeaning(digits: string, i: nat, acc: nat)
    requires i <= |digits|
    requires AllDigits(digits[..i]) && acc == DecimalValue(digits[..i])
    ensures Accumulate(digits, i, acc).Some? <==> AllDigits(digits)
    ensures Accumulate(digits, i, acc).Some? ==>
            Accumulate(digits, i, acc).value == DecimalValue(digits)
    decreases |digits| - i
  {
    if i == |digits| {
      assert digits[..i] == digits;
    } else if IsDigit(digits[i]) {
      assert digits[..i + 1][..i] == digits[..i];
      AccumulateMeaning(digits, i + 1, acc * 10 + DigitValue(digits[i]));
    }
  }

  /** `strconv.Atoi(s)` with a 64-bit `int`: `None` stands for its syntax and
      range errors. What it accepts is stated by `AtoiMeaning`. */
  function Atoi(s: string): Option<int> {
    if |s| == 0 then None
    else
      var signed := s[0] == '+' || s[0] == '-';
      var digits := if signed then s[1..] else s;
      if |digits| == 0 then None
      else
        match Accumulate(digits, 0, 0)
        case None => None
        case Some(u) =>
          var n := if s[0] == '-' then -(u as int) else u as int;
          if InIntRange(n) then Some(n) else None
  }

  /** Atoi accepts exactly the well-formed texts whose value fits in 64 bits,
      and returns that value. */
  lemma {:induction false} AtoiMeaning(s: string)
    ensures Atoi(s).Some? <==> IsIntSyntax(s) && InIntRange(SyntaxValue(s))
    ensures Atoi(s).Some? ==> Atoi(s).value == SyntaxValue(s)
  {
    if |s| > 0 {
      var signed := s[0] == '+' || s[0] == '-';
      var digits := if signed then s[1..] else s;
      if |digits| > 0 {
        assert digits[..0] == [];
        AccumulateMeaning(digits, 0, 0);
      }
    }
  }

  /** `toInt`: Atoi's result, or 0 whenever Atoi reports an error. What it
      yields is stated by `ToIntMeaning`. */
  function ToInt(s: string): int {
    match Atoi(s)
    case Some(v) => v
    case None => 0
  }

  /** `toInt` never fails: it yields the value of well-formed text that fits
      in 64 bits and 0 for anything else, so its result is always a 64-bit
      integer. */
  lemma ToIntMeaning(s: string)
    ensures InIntRange(ToInt(s))
    ensures IsIntSyntax(s) && InIntRange(SyntaxValue(s)) ==> ToInt(s) == SyntaxValue(s)
    ensures !(IsIntSyntax(s) && InIntRange(SyntaxValue(s))) ==> ToInt(s) == 0
  {
    AtoiMeaning(s);
  }

  /** Go's decimal rendering of an int (`strconv.Itoa`): a `-` for negative
      values, then the shortest digit string. */
  function FormatInt(n: int): string {
    if n < 0 then "-" + NatToDecimal(-n) else NatToDecimal(n)
  }

  /** The rendering is well-formed integer text denoting `n`. */
  lemma FormatIntMeaning(n: int)
    ensures IsIntSyntax(FormatInt(n)) && SyntaxValue(FormatInt(n)) == n
  {
    if n < 0 {
      NatToDecimalMeaning(-n);
      assert FormatInt(n)[1..] == NatToDecimal(-n);
    } else {
      NatToDecimalMeaning(n);
    }
  }

  /** Coercion inverts rendering on the whole 64-bit range. */
  lemma ToIntFormatInt(n: int)
    requires InIntRange(n)
    ensures ToInt(FormatInt(n)) == n
  {
    FormatIntMeaning(n);
    ToIntMeaning(FormatInt(n));
  }

  /** A numeric capture a pattern guarantees (`\d+`, `-?\d+`) coerces to its
      value whenever it fits in 64 bits; a capture that is not an integer
      coerces to 0, so a malformed field is indistinguishable from a zero. */
  lemma ToIntOfDigits(s: string)
    requires |s| > 0 && AllDigits(s) && DecimalValue(s) <= MaxInt
    ensures ToInt(s) == DecimalValue(s)
    ensures ToInt("-" + s) == -(DecimalValue(s) as int)
  {
    var neg := "-" + s;
    assert neg[1..] == s;
    ToIntMeaning(s);
    ToIntMeaning(neg);
  }

  /** The two coercions exercised by the repository's helper test. */
  lemma ToIntExamples()
    ensures ToInt("1337") == 1337
    ensures ToInt("hello") == 0
    ensures ToInt("") == 0
    ensures ToInt("-") == 0
    ensures ToInt("+42") == 42
  {
    assert IsDigit("1337"[0]) && IsDigit("1337"[1]) && IsDigit("1337"[2]) && IsDigit("1337"[3]);
    assert "1337"[..3] == "133" && "133"[..2] == "13" && "13"[..1] == "1" && "1"[..0] == "";
    assert !IsDigit("hello"[0]);
    assert "+42"[1..] == "42" && "42"[..1] == "4" && "4"[..0] == "";
  }
}
