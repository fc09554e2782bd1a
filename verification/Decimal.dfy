/**
 Decimal text: what `std::to_string` prints and what the program's number parsers accept.

 The parsers drop one leading '+', then take the longest run of digits (after an optional '-',
 where the type is signed) and ignore whatever follows it.
 */
module Decimal {
  import opened Prelude

  const INT32_LIMIT := 0x8000_0000
  const UINT64_LIMIT := 0x1_0000_0000_0000_0000

  /** The program's `int`. */
  type int32 = n: int | -0x8000_0000 <= n < 0x8000_0000

  /** The program's `std::size_t` and `std::uint64_t`. */
  type uint64 = n: int | 0 <= n < 0x1_0000_0000_0000_0000

  predicate IsDigit(c: char) {
    '0' <= c <= '9'
  }

  predicate AllDigits(s: string) {
    forall i | 0 <= i < |s| :: IsDigit(s[i])
  }

  function DigitValue(c: char): nat
    requires IsDigit(c)
  {
    c as int - '0' as int
  }

  function DigitChar(d: nat): char
    requires d < 10
  {
    ('0' as int + d) as char
  }

  /** Unsigned decimal text, without leading zeros. */
  function Print(n: nat): string {
    if n < 10 then [DigitChar(n)] else Print(n / 10) + [DigitChar(n % 10)]
  }

  function PrintInt(n: int): string {
    if n < 0 then "-" + Print(-n) else Print(n)
  }

  /** The number a digit string denotes. */
  function Value(digits: string): nat
    requires AllDigits(digits)
  {
    if digits == [] then 0
    else Value(digits[..|digits| - 1]) * 10 + DigitValue(digits[|digits| - 1])
  }

  /** How many digits a text starts with. */
  function DigitRun(s: string): (n: nat)
    ensures n <= |s| && AllDigits(s[..n])
    ensures n < |s| ==> !IsDigit(s[n])
  {
    if s == [] || !IsDigit(s[0]) then 0 else 1 + DigitRun(s[1..])
  }

  /** `std::from_chars` in base ten, before the range check of the result type. */
  function FromChars(s: string, signed: bool): Option<int> {
    var negative := signed && s != [] && s[0] == '-';
    var body := if negative then s[1..] else s;
    var run := DigitRun(body);
    if run == 0 then None
    else
      var magnitude: int := Value(body[..run]);
      Some(if negative then -magnitude else magnitude)
  }

  function WithoutPlus(s: string): string {
    if s != [] && s[0] == '+' then s[1..] else s
  }

  function ParseInt(s: string): Option<int32> {
    match FromChars(WithoutPlus(s), true)
    case Some(v) => if -INT32_LIMIT <= v < INT32_LIMIT then Some(v) else None
    case None => None
  }

  function ParseUInt64(s: string): Option<uint64> {
    match FromChars(WithoutPlus(s), false)
    case Some(v) => if 0 <= v < UINT64_LIMIT then Some(v) else None
    case None => None
  }

  lemma {:induction false} PrintIsDigits(n: nat)
    ensures Print(n) != [] && AllDigits(Print(n)) && Value(Print(n)) == n
  {
    if n < 10 {
      assert Print(n)[..0] == [];
    } else {
      PrintIsDigits(n / 10);
      var s := Print(n);
      assert s[..|s| - 1] == Print(n / 10);
    }
  }

  lemma {:induction false} DigitRunStops(digits: string, tail: string)
    requires AllDigits(digits)
    requires tail == [] || !IsDigit(tail[0])
    ensures DigitRun(digits + tail) == |digits|
  {
    if digits == [] {
      assert digits + tail == tail;
    } else {
      assert (digits + tail)[1..] == digits[1..] + tail;
      DigitRunStops(digits[1..], tail);
    }
  }

  lemma FromCharsPrint(n: nat, tail: string, signed: bool)
    requires tail == [] || !IsDigit(tail[0])
    ensures FromChars(Print(n) + tail, signed) == Some(n)
    ensures WithoutPlus(Print(n) + tail) == Print(n) + tail
  {
    PrintIsDigits(n);
    DigitRunStops(Print(n), tail);
    assert (Print(n) + tail)[..|Print(n)|] == Print(n);
    assert IsDigit((Print(n) + tail)[0]);
  }

  lemma FromCharsPrintNegative(n: int)
    requires 0 < n
    ensures FromChars("-" + Print(n), true) == Some(-n)
  {
    var s := "-" + Print(n);
    assert s[1..] == Print(n);
    PrintIsDigits(n);
    DigitRunStops(Print(n), []);
    assert Print(n) + [] == Print(n);
    assert Print(n)[..|Print(n)|] == Print(n);
  }

  lemma FromCharsPrintInt(n: int)
    ensures FromChars(WithoutPlus(PrintInt(n)), true) == Some(n)
  {
    if n < 0 {
      FromCharsPrintNegative(-n);
    } else {
      FromCharsPrint(n, [], true);
      assert Print(n) + [] == Print(n);
    }
  }

  /** The 32-bit parser inverts printing exactly on the 32-bit range and rejects every other number. */
  lemma ParseIntPrint(n: int)
    ensures ParseInt(PrintInt(n)) == if -INT32_LIMIT <= n < INT32_LIMIT then Some(n) else None
  {
    FromCharsPrintInt(n);
  }

  /** The 64-bit parser reads a printed number back, whatever non-digit text follows it. */
  lemma ParseUInt64Print(n: nat, tail: string)
    requires tail == [] || !IsDigit(tail[0])
    ensures ParseUInt64(Print(n) + tail) == if n < UINT64_LIMIT then Some(n) else None
  {
    FromCharsPrint(n, tail, false);
  }

  /** Different numbers print differently. */
  lemma PrintInjective(m: nat, n: nat)
    requires Print(m) == Print(n)
    ensures m == n
  {
    PrintIsDigits(m);
    PrintIsDigits(n);
  }

  // ----- Every text -----

  /** What a text starts with: a plus sign or none, then digits, then something else. */
  ghost predicate Reads(s: string, plus: string, digits: string, tail: string) {
    && s == plus + digits + tail && (plus == "" || plus == "+") && AllDigits(digits) && (tail == "" || !IsDigit(tail[0]))
    && (plus == "" && digits == "" && tail != "" ==> tail[0] != '+')
  }

  /** A text is read as the number its digits denote, one leading plus sign and whatever follows aside; without digits it is refused. */
  lemma ParseUInt64Reads(s: string, plus: string, digits: string, tail: string)
    requires Reads(s, plus, digits, tail)
    ensures ParseUInt64(s) == if digits != "" && Value(digits) < UINT64_LIMIT then Some(Value(digits)) else None
  {
    WithoutPlusIs(s, plus, digits, tail);
    DigitRunStops(digits, tail);
    assert (digits + tail)[..|digits|] == digits;
  }

  /** The number behind a sign. */
  ghost function Signed(minus: string, digits: string): int
    requires AllDigits(digits)
  {
    var n: int := Value(digits);
    if minus == "-" then -n else n
  }

  lemma SignedReads(body: string, minus: string, digits: string, tail: string)
    requires body == minus + digits + tail && (minus == "" || minus == "-")
    requires AllDigits(digits) && (tail == "" || !IsDigit(tail[0]))
    requires minus == "" && digits == "" && tail != "" ==> tail[0] != '-'
    ensures FromChars(body, true) == if digits != "" then Some(Signed(minus, digits)) else None
  {
    hide Value;
    DigitRunStops(digits, tail);
    assert (digits + tail)[..|digits|] == digits;
    if minus == "-" {
      assert body[0] == '-' && body[1..] == digits + tail;
    } else {
      assert body == digits + tail;
      assert digits != "" ==> body[0] == digits[0];
    }
  }

  /** The same for the 32-bit parser, which also takes a minus sign. */
  lemma ParseIntReads(s: string, plus: string, minus: string, digits: string, tail: string)
    requires s == plus + (minus + digits + tail) && (plus == "" || plus == "+") && (minus == "" || minus == "-")
    requires AllDigits(digits) && (tail == "" || !IsDigit(tail[0]))
    requires minus == "" && digits == "" && tail != "" ==> tail[0] != '-' && (plus == "" ==> tail[0] != '+')
    ensures ParseInt(s) ==
            if digits != "" && -INT32_LIMIT <= Signed(minus, digits) < INT32_LIMIT then Some(Signed(minus, digits)) else None
  {
    hide Value, FromChars;
    var body := minus + digits + tail;
    SignedReads(body, minus, digits, tail);
    if plus == "+" {
      assert s[1..] == body;
    } else {
      assert s == body;
      assert minus == "" && digits != "" ==> s[0] == digits[0];
      assert minus == "" && digits == "" ==> s == tail;
    }
  }

  lemma WithoutPlusIs(s: string, plus: string, digits: string, tail: string)
    requires Reads(s, plus, digits, tail)
    ensures WithoutPlus(s) == digits + tail
  {
    if plus == "+" {
      assert s[1..] == digits + tail;
    } else {
      assert s == digits + tail;
    }
  }
}
