/**
 Base64 with a 32-bit accumulator that loses its high bits, against the three-byte groups of section 4 of
 RFC 4648.
 */
module Base64 {

  type byte = n: int | 0 <= n < 256
  type digit = n: int | 0 <= n < 64

  const UPPER := "ABCDEFGHIJKLMNOPQRSTUVWXYZ"
  const LOWER := "abcdefghijklmnopqrstuvwxyz"
  const ALPHABET := UPPER + LOWER + "0123456789+/"

  /** The value of a character of the alphabet; -1 for any other. */
  function DigitOf(c: char): (d: int)
    ensures -1 <= d < 64
  {
    if 'A' <= c <= 'Z' then c as int - 'A' as int
    else if 'a' <= c <= 'z' then 26 + (c as int - 'a' as int)
    else if '0' <= c <= '9' then 52 + (c as int - '0' as int)
    else if c == '+' then 62
    else if c == '/' then 63
    else -1
  }

  lemma UpperValue(i: digit)
    requires i < 26
    ensures |UPPER| == 26 && DigitOf(UPPER[i]) == i
  {
  }

  lemma LowerValue(i: digit)
    requires i < 26
    ensures |LOWER| == 26 && DigitOf(LOWER[i]) == 26 + i
  {
  }

  /** The alphabet and `DigitOf` are inverse to each other. */
  lemma AlphabetValue(i: digit)
    ensures |ALPHABET| == 64 && DigitOf(ALPHABET[i]) == i
  {
    if i < 26 {
      UpperValue(i);
      assert ALPHABET[i] == UPPER[i];
    } else if i < 52 {
      LowerValue(i - 26);
      assert ALPHABET[i] == LOWER[i - 26];
    } else {
      assert ALPHABET[i] == "0123456789+/"[i - 52];
    }
  }

  // ----- The standard -----

  /** Three bytes as four digits. */
  function Group(a: byte, b: byte, c: byte): seq<digit> {
    [a / 4, a % 4 * 16 + b / 16, b % 16 * 4 + c / 64, c % 64]
  }

  // The three bytes of a group, each from two digits.

  function First(a: digit, b: digit): byte {
    a * 4 + b / 16
  }

  function Second(b: digit, c: digit): byte {
    b % 16 * 16 + c / 4
  }

  function Third(c: digit, d: digit): byte {
    c % 4 * 64 + d
  }

  /** Four digits as three bytes. */
  function Triple(a: digit, b: digit, c: digit, d: digit): seq<byte> {
    [First(a, b), Second(b, c), Third(c, d)]
  }

  lemma GroupBack(a: byte, b: byte, c: byte)
    ensures var g := Group(a, b, c); Triple(g[0], g[1], g[2], g[3]) == [a, b, c]
  {
  }

  lemma GroupSize(a: byte, b: byte, c: byte)
    ensures |Group(a, b, c)| == 4
  {
  }

  /** The bytes as 6-bit digits; a last digit is filled up with zero bits. */
  function ToDigits(s: seq<byte>): seq<digit> {
    if |s| == 0 then []
    else if |s| == 1 then [s[0] / 4, s[0] % 4 * 16]
    else if |s| == 2 then [s[0] / 4, s[0] % 4 * 16 + s[1] / 16, s[1] % 16 * 4]
    else Group(s[0], s[1], s[2]) + ToDigits(s[3..])
  }

  function Letter(d: digit): char {
    AlphabetValue(d);
    ALPHABET[d]
  }

  function Letters(ds: seq<digit>): string {
    if ds == [] then "" else [Letter(ds[0])] + Letters(ds[1..])
  }

  function Padding(n: nat): string {
    if n % 3 == 0 then "" else if n % 3 == 1 then "==" else "="
  }

  /** The encoding of the standard. */
  function Encoded(s: seq<byte>): string {
    Letters(ToDigits(s)) + Padding(|s|)
  }

  /** The whole bytes that digits spell; leftover bits are dropped. */
  function ToBytes(ds: seq<digit>): seq<byte> {
    if |ds| < 2 then []
    else if |ds| == 2 then [First(ds[0], ds[1])]
    else if |ds| == 3 then [First(ds[0], ds[1]), Second(ds[1], ds[2])]
    else Triple(ds[0], ds[1], ds[2], ds[3]) + ToBytes(ds[4..])
  }

  /** The digits before the first character outside the alphabet. */
  function Digits(s: string): seq<digit> {
    if s == "" || DigitOf(s[0]) == -1 then [] else [DigitOf(s[0])] + Digits(s[1..])
  }

  /** What decoding gives, on any text. */
  function Decoded(s: string): seq<byte> {
    ToBytes(Digits(s))
  }

  lemma {:induction false} BytesOfDigits(s: seq<byte>)
    ensures ToBytes(ToDigits(s)) == s
  {
    if |s| >= 3 {
      hide Triple, Group;
      BytesOfDigits(s[3..]);
      GroupBack(s[0], s[1], s[2]);
      assert |Group(s[0], s[1], s[2])| == 4 by { GroupSize(s[0], s[1], s[2]); }
      assert ToDigits(s)[4..] == ToDigits(s[3..]);
      assert s == [s[0], s[1], s[2]] + s[3..];
    } else if |s| == 2 {
      assert s == [s[0], s[1]];
    } else if |s| == 1 {
      assert s == [s[0]];
    }
  }

  lemma LetterValue(d: digit)
    ensures DigitOf(Letter(d)) == d
  {
    hide DigitOf;
    AlphabetValue(d);
  }

  lemma DigitsStep(d: digit, text: string)
    ensures Digits([Letter(d)] + text) == [d] + Digits(text)
  {
    hide Letter, DigitOf;
    LetterValue(d);
    assert ([Letter(d)] + text)[1..] == text;
  }

  lemma LettersStep(ds: seq<digit>, tail: string)
    requires ds != []
    ensures Letters(ds) + tail == [Letter(ds[0])] + (Letters(ds[1..]) + tail)
  {
    hide Letter;
  }

  lemma NoDigitsIn(tail: string)
    requires tail == "" || DigitOf(tail[0]) == -1
    ensures Letters([]) + tail == tail && Digits(tail) == []
  {
  }

  lemma {:induction false} DigitsOfLetters(ds: seq<digit>, tail: string)
    requires tail == "" || DigitOf(tail[0]) == -1
    ensures Digits(Letters(ds) + tail) == ds
  {
    hide DigitOf, Letter, Letters, Digits;
    if ds == [] {
      NoDigitsIn(tail);
    } else {
      LettersStep(ds, tail);
      DigitsStep(ds[0], Letters(ds[1..]) + tail);
      DigitsOfLetters(ds[1..], tail);
      assert ds == [ds[0]] + ds[1..];
    }
  }

  /** Decoding an encoding gives the bytes back, whatever they are and however many. */
  lemma DecodeEncode(s: seq<byte>)
    ensures Decoded(Encoded(s)) == s
  {
    hide ToBytes, ToDigits;
    DigitsOfLetters(ToDigits(s), Padding(|s|));
    BytesOfDigits(s);
  }

  lemma {:induction false} LettersLength(ds: seq<digit>)
    ensures |Letters(ds)| == |ds|
  {
    hide Letter;
    if ds != [] {
      LettersLength(ds[1..]);
    }
  }

  /** Four digits for every three bytes, two for one more byte, three for two. */
  function Count(n: nat): nat {
    4 * (n / 3) + if n % 3 == 0 then 0 else if n % 3 == 1 then 2 else 3
  }

  lemma {:induction false} DigitsLength(s: seq<byte>)
    ensures |ToDigits(s)| == Count(|s|)
  {
    if |s| >= 3 {
      hide Group;
      DigitsLength(s[3..]);
      GroupSize(s[0], s[1], s[2]);
      DivMod(|s|, 3, |s[3..]| / 3 + 1, |s[3..]| % 3);
    }
  }

  lemma PaddedCount(n: nat)
    ensures Count(n) + |Padding(n)| == 4 * ((n + 2) / 3)
    ensures PadTo(Count(n)) == Padding(n)
  {
    var k, r := n / 3, n % 3;
    DivMod(n + 2, 3, if r == 0 then k else k + 1, if r == 0 then 2 else r - 1);
    DivMod(Count(n), 4, k, Count(n) - 4 * k);
  }

  /** An encoding has four characters for every three bytes begun. */
  lemma EncodedLength(s: seq<byte>)
    ensures |Encoded(s)| == 4 * ((|s| + 2) / 3)
  {
    hide ToDigits, Letters, Padding, Count;
    LettersLength(ToDigits(s));
    DigitsLength(s);
    PaddedCount(|s|);
  }

  // ----- The program -----

  /** A 32-bit signed result of arithmetic that wraps around. */
  function Wrap(n: int): (r: int)
    ensures -0x8000_0000 <= r < 0x8000_0000
  {
    (n + 0x8000_0000) % 0x1_0000_0000 - 0x8000_0000
  }

  /** `n >> k`: shifting right rounds down. */
  function ShiftRight(n: int, k: nat): int
    decreases k
  {
    if k == 0 then n else ShiftRight(n / 2, k - 1)
  }

  lemma ShiftTwo(n: int, k: nat)
    requires k >= 2
    ensures ShiftRight(n, k) == ShiftRight(n / 4, k - 2)
  {
    assert n / 2 / 2 == n / 4;
  }

  lemma Shifts(n: int)
    ensures ShiftRight(n, 0) == n && ShiftRight(n, 2) == n / 4 && ShiftRight(n, 4) == n / 16 && ShiftRight(n, 6) == n / 64
  {
    ShiftTwo(n, 2);
    ShiftTwo(n, 4);
    ShiftTwo(n / 4, 2);
    ShiftTwo(n, 6);
    ShiftTwo(n / 4, 4);
    ShiftTwo(n / 16, 2);
    assert n / 4 / 4 == n / 16 && n / 16 / 4 == n / 64;
  }

  /** The digits that are complete after some bytes. */
  function Complete(s: seq<byte>): seq<digit> {
    if |s| == 0 then []
    else if |s| == 1 then [s[0] / 4]
    else if |s| == 2 then [s[0] / 4, s[0] % 4 * 16 + s[1] / 16]
    else Group(s[0], s[1], s[2]) + Complete(s[3..])
  }

  /** The digits one more byte completes. */
  function Added(s: seq<byte>, c: byte): seq<digit> {
    if |s| % 3 == 0 then [c / 4]
    else if |s| % 3 == 1 then [s[|s| - 1] % 4 * 16 + c / 16]
    else [s[|s| - 1] % 16 * 4 + c / 64, c % 64]
  }

  /** The digit that is filled up with zero bits. */
  function Filled(s: seq<byte>): seq<digit> {
    if |s| % 3 == 0 then [] else if |s| % 3 == 1 then [s[|s| - 1] % 4 * 16] else [s[|s| - 1] % 16 * 4]
  }

  lemma {:induction false} CompleteMore(s: seq<byte>, c: byte)
    ensures Complete(s + [c]) == Complete(s) + Added(s, c)
  {
    if |s| >= 3 {
      hide Group;
      var rest := s[3..];
      CompleteMore(rest, c);
      assert (s + [c])[3..] == rest + [c];
      SameRest(s, c);
      Regroup(Group(s[0], s[1], s[2]), Complete(rest), Added(rest, c));
    } else if |s| == 2 {
      assert (s + [c])[3..] == [];
    }
  }

  lemma SameRest(s: seq<byte>, c: byte)
    requires |s| >= 3
    ensures Added(s[3..], c) == Added(s, c) && Filled(s[3..]) == Filled(s)
  {
    assert |s| % 3 == |s[3..]| % 3;
    if |s| % 3 != 0 {
      assert s[3..][|s[3..]| - 1] == s[|s| - 1];
    }
  }

  lemma Regroup<T>(a: seq<T>, b: seq<T>, c: seq<T>)
    ensures a + b + c == a + (b + c)
  {
  }

  lemma {:induction false} DigitsComplete(s: seq<byte>)
    ensures ToDigits(s) == Complete(s) + Filled(s)
  {
    if |s| >= 3 {
      hide Group;
      DigitsComplete(s[3..]);
      SameRest(s, 0);
      Regroup(Group(s[0], s[1], s[2]), Complete(s[3..]), Filled(s[3..]));
    }
  }

  lemma {:induction false} LettersAppend(a: seq<digit>, b: seq<digit>)
    ensures Letters(a + b) == Letters(a) + Letters(b)
  {
    hide Letter;
    if a == [] {
      assert a + b == b;
    } else {
      assert (a + b)[0] == a[0] && (a + b)[1..] == a[1..] + b;
      LettersAppend(a[1..], b);
    }
  }

  lemma LettersOne(d: digit)
    ensures Letters([d]) == [Letter(d)]
  {
    hide Letter;
    assert [d][1..] == [];
  }

  lemma Multiples(n: int, d: int)
    requires n > 0
    ensures d >= 1 ==> n * d >= n
    ensures d <= -1 ==> n * d <= -n
  {
  }

  /** Division with remainder is unique. */
  lemma DivMod(x: int, n: int, q: int, r: int)
    requires n > 0 && x == n * q + r && 0 <= r < n
    ensures x / n == q && x % n == r
  {
    assert n * (x / n - q) == r - x % n;
    Multiples(n, x / n - q);
  }

  lemma WrapIs(n: int) returns (k: int)
    ensures Wrap(n) == n - k * 0x1_0000_0000
  {
    k := (n + 0x8000_0000) / 0x1_0000_0000;
  }

  /** The digits a byte completes are read from the accumulator, though it has wrapped around. */
  lemma EncodeBits(val: int, c: byte)
    ensures var v := Wrap(val * 256 + c);
            && v % 256 == c && v % 64 == c % 64 && v / 4 % 64 == c / 4
            && v / 16 % 64 == val % 4 * 16 + c / 16 && v / 64 % 64 == val % 16 * 4 + c / 64
  {
    hide Wrap;
    var v := Wrap(val * 256 + c);
    var k := WrapIs(val * 256 + c);
    var q := val - k * 0x100_0000;
    assert v == 256 * q + c;
    DivMod(v, 256, q, c);
    DivMod(v, 64, 4 * q + c / 64, c % 64);
    DivMod(v, 4, 64 * q + c / 4, c % 4);
    DivMod(64 * q + c / 4, 64, q, c / 4);
    DivMod(v, 16, 16 * q + c / 16, c % 16);
    DivMod(16 * q + c / 16, 64, q / 4, q % 4 * 16 + c / 16);
    DivMod(4 * q + c / 64, 64, q / 16, q % 16 * 4 + c / 64);
    DivMod(q, 4, val / 4 - k * 0x40_0000, val % 4);
    DivMod(q, 16, val / 16 - k * 0x10_0000, val % 16);
  }

  /** The shifts at which the digits of a byte are read. */
  lemma ReadDigits(s: seq<byte>, val: int, c: byte, k: nat)
    requires |s| > 0 ==> val % 256 == s[|s| - 1]
    requires k < |Added(s, c)|
    ensures ShiftRight(Wrap(val * 256 + c), 2 + 2 * (|s| % 3) - 6 * k) % 64 == Added(s, c)[k]
  {
    hide Wrap, ShiftRight;
    EncodeBits(val, c);
    Shifts(Wrap(val * 256 + c));
    if |s| > 0 {
      var q := val / 256;
      DivMod(val, 4, 64 * q + s[|s| - 1] / 4, s[|s| - 1] % 4);
      DivMod(val, 16, 16 * q + s[|s| - 1] / 16, s[|s| - 1] % 16);
    }
  }

  /** After the last byte its leftover bits are shifted up and read once more. */
  lemma ReadFilled(s: seq<byte>, val: int)
    requires |s| % 3 != 0 && val % 256 == s[|s| - 1]
    ensures [ShiftRight(Wrap(val * 256), 2 + 2 * (|s| % 3)) % 64] == Filled(s)
  {
    ReadDigits(s, val, 0, 0);
  }

  lemma LettersMore(ds: seq<digit>, k: nat)
    requires k < |ds|
    ensures Letters(ds[..k + 1]) == Letters(ds[..k]) + [Letter(ds[k])]
  {
    hide Letter, Letters;
    assert ds[..k + 1] == ds[..k] + [ds[k]];
    LettersAppend(ds[..k], [ds[k]]);
    LettersOne(ds[k]);
  }

  method Encode(data: seq<byte>) returns (out: string)
    ensures out == Encoded(data)
  {
    hide Wrap, ShiftRight, Complete, Filled, ToDigits, Letters, Letter, Padding, Added;
    out := "";
    var val, valb, i := 0, -6, 0;
    NothingComplete();
    while i < |data|
      invariant 0 <= i <= |data|
      invariant out == Letters(Complete(data[..i]))
      invariant valb == -6 + 2 * (i % 3)
      invariant i > 0 ==> val % 256 == data[i - 1]
    {
      var c := data[i];
      ghost var added, before, k, was := Added(data[..i], c), out, 0, val;
      assert data[..i + 1] == data[..i] + [c];
      CompleteMore(data[..i], c);
      LettersAppend(Complete(data[..i]), added);
      AddedSize(data[..i], c);
      EncodeBits(val, c);
      val := Wrap(val * 256 + c);
      valb := valb + 8;
      NoLetters(added);
      while valb >= 0
        invariant 0 <= k <= |added| && valb == 2 + 2 * (i % 3) - 6 * k
        invariant out == before + Letters(added[..k])
        decreases valb + 6
      {
        ReadDigits(data[..i], was, c, k);
        LettersMore(added, k);
        out := out + [Letter(ShiftRight(val, valb) % 64)];
        valb := valb - 6;
        k := k + 1;
      }
      assert k == |added| && added[..k] == added;
      i := i + 1;
    }
    assert data[..i] == data;
    DigitsComplete(data);
    if valb > -6 {
      var last := ShiftRight(Wrap(val * 256), valb + 8) % 64;
      ReadFilled(data, val);
      LettersAppend(Complete(data), [last]);
      LettersOne(last);
      out := out + [Letter(last)];
    } else {
      NothingFilled(data);
      assert Complete(data) + [] == Complete(data);
    }
    assert out == Letters(ToDigits(data));
    PadsTo(data);
    Pad(out);
    while |out| % 4 != 0
      invariant out + PadTo(|out|) == Letters(ToDigits(data)) + Padding(|data|)
      decreases |PadTo(|out|)|
    {
      PadOne(out);
      out := out + "=";
    }
    Pad(out);
  }

  lemma AddedSize(s: seq<byte>, c: byte)
    ensures |Added(s, c)| == if |s| % 3 == 2 then 2 else 1
  {
  }

  lemma NothingFilled(s: seq<byte>)
    ensures |s| % 3 == 0 ==> Filled(s) == []
  {
  }

  lemma NoLetters(ds: seq<digit>)
    ensures Letters(ds[..0]) == ""
  {
  }

  lemma Pad(out: string)
    ensures |out| % 4 == 0 ==> out + PadTo(|out|) == out
  {
  }

  lemma PadOne(out: string)
    requires |out| % 4 != 0
    ensures out + "=" + PadTo(|out + "="|) == out + PadTo(|out|)
    ensures |PadTo(|out + "="|)| < |PadTo(|out|)|
  {
    assert PadTo(|out|) == "=" + PadTo(|out| + 1);
    Regroup(out, "=", PadTo(|out| + 1));
  }

  /** What is missing to a multiple of four. */
  function PadTo(n: nat): string {
    if n % 4 == 0 then "" else if n % 4 == 1 then "===" else if n % 4 == 2 then "==" else "="
  }

  lemma PadsTo(s: seq<byte>)
    ensures PadTo(|Letters(ToDigits(s))|) == Padding(|s|)
  {
    hide ToDigits, Letters, Count;
    LettersLength(ToDigits(s));
    DigitsLength(s);
    PaddedCount(|s|);
  }

  lemma NothingComplete()
    ensures Letters(Complete([])) == ""
  {
  }

  /** The table of the program: a digit for every character of the alphabet, -1 elsewhere. */
  method Table() returns (t: array<int>)
    ensures fresh(t) && t.Length == 256
    ensures forall c: char | c as int < 256 :: t[c as int] == DigitOf(c)
  {
    t := new int[256](_ => -1);
    var i := 0;
    while i < 64
      invariant 0 <= i <= 64
      invariant forall c: char | c as int < 256 :: t[c as int] == if DigitOf(c) < i then DigitOf(c) else -1
    {
      AlphabetValue(i);
      assert ALPHABET[i] as int < 256;
      t[ALPHABET[i] as int] := i;
      SameLetter(i);
      i := i + 1;
    }
  }

  /** Only one character stands for a digit. */
  lemma SameLetter(i: digit)
    ensures forall c: char | DigitOf(c) == i :: c == ALPHABET[i]
  {
    AlphabetValue(i);
  }

  /** The byte one more digit completes. */
  function Byte(ds: seq<digit>, d: digit): seq<byte> {
    if |ds| % 4 == 0 then []
    else if |ds| % 4 == 1 then [First(ds[|ds| - 1], d)]
    else if |ds| % 4 == 2 then [Second(ds[|ds| - 1], d)]
    else [Third(ds[|ds| - 1], d)]
  }

  lemma BytesStep(ds: seq<digit>)
    requires |ds| >= 4
    ensures ToBytes(ds) == Triple(ds[0], ds[1], ds[2], ds[3]) + ToBytes(ds[4..])
  {
    hide Triple;
  }

  lemma BytesOfShort(a: digit, b: digit, c: digit, d: digit)
    ensures ToBytes([]) == [] && ToBytes([a]) == [] && ToBytes([a, b]) == [First(a, b)]
    ensures ToBytes([a, b, c]) == [First(a, b), Second(b, c)]
    ensures ToBytes([a, b, c, d]) == [First(a, b), Second(b, c), Third(c, d)]
  {
    hide First, Second, Third;
    assert [a, b, c, d][4..] == [];
  }

  lemma ByteOfShort(ds: seq<digit>, d: digit)
    requires |ds| < 4
    ensures Byte(ds, d) ==
            if |ds| == 0 then [] else if |ds| == 1 then [First(ds[0], d)] else if |ds| == 2 then [Second(ds[1], d)] else [Third(ds[2], d)]
  {
    hide First, Second, Third;
  }

  lemma BytesOfFew(ds: seq<digit>, d: digit)
    requires |ds| < 4
    ensures ToBytes(ds + [d]) == ToBytes(ds) + Byte(ds, d)
  {
    hide First, Second, Third, ToBytes, Byte;
    ByteOfShort(ds, d);
    if |ds| == 0 {
      BytesOfShort(d, d, d, d);
      assert ds + [d] == [d] && ds == [];
    } else if |ds| == 1 {
      BytesOfShort(ds[0], d, d, d);
      assert ds + [d] == [ds[0], d] && ds == [ds[0]];
    } else if |ds| == 2 {
      BytesOfShort(ds[0], ds[1], d, d);
      assert ds + [d] == [ds[0], ds[1], d] && ds == [ds[0], ds[1]];
    } else {
      BytesOfShort(ds[0], ds[1], ds[2], d);
      assert ds + [d] == [ds[0], ds[1], ds[2], d] && ds == [ds[0], ds[1], ds[2]];
    }
  }

  lemma {:induction false} BytesMore(ds: seq<digit>, d: digit)
    ensures ToBytes(ds + [d]) == ToBytes(ds) + Byte(ds, d)
  {
    hide Triple, ToBytes, Byte;
    if |ds| >= 4 {
      var rest := ds[4..];
      BytesMore(rest, d);
      assert (ds + [d])[4..] == rest + [d];
      BytesStep(ds);
      BytesStep(ds + [d]);
      SameByte(ds, d);
      Regroup(Triple(ds[0], ds[1], ds[2], ds[3]), ToBytes(rest), Byte(rest, d));
    } else {
      BytesOfFew(ds, d);
    }
  }

  lemma SameByte(ds: seq<digit>, d: digit)
    requires |ds| >= 4
    ensures Byte(ds[4..], d) == Byte(ds, d)
  {
    assert |ds| % 4 == |ds[4..]| % 4;
    if |ds| % 4 != 0 {
      assert ds[4..][|ds[4..]| - 1] == ds[|ds| - 1];
    }
  }

  lemma DecodeBits(val: int, d: digit)
    ensures var v := Wrap(val * 64 + d);
            && v % 64 == d && v / 16 % 256 == val % 64 * 4 + d / 16
            && v / 4 % 256 == val % 16 * 16 + d / 4 && v % 256 == val % 4 * 64 + d
  {
    hide Wrap;
    var v := Wrap(val * 64 + d);
    var k := WrapIs(val * 64 + d);
    var q := val - k * 0x400_0000;
    assert v == 64 * q + d;
    DivMod(v, 64, q, d);
    DivMod(v, 256, q / 4, q % 4 * 64 + d);
    DivMod(v, 16, 4 * q + d / 16, d % 16);
    DivMod(4 * q + d / 16, 256, q / 64, q % 64 * 4 + d / 16);
    DivMod(v, 4, 16 * q + d / 4, d % 4);
    DivMod(16 * q + d / 4, 256, q / 16, q % 16 * 16 + d / 4);
    DivMod(q, 4, val / 4 - k * 0x100_0000, val % 4);
    DivMod(q, 16, val / 16 - k * 0x40_0000, val % 16);
    DivMod(q, 64, val / 64 - k * 0x10_0000, val % 64);
  }

  /** The byte a digit completes is read from the accumulator. */
  lemma ReadByte(ds: seq<digit>, val: int, d: digit)
    requires |ds| > 0 ==> val % 64 == ds[|ds| - 1]
    ensures |ds| % 4 != 0 ==>
              [ShiftRight(Wrap(val * 64 + d), 6 - 2 * (|ds| % 4)) % 256] == Byte(ds, d)
  {
    hide Wrap, ShiftRight;
    DecodeBits(val, d);
    Shifts(Wrap(val * 64 + d));
    if |ds| > 0 {
      var q := val / 64;
      DivMod(val, 4, 16 * q + ds[|ds| - 1] / 4, ds[|ds| - 1] % 4);
      DivMod(val, 16, 4 * q + ds[|ds| - 1] / 16, ds[|ds| - 1] % 16);
    }
  }

  lemma NoByte(ds: seq<digit>, d: digit)
    ensures |ds| % 4 == 0 ==> Byte(ds, d) == []
  {
  }

  lemma {:induction false} DigitsFrom(s: string, i: nat)
    requires i < |s|
    ensures DigitOf(s[i]) == -1 ==> Digits(s[i..]) == []
    ensures DigitOf(s[i]) != -1 ==> Digits(s[i..]) == [DigitOf(s[i])] + Digits(s[i + 1..])
  {
    assert s[i..][1..] == s[i + 1..];
  }

  method Decode(text: string) returns (out: seq<byte>)
    requires forall i | 0 <= i < |text| :: text[i] as int < 256
    ensures out == Decoded(text)
  {
    hide Wrap, ShiftRight, ToBytes, Digits, DigitOf, Byte;
    var table := Table();
    out := [];
    ghost var read: seq<digit> := [];
    var val, valb, i := 0, -8, 0;
    assert text[0..] == text && read + Digits(text) == Digits(text);
    NoBytes();
    ghost var rest := Digits(text);
    while i < |text|
      invariant 0 <= i <= |text| && |read| == i
      invariant table.Length == 256 && forall c: char | c as int < 256 :: table[c as int] == DigitOf(c)
      invariant rest == Digits(text[i..]) && read + rest == Digits(text)
      invariant out == ToBytes(read)
      invariant valb == (if |read| % 4 == 0 then -8 else -2 * (|read| % 4))
      invariant |read| > 0 ==> val % 64 == read[|read| - 1]
    {
      DigitsFrom(text, i);
      var d := table[text[i] as int];
      if d == -1 {
        break;
      }
      DigitRange(text[i]);
      assert d == DigitOf(text[i]);
      ReadByte(read, val, d);
      NoByte(read, d);
      DecodeBits(val, d);
      BytesMore(read, d);
      val := Wrap(val * 64 + d);
      valb := valb + 6;
      if valb >= 0 {
        out := out + [ShiftRight(val, valb) % 256];
        valb := valb - 8;
      } else {
        assert out + [] == out;
      }
      rest := Digits(text[i + 1..]);
      Regroup(read, [d], rest);
      read := read + [d];
      i := i + 1;
    }
    if i == |text| {
      assert text[i..] == "";
      NoDigits();
    }
    assert read + [] == read;
  }

  lemma DigitRange(c: char)
    ensures -1 <= DigitOf(c) < 64
  {
  }

  lemma NoBytes()
    ensures ToBytes([]) == []
  {
  }

  lemma NoDigits()
    ensures Digits("") == []
  {
  }
}
