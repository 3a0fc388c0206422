/**
 The byte-level tokenizer: token `b + 1` stands for byte `b`, and decoding reads the
 bytes as UTF-8 (section 4 of RFC 3629), replacing every maximal ill-formed part by
 U+FFFD as `String::from_utf8_lossy` does.
 */
module FallbackTokenizer {
  import opened Basics

  const REPLACEMENT: char := '\U{FFFD}'

  function ByteAt(s: seq<Byte>, i: nat): Byte { if i < |s| then s[i] else 0 }

  predicate IsTail(b: Byte) { 0x80 <= b <= 0xBF }

  /** The second bytes that may follow a three-byte lead. */
  predicate SecondOfThree(lead: Byte, b: Byte) {
    || (lead == 0xE0 && 0xA0 <= b <= 0xBF)
    || (0xE1 <= lead <= 0xEC && 0x80 <= b <= 0xBF)
    || (lead == 0xED && 0x80 <= b <= 0x9F)
    || (0xEE <= lead <= 0xEF && 0x80 <= b <= 0xBF)
  }

  /** The second bytes that may follow a four-byte lead. */
  predicate SecondOfFour(lead: Byte, b: Byte) {
    || (lead == 0xF0 && 0x90 <= b <= 0xBF)
    || (0xF1 <= lead <= 0xF3 && 0x80 <= b <= 0xBF)
    || (lead == 0xF4 && 0x80 <= b <= 0x8F)
  }

  datatype Decoded = Decoded(c: char, used: nat)

  /** The first character of a nonempty byte sequence and how many bytes it takes. */
  function FirstChar(s: seq<Byte>): (d: Decoded)
    requires s != []
    ensures 1 <= d.used <= |s|
  {
    var b0, b1, b2, b3 := s[0], ByteAt(s, 1), ByteAt(s, 2), ByteAt(s, 3);
    if b0 < 0x80 then Decoded(b0 as char, 1)
    else if 0xC2 <= b0 <= 0xDF then
      if IsTail(b1) then Decoded(((b0 - 0xC0) * 64 + (b1 - 0x80)) as char, 2)
      else Decoded(REPLACEMENT, 1)
    else if 0xE0 <= b0 <= 0xEF then
      if !SecondOfThree(b0, b1) then Decoded(REPLACEMENT, 1)
      else if !IsTail(b2) then Decoded(REPLACEMENT, 2)
      else Decoded(((b0 - 0xE0) * 4096 + (b1 - 0x80) * 64 + (b2 - 0x80)) as char, 3)
    else if 0xF0 <= b0 <= 0xF4 then
      if !SecondOfFour(b0, b1) then Decoded(REPLACEMENT, 1)
      else if !IsTail(b2) then Decoded(REPLACEMENT, 2)
      else if !IsTail(b3) then Decoded(REPLACEMENT, 3)
      else Decoded(((b0 - 0xF0) * 262144 + (b1 - 0x80) * 4096 + (b2 - 0x80) * 64 + (b3 - 0x80)) as char, 4)
    else Decoded(REPLACEMENT, 1)
  }

  /** `String::from_utf8_lossy`. */
  function Lossy(s: seq<Byte>): string {
    if s == [] then ""
    else
      var d := FirstChar(s);
      [d.c] + Lossy(s[d.used..])
  }

  /** `trim_end_matches('\u{fffd}')`. */
  function Trim(s: string): (r: string)
    ensures r <= s
  {
    if s != "" && s[|s| - 1] == REPLACEMENT then Trim(s[..|s| - 1]) else s
  }

  /** The bytes named by a token list; tokens that name no byte are skipped. */
  function Bytes(tokens: seq<Token>): seq<Byte> {
    if tokens == [] then []
    else
      var last := tokens[|tokens| - 1];
      Bytes(tokens[..|tokens| - 1]) + if 1 <= last <= 256 then [last - 1] else []
  }

  function Decode(tokens: seq<Token>): string { Lossy(Bytes(tokens)) }

  /** The part of a decoding that the response filter is shown before the end. */
  function Stable(tokens: seq<Token>): string { Trim(Decode(tokens)) }

  // ----- Decoding a growing token list -----

  /** More input changes the first character only when it was an incomplete sequence ending the input. */
  lemma FirstCharIsSettled(s: seq<Byte>, t: seq<Byte>)
    requires s != [] && s <= t
    ensures FirstChar(t) == FirstChar(s) || FirstChar(s) == Decoded(REPLACEMENT, |s|)
  {
  }

  lemma {:induction false} TrimOfCons(c: char, s: string)
    ensures Trim([c] + s) == if Trim(s) == "" && c == REPLACEMENT then "" else [c] + Trim(s)
    decreases |s|
  {
    var w := [c] + s;
    if s == "" {
      assert w[..0] == "";
    } else {
      assert w[|w| - 1] == s[|s| - 1];
      if s[|s| - 1] == REPLACEMENT {
        assert w[..|w| - 1] == [c] + s[..|s| - 1];
        TrimOfCons(c, s[..|s| - 1]);
      }
    }
  }

  /** What is settled in the decoding of some bytes stays in the decoding of more bytes. */
  lemma {:induction false} SettledTextStays(s: seq<Byte>, t: seq<Byte>)
    requires s <= t
    ensures Trim(Lossy(s)) <= Lossy(t)
    decreases |s|
  {
    if s != [] {
      var d := FirstChar(s);
      TrimOfCons(d.c, Lossy(s[d.used..]));
      FirstCharIsSettled(s, t);
      if FirstChar(t) == d {
        assert s[d.used..] <= t[d.used..];
        SettledTextStays(s[d.used..], t[d.used..]);
      } else {
        assert s[d.used..] == [];
      }
    }
  }

  lemma {:induction false} TrimKeepsSettled(a: string, s: string)
    requires a <= s && (a == "" || a[|a| - 1] != REPLACEMENT)
    ensures a <= Trim(s)
    decreases |s|
  {
    if s != "" && s[|s| - 1] == REPLACEMENT {
      assert a <= s[..|s| - 1];
      TrimKeepsSettled(a, s[..|s| - 1]);
    }
  }

  lemma {:induction false} TrimIsSettled(s: string)
    ensures Trim(s) == "" || Trim(s)[|Trim(s)| - 1] != REPLACEMENT
    decreases |s|
  {
    if s != "" && s[|s| - 1] == REPLACEMENT { TrimIsSettled(s[..|s| - 1]); }
  }

  lemma {:induction false} BytesOfPrefix(xs: seq<Token>, ys: seq<Token>)
    requires xs <= ys
    ensures Bytes(xs) <= Bytes(ys)
    decreases |ys|
  {
    if |xs| < |ys| {
      BytesOfPrefix(xs, ys[..|ys| - 1]);
    } else {
      assert xs == ys;
    }
  }

  /** The trimmed decoding of a token prefix is a prefix of every later one, trimmed or not. */
  lemma StableGrows(xs: seq<Token>, ys: seq<Token>)
    requires xs <= ys
    ensures Stable(xs) <= Stable(ys) <= Decode(ys)
  {
    BytesOfPrefix(xs, ys);
    SettledTextStays(Bytes(xs), Bytes(ys));
    TrimIsSettled(Decode(xs));
    TrimKeepsSettled(Stable(xs), Decode(ys));
  }

  // ----- Round trip -----

  function EncodeChar(c: char): (r: seq<Byte>)
    ensures 1 <= |r| <= 4
  {
    var n := c as int;
    if n < 0x80 then [n]
    else if n < 0x800 then [0xC0 + n / 64, 0x80 + n % 64]
    else if n < 0x1_0000 then [0xE0 + n / 4096, 0x80 + n / 64 % 64, 0x80 + n % 64]
    else [0xF0 + n / 262144, 0x80 + n / 4096 % 64, 0x80 + n / 64 % 64, 0x80 + n % 64]
  }

  function EncodeBytes(text: string): seq<Byte> {
    if text == "" then [] else EncodeChar(text[0]) + EncodeBytes(text[1..])
  }

  function Encode(text: string): seq<Token> {
    var bytes := EncodeBytes(text);
    seq(|bytes|, i requires 0 <= i < |bytes| => (bytes[i] as nat) + 1)
  }

  lemma SixBitSplit(n: nat)
    ensures n == n / 64 * 64 + n % 64
    ensures n == n / 4096 * 4096 + n / 64 % 64 * 64 + n % 64
    ensures n == n / 262144 * 262144 + n / 4096 % 64 * 4096 + n / 64 % 64 * 64 + n % 64
  {
    assert n / 64 / 64 == n / 4096;
    assert n / 4096 / 64 == n / 262144;
  }

  lemma FirstCharOfThree(c: char, rest: seq<Byte>)
    requires 0x800 <= c as int < 0x1_0000
    ensures FirstChar(EncodeChar(c) + rest) == Decoded(c, 3)
  {
    var n, s := c as int, EncodeChar(c) + rest;
    SixBitSplit(n);
    assert s[0] == 0xE0 + n / 4096 && s[1] == 0x80 + n / 64 % 64 && s[2] == 0x80 + n % 64;
  }

  lemma FirstCharOfFour(c: char, rest: seq<Byte>)
    requires 0x1_0000 <= c as int
    ensures FirstChar(EncodeChar(c) + rest) == Decoded(c, 4)
  {
    var n, s := c as int, EncodeChar(c) + rest;
    SixBitSplit(n);
    assert s[0] == 0xF0 + n / 262144 && s[1] == 0x80 + n / 4096 % 64;
    assert s[2] == 0x80 + n / 64 % 64 && s[3] == 0x80 + n % 64;
  }

  lemma FirstCharOfEncoding(c: char, rest: seq<Byte>)
    ensures FirstChar(EncodeChar(c) + rest) == Decoded(c, |EncodeChar(c)|)
  {
    var n := c as int;
    var s := EncodeChar(c) + rest;
    if n < 0x80 {
      assert s[0] == n;
    } else if n < 0x800 {
      assert s[0] == 0xC0 + n / 64 && s[1] == 0x80 + n % 64;
    } else if n < 0x1_0000 {
      hide FirstChar;
      FirstCharOfThree(c, rest);
    } else {
      hide FirstChar;
      FirstCharOfFour(c, rest);
    }
  }

  /** Only the one encoding of a character is accepted for it: no overlong form, no surrogate. */
  lemma AcceptedBytesAreTheEncoding(s: seq<Byte>)
    requires s != [] && FirstChar(s).c != REPLACEMENT
    ensures s[..FirstChar(s).used] == EncodeChar(FirstChar(s).c)
  {
    if FirstChar(s).used == 4 {
      hide FirstChar, EncodeChar;
      AcceptedFour(s);
    } else {
      AcceptedShort(s);
    }
  }

  lemma AcceptedFour(s: seq<Byte>)
    requires s != [] && FirstChar(s).c != REPLACEMENT && FirstChar(s).used == 4
    ensures s[..4] == EncodeChar(FirstChar(s).c)
  {
    SixBitDigits(s[0] - 0xF0, s[1] - 0x80, s[2] - 0x80, s[3] - 0x80);
  }

  lemma AcceptedShort(s: seq<Byte>)
    requires s != [] && FirstChar(s).c != REPLACEMENT && FirstChar(s).used < 4
    ensures s[..FirstChar(s).used] == EncodeChar(FirstChar(s).c)
  {
    var d := FirstChar(s);
    var b0, b1, b2 := s[0], ByteAt(s, 1), ByteAt(s, 2);
    if d.used == 2 {
      SixBitDigits(0, 0, b0 - 0xC0, b1 - 0x80);
    } else if d.used == 3 {
      SixBitDigits(0, b0 - 0xE0, b1 - 0x80, b2 - 0x80);
    }
    assert s[..d.used] == EncodeChar(d.c);
  }

  lemma SixBitDigits(w: nat, x: nat, y: nat, z: nat)
    requires x < 64 && y < 64 && z < 64
    ensures var n := w * 262144 + x * 4096 + y * 64 + z;
            n % 64 == z && n / 64 == w * 4096 + x * 64 + y && n / 64 % 64 == y
            && n / 4096 == w * 64 + x && n / 4096 % 64 == x && n / 262144 == w
  {
    var n := w * 262144 + x * 4096 + y * 64 + z;
    assert n / 64 == w * 4096 + x * 64 + y;
    assert n / 4096 == w * 64 + x;
  }

  /**
   Where bytes are replaced, they are one maximal ill-formed part: a single byte, or the
   beginning of some character's encoding, and with one byte more they begin no encoding.
   */
  lemma ReplacedPartIsMaximal(s: seq<Byte>)
    requires s != [] && FirstChar(s).c == REPLACEMENT && !(EncodeChar(REPLACEMENT) <= s)
    ensures var n := FirstChar(s).used;
            && (n > 1 ==> exists c :: s[..n] < EncodeChar(c))
            && forall k, c :: n < k <= |s| ==> !(s[..k] <= EncodeChar(c))
  {
    var n := FirstChar(s).used;
    if n > 1 {
      var c := Completion(s);
      assert s[..n] < EncodeChar(c);
    }
    forall k, c | n < k <= |s| ensures !(s[..k] <= EncodeChar(c)) {
      if s[..k] <= EncodeChar(c) {
        NoLongerBeginning(s, k, c);
        assert false;
      }
    }
  }

  /** What begins an encoding is either that encoding or replaced as one incomplete part. */
  lemma NoLongerBeginning(s: seq<Byte>, k: nat, c: char)
    requires s != [] && 0 < k <= |s| && s[..k] <= EncodeChar(c)
    ensures k <= FirstChar(s).used
  {
    hide FirstChar, EncodeChar;
    var e := EncodeChar(c);
    assert s[0] == e[0] && (1 < k ==> s[1] == e[1]) && (2 < k ==> s[2] == e[2]) && (3 < k ==> s[3] == e[3]);
    Shape(c);
    LeadsOn(s, k, e);
  }

  /** The bytes of an encoding are a lead byte and the continuation bytes it calls for. */
  predicate WellFormed(e: seq<Byte>) {
    match |e|
    case 1 => e[0] < 0x80
    case 2 => 0xC2 <= e[0] <= 0xDF && IsTail(e[1])
    case 3 => 0xE0 <= e[0] <= 0xEF && SecondOfThree(e[0], e[1]) && IsTail(e[2])
    case 4 => 0xF0 <= e[0] <= 0xF4 && SecondOfFour(e[0], e[1]) && IsTail(e[2]) && IsTail(e[3])
    case _ => false
  }

  lemma Shape(c: char)
    ensures WellFormed(EncodeChar(c))
  {
  }

  lemma LeadsOn(s: seq<Byte>, k: nat, e: seq<Byte>)
    requires WellFormed(e) && 0 < k <= |s| && k <= |e|
    requires s[0] == e[0] && (1 < k ==> s[1] == e[1]) && (2 < k ==> s[2] == e[2]) && (3 < k ==> s[3] == e[3])
    ensures k <= FirstChar(s).used
  {
  }

  /** The least continuation bytes complete an incomplete part. */
  function Completed(s: seq<Byte>, n: nat): seq<Byte>
    requires 1 < n < 4 && n <= |s|
  {
    s[..n] + if s[0] < 0xF0 then [0x80] else [0x80, 0x80][..4 - n]
  }

  lemma ReplacementInThree(s: seq<Byte>)
    requires s != [] && FirstChar(s) == Decoded(REPLACEMENT, 3) && s[0] < 0xF0
    ensures EncodeChar(REPLACEMENT) <= s
  {
    assert EncodeChar(REPLACEMENT) == [0xEF, 0xBF, 0xBD];
    assert s[0] == 0xEF && s[1] == 0xBF && s[2] == 0xBD;
  }

  lemma CompletedIsAccepted(s: seq<Byte>)
    requires s != [] && FirstChar(s).c == REPLACEMENT && FirstChar(s).used > 1 && !(EncodeChar(REPLACEMENT) <= s)
    ensures FirstChar(s).used < 4
    ensures var whole := Completed(s, FirstChar(s).used);
            FirstChar(whole).used == |whole| && FirstChar(whole).c != REPLACEMENT
  {
    var n := FirstChar(s).used;
    if n == 3 && s[0] < 0xF0 {
      ReplacementInThree(s);
      assert false;
    }
    var whole := Completed(s, n);
    assert whole[0] == s[0] && whole[1] == s[1] && (n == 3 ==> whole[2] == s[2]);
  }

  lemma Completion(s: seq<Byte>) returns (c: char)
    requires s != [] && FirstChar(s).c == REPLACEMENT && FirstChar(s).used > 1 && !(EncodeChar(REPLACEMENT) <= s)
    ensures s[..FirstChar(s).used] < EncodeChar(c)
  {
    hide FirstChar, EncodeChar;
    CompletedIsAccepted(s);
    var whole := Completed(s, FirstChar(s).used);
    c := FirstChar(whole).c;
    AcceptedBytesAreTheEncoding(whole);
    assert whole[..|whole|] == whole;
  }

  lemma {:induction false} LossyInvertsEncoding(text: string)
    ensures Lossy(EncodeBytes(text)) == text
  {
    if text != "" {
      var head, tail := EncodeChar(text[0]), EncodeBytes(text[1..]);
      FirstCharOfEncoding(text[0], tail);
      assert (head + tail)[|head|..] == tail;
      LossyInvertsEncoding(text[1..]);
    }
  }

  lemma {:induction false} BytesOfShifted(tokens: seq<Token>, bytes: seq<Byte>)
    requires |tokens| == |bytes| && forall i :: 0 <= i < |bytes| ==> tokens[i] == (bytes[i] as nat) + 1
    ensures Bytes(tokens) == bytes
    decreases |bytes|
  {
    if tokens != [] {
      BytesOfShifted(tokens[..|tokens| - 1], bytes[..|bytes| - 1]);
      assert bytes == bytes[..|bytes| - 1] + [bytes[|bytes| - 1]];
    }
  }

  lemma {:induction false} BytesConcat(a: seq<Token>, b: seq<Token>)
    ensures Bytes(a + b) == Bytes(a) + Bytes(b)
    decreases |b|
  {
    if b == [] {
      assert a + b == a;
    } else {
      var n := |b| - 1;
      assert (a + b)[..|a + b| - 1] == a + b[..n];
      BytesConcat(a, b[..n]);
    }
  }

  /** A token that names no byte changes nothing, wherever it stands. */
  lemma OtherTokensAreSkipped(a: seq<Token>, t: Token, b: seq<Token>)
    requires t < 1 || 256 < t
    ensures Decode(a + [t] + b) == Decode(a + b)
  {
    BytesConcat(a + [t], b);
    BytesConcat(a, b);
    assert (a + [t])[..|a|] == a && Bytes(a) + [] == Bytes(a);
    assert Bytes(a + [t]) == Bytes(a);
  }

  /** Decoding the encoding of any text gives the text back. */
  lemma DecodeInvertsEncode(text: string)
    ensures Decode(Encode(text)) == text
  {
    BytesOfShifted(Encode(text), EncodeBytes(text));
    LossyInvertsEncoding(text);
  }
}
