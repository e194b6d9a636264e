/** Unpadded base64url (section 5 of RFC 4648), as `base64.RawURLEncoding` writes and reads it. */
module Base64Url {
  import opened Wrappers

  type Byte = n: nat | n < 256

  /** The 64-character alphabet. */
  function Char(v: nat): (c: char)
    requires v < 64
    ensures InAlphabet(c)
  {
    if v < 26 then 'A' + v as char
    else if v < 52 then 'a' + (v - 26) as char
    else if v < 62 then '0' + (v - 52) as char
    else if v == 62 then '-' else '_'
  }

  predicate InAlphabet(c: char) {
    'A' <= c <= 'Z' || 'a' <= c <= 'z' || '0' <= c <= '9' || c == '-' || c == '_'
  }

  function Digit(c: char): (v: nat)
    requires InAlphabet(c)
    ensures v < 64
  {
    if 'A' <= c <= 'Z' then (c - 'A') as nat
    else if 'a' <= c <= 'z' then (c - 'a') as nat + 26
    else if '0' <= c <= '9' then (c - '0') as nat + 52
    else if c == '-' then 62 else 63
  }

  lemma {:induction false} DigitChar(v: nat)
    requires v < 64
    ensures Digit(Char(v)) == v
  {
  }

  function Encode(b: seq<Byte>): (s: string)
    ensures InAlphabetAll(s)
    ensures s == "" <==> b == []
  {
    if b == [] then ""
    else if |b| == 1 then [Char(b[0] / 4), Char(b[0] % 4 * 16)]
    else if |b| == 2 then [Char(b[0] / 4), Char(b[0] % 4 * 16 + b[1] / 16), Char(b[1] % 16 * 4)]
    else
      Group(b[0], b[1], b[2]) + Encode(b[3..])
  }

  /** Three bytes as four characters. */
  function Group(x: Byte, y: Byte, z: Byte): (s: string)
    ensures |s| == 4 && InAlphabetAll(s)
  {
    [Char(x / 4), Char(x % 4 * 16 + y / 16), Char(y % 16 * 4 + z / 64), Char(z % 64)]
  }

  predicate InAlphabetAll(s: string) { forall i | 0 <= i < |s| :: InAlphabet(s[i]) }

  /** The reader skips line breaks anywhere in its input. */
  function WithoutBreaks(s: string): string {
    if s == "" then ""
    else if s[0] == '\r' || s[0] == '\n' then WithoutBreaks(s[1..])
    else [s[0]] + WithoutBreaks(s[1..])
  }

  function Decode(s: string): Option<seq<Byte>> {
    var t := WithoutBreaks(s);
    if !InAlphabetAll(t) || |t| % 4 == 1 then None else Some(DecodeGroups(t))
  }

  function DecodeGroups(t: string): seq<Byte>
    requires InAlphabetAll(t) && |t| % 4 != 1
  {
    if t == "" then []
    else
      var v0, v1 := Digit(t[0]), Digit(t[1]);
      if |t| == 2 then [v0 * 4 + v1 / 16]
      else
        var v2 := Digit(t[2]);
        if |t| == 3 then [v0 * 4 + v1 / 16, v1 % 16 * 16 + v2 / 4]
        else
          [v0 * 4 + v1 / 16, v1 % 16 * 16 + v2 / 4, v2 % 4 * 64 + Digit(t[3])] + DecodeGroups(t[4..])
  }

  lemma {:induction false} NoBreaks(s: string)
    requires InAlphabetAll(s)
    ensures WithoutBreaks(s) == s
  {
    if s != "" { NoBreaks(s[1..]); }
  }

  /** Six-bit digits reassemble into the bytes they were cut from. */
  lemma {:induction false} Reassemble(x: Byte, y: Byte, z: Byte)
    ensures var d0, d1, d2, d3 := x / 4, x % 4 * 16 + y / 16, y % 16 * 4 + z / 64, z % 64;
            d0 * 4 + d1 / 16 == x && d1 % 16 * 16 + d2 / 4 == y && d2 % 4 * 64 + d3 == z
  {
  }

  lemma {:induction false} LastGroupInverts(b: seq<Byte>)
    requires |b| < 3
    ensures |Encode(b)| % 4 != 1 && DecodeGroups(Encode(b)) == b
  {
    if |b| == 1 {
      DigitChar(b[0] / 4);
      DigitChar(b[0] % 4 * 16);
      hide Digit, Char;
      Reassemble(b[0], 0, 0);
    } else if |b| == 2 {
      DigitChar(b[0] / 4);
      DigitChar(b[0] % 4 * 16 + b[1] / 16);
      DigitChar(b[1] % 16 * 4);
      hide Digit, Char;
      Reassemble(b[0], b[1], 0);
    }
  }

  lemma {:induction false} GroupInverts(x: Byte, y: Byte, z: Byte, t: string)
    requires InAlphabetAll(t) && |t| % 4 != 1
    ensures DecodeGroups(Group(x, y, z) + t) == [x, y, z] + DecodeGroups(t)
  {
    DigitChar(x / 4);
    DigitChar(x % 4 * 16 + y / 16);
    DigitChar(y % 16 * 4 + z / 64);
    DigitChar(z % 64);
    hide Digit, Char;
    assert (Group(x, y, z) + t)[4..] == t;
    Reassemble(x, y, z);
  }

  lemma {:induction false} EncodeLength(b: seq<Byte>)
    ensures |Encode(b)| % 4 != 1
  {
    hide Group;
    if |b| >= 3 {
      EncodeLength(b[3..]);
      assert |Encode(b)| == 4 + |Encode(b[3..])|;
    }
  }

  lemma {:induction false} GroupsInvert(b: seq<Byte>)
    requires |Encode(b)| % 4 != 1
    ensures DecodeGroups(Encode(b)) == b
  {
    if |b| < 3 {
      LastGroupInverts(b);
    } else {
      var head, rest := [b[0], b[1], b[2]], b[3..];
      assert b == head + rest;
      var tail := Encode(rest);
      assert Encode(b) == Group(b[0], b[1], b[2]) + tail;
      EncodeLength(rest);
      GroupsInvert(rest);
      hide Group, DecodeGroups, Encode;
      GroupInverts(b[0], b[1], b[2], tail);
    }
  }

  /** Decoding inverts encoding on every byte sequence. */
  lemma {:induction false} DecodeInvertsEncode(b: seq<Byte>)
    ensures Decode(Encode(b)) == Some(b)
  {
    NoBreaks(Encode(b));
    EncodeLength(b);
    GroupsInvert(b);
  }

  /** The encoding never contains a full stop. */
  lemma {:induction false} EncodeHasNoStop(b: seq<Byte>)
    ensures '.' !in Encode(b)
  {
    assert InAlphabetAll(Encode(b));
  }

  // ---------------------------------------------------------------- what the characters stand for

  const UPPER := "ABCDEFGHIJKLMNOPQRSTUVWXYZ"
  const LOWER := "abcdefghijklmnopqrstuvwxyz"
  const DIGITS := "0123456789"

  /** The alphabet in its order. */
  lemma {:induction false} AlphabetOrder(v: nat)
    requires v < 64
    ensures Char(v) == if v < 26 then UPPER[v] else if v < 52 then LOWER[v - 26] else if v < 62 then DIGITS[v - 52]
                       else if v == 62 then '-' else '_'
  {
    Letters();
  }

  lemma {:induction false} Letters()
    ensures forall i | 0 <= i < 26 :: UPPER[i] == 'A' + i as char && LOWER[i] == 'a' + i as char
    ensures forall i | 0 <= i < 10 :: DIGITS[i] == '0' + i as char
  {
  }

  function ByteAt(b: seq<Byte>, i: nat): nat { if i < |b| then b[i] else 0 }

  function DigitAt(s: string, i: nat): nat
    requires InAlphabetAll(s)
  {
    if i < |s| then Digit(s[i]) else 0
  }

  /** A group of three bytes, and one of four characters, as a number of 24 bits; what is missing is zero. */
  function ByteGroup(b: seq<Byte>, g: nat): nat {
    65536 * ByteAt(b, 3 * g) + 256 * ByteAt(b, 3 * g + 1) + ByteAt(b, 3 * g + 2)
  }

  function CharGroup(s: string, g: nat): nat
    requires InAlphabetAll(s)
  {
    262144 * DigitAt(s, 4 * g) + 4096 * DigitAt(s, 4 * g + 1) + 64 * DigitAt(s, 4 * g + 2) + DigitAt(s, 4 * g + 3)
  }

  lemma {:induction false} SameNumber(x: nat, y: nat, z: nat)
    ensures 262144 * (x / 4) + 4096 * (x % 4 * 16 + y / 16) + 64 * (y % 16 * 4 + z / 64) + z % 64 == 65536 * x + 256 * y + z
  {
  }

  /** The four digits of the first group. */
  predicate StartsWith(s: string, x: Byte, y: Byte, z: Byte)
    requires InAlphabetAll(s)
  {
    && DigitAt(s, 0) == x / 4 && DigitAt(s, 1) == x % 4 * 16 + y / 16
    && DigitAt(s, 2) == y % 16 * 4 + z / 64 && DigitAt(s, 3) == z % 64
  }

  lemma {:induction false} GroupStarts(x: Byte, y: Byte, z: Byte, rest: string)
    requires InAlphabetAll(rest)
    ensures StartsWith(Group(x, y, z) + rest, x, y, z)
  {
    DigitChar(x / 4);
    DigitChar(x % 4 * 16 + y / 16);
    DigitChar(y % 16 * 4 + z / 64);
    DigitChar(z % 64);
    hide Digit, Char;
  }

  lemma {:induction false} LastGroupStarts(b: seq<Byte>)
    requires 0 < |b| < 3
    ensures StartsWith(Encode(b), b[0], if |b| > 1 then b[1] else 0, 0)
  {
    var y: Byte := if |b| > 1 then b[1] else 0;
    DigitChar(b[0] / 4);
    DigitChar(b[0] % 4 * 16 + y / 16);
    DigitChar(y % 16 * 4);
    hide Digit, Char;
  }

  lemma {:induction false} FirstGroup(b: seq<Byte>)
    requires b != []
    ensures CharGroup(Encode(b), 0) == ByteGroup(b, 0)
  {
    hide Encode, Group, DigitAt;
    if |b| < 3 {
      LastGroupStarts(b);
    } else {
      assert Encode(b) == Group(b[0], b[1], b[2]) + Encode(b[3..]) by { GroupFirst(b); }
      GroupStarts(b[0], b[1], b[2], Encode(b[3..]));
    }
    SameNumber(ByteAt(b, 0), ByteAt(b, 1), ByteAt(b, 2));
  }

  lemma {:induction false} GroupFirst(b: seq<Byte>)
    requires |b| >= 3
    ensures Encode(b) == Group(b[0], b[1], b[2]) + Encode(b[3..])
  {
  }

  lemma {:induction false} DigitLater(first: string, rest: string, i: nat)
    requires InAlphabetAll(first) && InAlphabetAll(rest) && |first| == 4 && i >= 4
    ensures DigitAt(first + rest, i) == DigitAt(rest, i - 4)
  {
  }

  lemma {:induction false} LaterChars(first: string, rest: string, g: nat)
    requires InAlphabetAll(first) && InAlphabetAll(rest) && |first| == 4 && g > 0
    ensures CharGroup(first + rest, g) == CharGroup(rest, g - 1)
  {
    DigitLater(first, rest, 4 * g);
    DigitLater(first, rest, 4 * g + 1);
    DigitLater(first, rest, 4 * g + 2);
    DigitLater(first, rest, 4 * g + 3);
    hide DigitAt;
  }

  lemma {:induction false} LaterBytes(b: seq<Byte>, g: nat)
    requires |b| >= 3 && g > 0
    ensures ByteGroup(b, g) == ByteGroup(b[3..], g - 1)
  {
  }

  lemma {:induction false} LaterGroup(b: seq<Byte>, g: nat)
    requires |b| >= 3 && g > 0
    ensures ByteGroup(b, g) == ByteGroup(b[3..], g - 1)
    ensures CharGroup(Encode(b), g) == CharGroup(Encode(b[3..]), g - 1)
  {
    GroupFirst(b);
    LaterBytes(b, g);
    hide Group, Encode, CharGroup, ByteGroup;
    LaterChars(Group(b[0], b[1], b[2]), Encode(b[3..]), g);
  }

  /** There are just enough characters, and every group of four stands for the same number as its three bytes. */
  lemma {:induction false} EncodeGroups(b: seq<Byte>, g: nat)
    ensures |Encode(b)| == (4 * |b| + 2) / 3
    ensures CharGroup(Encode(b), g) == ByteGroup(b, g)
  {
    hide Digit, Char, CharGroup, ByteGroup;
    if b == [] {
      Nothing(g);
    } else if |b| >= 3 {
      EncodeGroups(b[3..], if g == 0 then 0 else g - 1);
      assert |Encode(b)| == 4 + |Encode(b[3..])|;
    }
    hide Encode;
    if b != [] && g == 0 {
      FirstGroup(b);
    } else if |b| >= 3 {
      LaterGroup(b, g);
    } else if b != [] {
      PastTheEnd(b, g);
    }
  }

  lemma {:induction false} Nothing(g: nat)
    ensures CharGroup(Encode([]), g) == ByteGroup([], g) == 0
  {
  }

  lemma {:induction false} PastTheEnd(b: seq<Byte>, g: nat)
    requires |b| < 3 && g > 0
    ensures CharGroup(Encode(b), g) == ByteGroup(b, g) == 0
  {
    hide Digit, Char;
  }

  /** Line breaks say nothing, wherever they stand. */
  lemma {:induction false} BreaksIgnored(a: string, b: string, c: char)
    requires c == '\r' || c == '\n'
    ensures Decode(a + [c] + b) == Decode(a + b)
  {
    WithoutBreaksAppend(a, [c] + b);
    WithoutBreaksAppend(a, b);
    assert a + [c] + b == a + ([c] + b) && ([c] + b)[1..] == b;
  }

  lemma {:induction false} WithoutBreaksAppend(a: string, b: string)
    ensures WithoutBreaks(a + b) == WithoutBreaks(a) + WithoutBreaks(b)
  {
    if a == "" {
      assert a + b == b;
    } else {
      assert (a + b)[1..] == a[1..] + b;
      WithoutBreaksAppend(a[1..], b);
    }
  }
}
