/**
 UTF-8 as section 3 of RFC 3629 defines it and Go's utf8.ValidString recognises it,
 and the two loops that shorten a message without splitting a rune.
 */
module Utf8 {
  import opened SafeText

  type Byte = b: int | 0 <= b < 0x100

  function Encode(c: char): (bytes: seq<Byte>)
    ensures |bytes| == RuneLen(c)
  {
    var v := c as int;
    if v < 0x80 then [v]
    else if v < 0x800 then [0xC0 + v / 0x40, 0x80 + v % 0x40]
    else if v < 0x1_0000 then [0xE0 + v / 0x1000, 0x80 + v / 0x40 % 0x40, 0x80 + v % 0x40]
    else [0xF0 + v / 0x4_0000, 0x80 + v / 0x1000 % 0x40, 0x80 + v / 0x40 % 0x40, 0x80 + v % 0x40]
  }

  function EncodeAll(s: string): seq<Byte> {
    if s == "" then [] else Encode(s[0]) + EncodeAll(s[1..])
  }

  predicate Continues(b: Byte) {
    0x80 <= b <= 0xBF
  }

  /** How many bytes the first well-formed rune takes, or 0 if there is none. */
  function Head(b: seq<Byte>): (n: nat)
    ensures n <= |b| && n <= 4
  {
    if |b| >= 1 && b[0] < 0x80 then 1
    else if |b| >= 2 && 0xC2 <= b[0] <= 0xDF && Continues(b[1]) then 2
    else if |b| >= 3 && 0xE0 <= b[0] <= 0xEF && Continues(b[1]) && Continues(b[2])
            && (b[0] == 0xE0 ==> 0xA0 <= b[1]) && (b[0] == 0xED ==> b[1] <= 0x9F) then 3
    else if |b| >= 4 && 0xF0 <= b[0] <= 0xF4 && Continues(b[1]) && Continues(b[2]) && Continues(b[3])
            && (b[0] == 0xF0 ==> 0x90 <= b[1]) && (b[0] == 0xF4 ==> b[1] <= 0x8F) then 4
    else 0
  }

  /** utf8.ValidString */
  predicate ValidString(b: seq<Byte>) {
    b == [] || (Head(b) > 0 && ValidString(b[Head(b)..]))
  }

  /** What a byte adds to the rune, less its marker. */
  function Payload(b: Byte, marker: int): int {
    b - marker
  }

  /** The rune that the first well-formed bytes encode. */
  function DecodeHead(b: seq<Byte>): char
    requires Head(b) > 0
  {
    if Head(b) == 1 then b[0] as char
    else if Head(b) == 2 then (Payload(b[0], 0xC0) * 0x40 + Payload(b[1], 0x80)) as char
    else if Head(b) == 3 then
      (Payload(b[0], 0xE0) * 0x1000 + Payload(b[1], 0x80) * 0x40 + Payload(b[2], 0x80)) as char
    else
      (Payload(b[0], 0xF0) * 0x4_0000 + Payload(b[1], 0x80) * 0x1000 + Payload(b[2], 0x80) * 0x40
       + Payload(b[3], 0x80)) as char
  }

  function Decode(b: seq<Byte>): string
    requires ValidString(b)
  {
    if b == [] then "" else [DecodeHead(b)] + Decode(b[Head(b)..])
  }

  lemma HeadOfEncode(c: char, rest: seq<Byte>)
    ensures Head(Encode(c) + rest) == RuneLen(c)
    ensures DecodeHead(Encode(c) + rest) == c
  {
    var v, b := c as int, Encode(c) + rest;
    assert forall i :: 0 <= i < RuneLen(c) ==> b[i] == Encode(c)[i];
    assert v / 0x1000 == v / 0x40 / 0x40 && v / 0x4_0000 == v / 0x1000 / 0x40;
  }

  /** An encoding that stops short begins no rune. */
  lemma NoHeadInPart(c: char, n: nat)
    requires 0 < n < RuneLen(c)
    ensures Head(Encode(c)[..n]) == 0
  {
  }

  lemma SixBits(high: int, low: int)
    requires 0 <= low < 0x40
    ensures (high * 0x40 + low) / 0x40 == high && (high * 0x40 + low) % 0x40 == low
  {
  }

  lemma EncodeOfThree(b: seq<Byte>)
    requires Head(b) == 3
    ensures Encode(DecodeHead(b)) == b[..3]
  {
    var high := (b[0] as int - 0xE0) * 0x40 + (b[1] as int - 0x80);
    SixBits(high, b[2] as int - 0x80);
    SixBits(b[0] as int - 0xE0, b[1] as int - 0x80);
    var v := DecodeHead(b) as int;
    assert v / 0x40 == high && v / 0x1000 == high / 0x40;
  }

  lemma EncodeOfFour(b: seq<Byte>)
    requires Head(b) == 4
    ensures Encode(DecodeHead(b)) == b[..4]
  {
    var top := (b[0] as int - 0xF0) * 0x40 + (b[1] as int - 0x80);
    var high := top * 0x40 + (b[2] as int - 0x80);
    SixBits(high, b[3] as int - 0x80);
    SixBits(top, b[2] as int - 0x80);
    SixBits(b[0] as int - 0xF0, b[1] as int - 0x80);
    var v := DecodeHead(b) as int;
    assert v / 0x40 == high && v / 0x1000 == high / 0x40 && v / 0x4_0000 == high / 0x40 / 0x40;
  }

  lemma EncodeOfDecodeHead(b: seq<Byte>)
    requires Head(b) > 0
    ensures Encode(DecodeHead(b)) == b[..Head(b)]
  {
    if Head(b) == 2 {
      SixBits(b[0] as int - 0xC0, b[1] as int - 0x80);
    } else if Head(b) == 3 {
      EncodeOfThree(b);
    } else if Head(b) == 4 {
      EncodeOfFour(b);
    }
  }

  lemma {:induction false} EncodedLength(s: string)
    ensures |EncodeAll(s)| == ByteLen(s)
  {
    if s == "" {
    } else {
      EncodedLength(s[1..]);
    }
  }

  /** Valid strings are exactly the encodings, each of one text. */
  lemma {:induction false} DecodeOfEncode(s: string)
    ensures ValidString(EncodeAll(s)) && Decode(EncodeAll(s)) == s
  {
    if s == "" {
    } else {
      DecodeOfEncode(s[1..]);
      HeadOfEncode(s[0], EncodeAll(s[1..]));
      assert EncodeAll(s)[RuneLen(s[0])..] == EncodeAll(s[1..]);
    }
  }

  lemma {:induction false} EncodeOfDecode(b: seq<Byte>)
    requires ValidString(b)
    ensures EncodeAll(Decode(b)) == b
  {
    if b == [] {
      assert Decode(b) == "";
    } else {
      var rest := b[Head(b)..];
      EncodeOfDecode(rest);
      EncodeOfDecodeHead(b);
      assert Decode(b) == [DecodeHead(b)] + Decode(rest);
      assert Decode(b)[1..] == Decode(rest);
      assert b == b[..Head(b)] + rest;
    }
  }

  // ---------------------------------------------------------------- cutting

  /** A prefix of an encoding is valid exactly when it ends between two runes. */
  lemma {:induction false} ValidPrefixes(s: string, n: nat)
    requires n <= ByteLen(s) == |EncodeAll(s)|
    ensures ValidString(EncodeAll(s)[..n]) <==> ByteLen(CutToBytes(s, n)) == n
  {
    if s == "" {
    } else {
      var (b, k) := (EncodeAll(s), RuneLen(s[0]));
      EncodedLength(s[1..]);
      if n < k {
        assert b[..n] == Encode(s[0])[..n];
        if n > 0 { NoHeadInPart(s[0], n); }
      } else {
        assert b[..n] == Encode(s[0]) + EncodeAll(s[1..])[..n - k];
        HeadOfEncode(s[0], EncodeAll(s[1..])[..n - k]);
        assert b[..n][k..] == EncodeAll(s[1..])[..n - k];
        ValidPrefixes(s[1..], n - k);
        assert CutToBytes(s, n)[1..] == CutToBytes(s[1..], n - k);
      }
    }
  }

  /** The length of the longest valid prefix of at most `n` bytes. */
  function ValidLength(b: seq<Byte>, n: nat): (m: nat)
    requires n <= |b|
    ensures m <= n && ValidString(b[..m])
    ensures forall i :: m < i <= n ==> !ValidString(b[..i])
  {
    if n == 0 || ValidString(b[..n]) then n else ValidLength(b, n - 1)
  }

  lemma {:induction false} ValidLengthOfEncoding(s: string, n: nat)
    requires n <= ByteLen(s) == |EncodeAll(s)|
    ensures ValidLength(EncodeAll(s), n) == ByteLen(CutToBytes(s, n))
  {
    ValidPrefixes(s, n);
    CutToBytesFits(s, n);
    if n == 0 || ValidString(EncodeAll(s)[..n]) {
    } else {
      ValidLengthOfEncoding(s, n - 1);
      CutIsTheSameBelow(s, n - 1, n);
    }
  }

  lemma {:induction false} EncodingOfPrefix(s: string, p: string)
    requires p <= s
    ensures EncodeAll(p) <= EncodeAll(s)
  {
    if p == "" {
    } else {
      EncodingOfPrefix(s[1..], p[1..]);
      var (b, k) := (EncodeAll(p[1..]), |Encode(p[0])|);
      assert p[0] == s[0];
      assert EncodeAll(s)[..|EncodeAll(p)|] == Encode(p[0]) + EncodeAll(s[1..])[..|b|];
    }
  }

  /** Cutting the bytes of a text at the longest valid prefix is cutting the text between runes. */
  lemma CutOfEncoding(s: string, n: nat)
    requires n < |EncodeAll(s)|
    ensures EncodeAll(s)[..ValidLength(EncodeAll(s), n)] == EncodeAll(CutToBytes(s, n))
    ensures n - 3 <= ValidLength(EncodeAll(s), n)
  {
    EncodedLength(s);
    ValidLengthOfEncoding(s, n);
    CutGivesUpLessThanARune(s, n);
    CutToBytesFits(s, n);
    EncodedLength(CutToBytes(s, n));
    EncodingOfPrefix(s, CutToBytes(s, n));
  }

  /** What both loops leave of a message. */
  function Cut(message: seq<Byte>, limit: nat): seq<Byte> {
    if |message| <= limit then message else message[..ValidLength(message, limit)]
  }

  lemma CutIsCutToBytes(s: string, limit: nat)
    ensures Cut(EncodeAll(s), limit) == EncodeAll(CutToBytes(s, limit))
  {
    EncodedLength(s);
    CutToBytesFits(s, limit);
    if limit < |EncodeAll(s)| {
      CutOfEncoding(s, limit);
    }
  }

  /** For any valid message: a valid prefix, the longest within the limit, at most three bytes below it. */
  lemma CutIsLongest(message: seq<Byte>, limit: nat, n: nat)
    requires ValidString(message) && n <= |message| && n <= limit && ValidString(message[..n])
    ensures var r := Cut(message, limit);
      && r <= message && |r| <= limit && ValidString(r) && n <= |r|
      && (limit < |message| ==> limit - 3 <= |r|)
  {
    if limit < |message| {
      EncodeOfDecode(message);
      CutOfEncoding(Decode(message), limit);
    }
  }

  /** The end of the store's normalizeSafeMessage; it ends because nothing at all is valid. */
  method CutStored(message: seq<Byte>, limit: nat) returns (r: seq<Byte>)
    ensures r == Cut(message, limit)
  {
    r := message;
    if |r| <= limit {
      return;
    }
    r := r[..limit];
    while !ValidString(r)
      invariant |r| <= limit && r == message[..|r|]
      invariant ValidLength(message, |r|) == ValidLength(message, limit)
      decreases |r|
    {
      r := r[..|r| - 1];
    }
  }

  /** The end of the protocol's SanitizeMessage, where a limit of zero or less means none. */
  method CutSanitized(message: seq<Byte>, limit: int) returns (r: seq<Byte>)
    ensures r == if limit > 0 then Cut(message, limit) else message
  {
    r := message;
    if limit > 0 && |r| > limit {
      r := r[..limit];
      while !ValidString(r) && |r| > 0
        invariant |r| <= limit && r == message[..|r|]
        invariant ValidLength(message, |r|) == ValidLength(message, limit)
        decreases |r|
      {
        r := r[..|r| - 1];
      }
    }
  }

  /** normalizeSafeMessage, down to the bytes that are stored. */
  method NormalizeStored(message: string) returns (r: seq<Byte>)
    ensures r == EncodeAll(NormalizeSafeMessage(message)) && |r| <= MAX_SAFE_MESSAGE_BYTES
  {
    var kept := DropControls(TrimSpace(message));
    r := CutStored(EncodeAll(kept), MAX_SAFE_MESSAGE_BYTES);
    CutIsCutToBytes(kept, MAX_SAFE_MESSAGE_BYTES);
    CutToBytesFits(kept, MAX_SAFE_MESSAGE_BYTES);
    EncodedLength(NormalizeSafeMessage(message));
  }

  /** SanitizeMessage agrees with the store's normalisation at the store's limit. */
  method SanitizeMessage(message: string, limit: int) returns (r: seq<Byte>)
    ensures limit > 0 ==> |r| <= limit && r == EncodeAll(CutToBytes(DropControls(TrimSpace(message)), limit))
    ensures limit <= 0 ==> r == EncodeAll(DropControls(TrimSpace(message)))
    ensures limit == MAX_SAFE_MESSAGE_BYTES ==> r == EncodeAll(NormalizeSafeMessage(message))
  {
    var kept := DropControls(TrimSpace(message));
    r := CutSanitized(EncodeAll(kept), limit);
    if limit > 0 {
      CutIsCutToBytes(kept, limit);
      CutToBytesFits(kept, limit);
      EncodedLength(CutToBytes(kept, limit));
    }
  }
}
