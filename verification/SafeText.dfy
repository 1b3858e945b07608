/**
 Text as the store and the protocol bound it.  A Dafny `char` is a Unicode
 scalar value, so a `string` stands for the runes of a valid UTF-8 Go string;
 byte counts are those of its UTF-8 encoding.
 */
module SafeText {

  const MAX_SAFE_MESSAGE_BYTES := 1024
  const MAX_IDENTITY_BYTES := 256

  /** unicode.IsSpace */
  predicate IsSpace(c: char) {
    var v := c as int;
    || 0x09 <= v <= 0x0D || v == 0x20 || v == 0x85 || v == 0xA0
    || v == 0x1680 || 0x2000 <= v <= 0x200A || v == 0x2028 || v == 0x2029
    || v == 0x202F || v == 0x205F || v == 0x3000
  }

  /** unicode.IsControl */
  predicate IsControl(c: char) {
    var v := c as int;
    v <= 0x1F || 0x7F <= v <= 0x9F
  }

  /** utf8.RuneLen */
  function RuneLen(c: char): (n: nat)
    ensures 1 <= n <= 4
  {
    var v := c as int;
    if v < 0x80 then 1 else if v < 0x800 then 2 else if v < 0x1_0000 then 3 else 4
  }

  /** len of the UTF-8 encoding */
  function ByteLen(s: string): nat {
    if s == "" then 0 else RuneLen(s[0]) + ByteLen(s[1..])
  }

  function TrimLeft(s: string): (r: string)
    ensures |r| <= |s|
    ensures r != "" ==> !IsSpace(r[0])
  {
    if s == "" || !IsSpace(s[0]) then s else TrimLeft(s[1..])
  }

  function TrimRight(s: string): (r: string)
    ensures |r| <= |s|
    ensures r != "" ==> r[0] == s[0]
    ensures r != "" ==> !IsSpace(r[|r| - 1])
  {
    if s == "" || !IsSpace(s[|s| - 1]) then s else TrimRight(s[..|s| - 1])
  }

  /** strings.TrimSpace */
  function TrimSpace(s: string): (r: string)
    ensures Trimmed(r)
  {
    TrimRight(TrimLeft(s))
  }

  predicate Trimmed(s: string) {
    s != "" ==> !IsSpace(s[0]) && !IsSpace(s[|s| - 1])
  }

  lemma TrimSpaceOfTrimmed(s: string)
    requires Trimmed(s)
    ensures TrimSpace(s) == s
  {
  }

  /** The strings.Map of the message sanitisers: every control rune but newline and tab goes. */
  function DropControls(s: string): string {
    if s == "" then ""
    else (if IsControl(s[0]) && s[0] != '\n' && s[0] != '\t' then "" else [s[0]]) + DropControls(s[1..])
  }

  /** The longest prefix whose encoding fits in `limit` bytes. */
  function CutToBytes(s: string, limit: nat): (r: string)
    ensures |r| <= |s|
  {
    if s == "" || RuneLen(s[0]) > limit then ""
    else [s[0]] + CutToBytes(s[1..], limit - RuneLen(s[0]))
  }

  lemma {:induction false} CutToBytesFits(s: string, limit: nat)
    ensures CutToBytes(s, limit) <= s && ByteLen(CutToBytes(s, limit)) <= limit
    ensures ByteLen(s) <= limit ==> CutToBytes(s, limit) == s
  {
    if s == "" || RuneLen(s[0]) > limit {
    } else {
      CutToBytesFits(s[1..], limit - RuneLen(s[0]));
      assert CutToBytes(s, limit)[1..] == CutToBytes(s[1..], limit - RuneLen(s[0]));
      assert s == [s[0]] + s[1..];
    }
  }

  /** No prefix that fits is longer, so the name is deserved. */
  lemma {:induction false} CutToBytesIsLongest(s: string, limit: nat, n: nat)
    requires n <= |s| && ByteLen(s[..n]) <= limit
    ensures n <= |CutToBytes(s, limit)|
  {
    if n == 0 {
    } else {
      assert s[..n][0] == s[0] && s[..n][1..] == s[1..][..n - 1];
      CutToBytesIsLongest(s[1..], limit - RuneLen(s[0]), n - 1);
    }
  }

  /** What is given up is less than one rune. */
  lemma {:induction false} CutGivesUpLessThanARune(s: string, limit: nat)
    requires limit < ByteLen(s)
    ensures limit - 3 <= ByteLen(CutToBytes(s, limit)) <= limit
  {
    if RuneLen(s[0]) > limit {
    } else {
      CutGivesUpLessThanARune(s[1..], limit - RuneLen(s[0]));
      assert CutToBytes(s, limit)[1..] == CutToBytes(s[1..], limit - RuneLen(s[0]));
    }
  }

  /** A tighter limit that the cut already meets cuts nothing more. */
  lemma {:induction false} CutIsTheSameBelow(s: string, m: nat, n: nat)
    requires ByteLen(CutToBytes(s, n)) <= m <= n
    ensures CutToBytes(s, m) == CutToBytes(s, n)
  {
    if s == "" || RuneLen(s[0]) > n {
    } else {
      var k := RuneLen(s[0]);
      assert CutToBytes(s, n)[1..] == CutToBytes(s[1..], n - k);
      CutIsTheSameBelow(s[1..], m - k, n - k);
    }
  }

  /** The store's normalizeSafeMessage. */
  function NormalizeSafeMessage(message: string): string {
    CutToBytes(DropControls(TrimSpace(message)), MAX_SAFE_MESSAGE_BYTES)
  }

  predicate HasControl(s: string) {
    exists i :: 0 <= i < |s| && IsControl(s[i])
  }

  lemma {:induction false} ByteLenOfConcat(s: string, t: string)
    ensures ByteLen(s + t) == ByteLen(s) + ByteLen(t)
  {
    if s == "" {
      assert s + t == t;
    } else {
      ByteLenOfConcat(s[1..], t);
      assert (s + t)[1..] == s[1..] + t;
    }
  }

  lemma ByteLenOneMore(s: string, c: char)
    ensures ByteLen(s + [c]) == ByteLen(s) + RuneLen(c)
  {
    ByteLenOfConcat(s, [c]);
  }

  /** A prefix that fits, followed by a rune that no longer does, is where the cut falls. */
  lemma {:induction false} CutFallsAt(s: string, p: string, c: char, limit: nat)
    requires p + [c] <= s && ByteLen(p) <= limit < ByteLen(p + [c])
    ensures CutToBytes(s, limit) == p
  {
    if p == "" {
      assert (p + [c])[0] == s[0];
    } else {
      assert p[0] == s[0] && (p + [c])[1..] == p[1..] + [c];
      assert p == [p[0]] + p[1..];
      CutFallsAt(s[1..], p[1..], c, limit - RuneLen(s[0]));
    }
  }
}
