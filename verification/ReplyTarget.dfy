/** The compact reply target: printed on ingress, parsed back on egress. */
module ReplyTarget {
  import opened Prelude
  import opened SafeText
  import opened Decimal

  const CONFORMANCE := "conformance"

  datatype Target = Target(chatId: int, threadId: int, messageId: int) {
    /** Target.Validate, on values of Go's int64. */
    predicate Valid() {
      && IsInt64(chatId) && IsInt64(threadId) && IsInt64(messageId)
      && chatId != 0 && threadId >= 0 && messageId >= 0
    }
  }

  /** strings.Split on one byte */
  function Split(s: string, sep: char): (parts: seq<string>)
    ensures |parts| >= 1
  {
    if s == "" then [""]
    else
      var rest := Split(s[1..], sep);
      if s[0] == sep then [""] + rest else [[s[0]] + rest[0]] + rest[1..]
  }

  function Join(parts: seq<string>, sep: char): string
    requires |parts| >= 1
  {
    if |parts| == 1 then parts[0] else parts[0] + [sep] + Join(parts[1..], sep)
  }

  lemma {:induction false} JoinOfSplit(s: string, sep: char)
    ensures Join(Split(s, sep), sep) == s
  {
    if s == "" {
    } else {
      JoinOfSplit(s[1..], sep);
      var rest := Split(s[1..], sep);
      if s[0] == sep {
        assert Split(s, sep)[1..] == rest;
      } else {
        assert Split(s, sep)[1..] == rest[1..];
      }
    }
  }

  lemma {:induction false} SplitOfPiece(piece: string, rest: string, sep: char)
    requires sep !in piece
    ensures Split(piece + [sep] + rest, sep) == [piece] + Split(rest, sep)
  {
    var s := piece + [sep] + rest;
    if piece == "" {
      assert s[1..] == rest;
    } else {
      assert s[1..] == piece[1..] + [sep] + rest;
      SplitOfPiece(piece[1..], rest, sep);
      assert s[0] == piece[0] && piece[0] in piece;
      assert [piece[0]] + piece[1..] == piece;
      assert ([piece[1..]] + Split(rest, sep))[1..] == Split(rest, sep);
    }
  }

  lemma {:induction false} SplitOfLast(piece: string, sep: char)
    requires sep !in piece
    ensures Split(piece, sep) == [piece]
  {
    if piece == "" {
    } else {
      SplitOfLast(piece[1..], sep);
      assert piece[0] in piece;
      assert [piece[0]] + piece[1..] == piece;
    }
  }

  lemma {:induction false} SplitOfJoin(parts: seq<string>, sep: char)
    requires |parts| >= 1 && forall i :: 0 <= i < |parts| ==> sep !in parts[i]
    ensures Split(Join(parts, sep), sep) == parts
  {
    if |parts| == 1 {
      SplitOfLast(parts[0], sep);
    } else {
      SplitOfJoin(parts[1..], sep);
      SplitOfPiece(parts[0], Join(parts[1..], sep), sep);
    }
  }

  /** FormatReplyTarget */
  function Format(t: Target): string {
    "tg:v1:" + FormatInt(t.chatId) + ":" + FormatInt(t.threadId) + ":" + FormatInt(t.messageId)
  }

  function ParseParts(parts: seq<string>): Option<Target> {
    if |parts| != 5 || parts[0] != "tg" || parts[1] != "v1" then None
    else
      var chat := ParseCanonical(parts[2]);
      var thread := ParseCanonical(parts[3]);
      var message := ParseCanonical(parts[4]);
      if chat.None? || thread.None? || message.None? then None
      else
        var t := Target(chat.value, thread.value, message.value);
        if t.Valid() then Some(t) else None
  }

  /** ParseReplyTarget */
  function Parse(text: string, conformanceChatId: int): Option<Target> {
    var value := TrimSpace(text);
    if value == CONFORMANCE then
      var t := Target(conformanceChatId, 0, 0);
      if t.Valid() then Some(t) else None
    else ParseParts(Split(value, ':'))
  }

  function Pieces(t: Target): seq<string> {
    ["tg", "v1", FormatInt(t.chatId), FormatInt(t.threadId), FormatInt(t.messageId)]
  }

  /** A printed target is five pieces joined by colons. */
  lemma FormatIsJoin(t: Target)
    ensures Format(t) == Join(Pieces(t), ':')
  {
    JoinFive(Pieces(t), ':');
  }

  lemma SplitOfFormat(t: Target)
    ensures Split(Format(t), ':') == Pieces(t)
  {
    FormatIsJoin(t);
    FormatIntShape(t.chatId);
    FormatIntShape(t.threadId);
    FormatIntShape(t.messageId);
    var parts := Pieces(t);
    forall i | 0 <= i < |parts| ensures ':' !in parts[i] {
      if i >= 2 {
        assert forall j :: 0 <= j < |parts[i]| ==> IsDecimalChar(parts[i][j]);
      }
    }
    SplitOfJoin(parts, ':');
  }

  lemma FormatIsTrimmed(t: Target)
    ensures TrimSpace(Format(t)) == Format(t) && Format(t) != CONFORMANCE
  {
    var m := FormatInt(t.messageId);
    FormatIntShape(t.messageId);
    assert Format(t)[|Format(t)| - 1] == m[|m| - 1];
    assert IsDecimalChar(m[|m| - 1]);
    assert Format(t)[0] == 't';
    TrimSpaceOfTrimmed(Format(t));
  }

  lemma PrintedPieceParses(n: int)
    requires IsInt64(n)
    ensures ParseCanonical(FormatInt(n)) == Some(n)
  {
    CanonicalRoundTrip(FormatInt(n), n);
  }

  lemma FivePiecesParse(parts: seq<string>, t: Target)
    requires |parts| == 5 && parts[0] == "tg" && parts[1] == "v1"
    requires ParseCanonical(parts[2]) == Some(t.chatId)
    requires ParseCanonical(parts[3]) == Some(t.threadId)
    requires ParseCanonical(parts[4]) == Some(t.messageId)
    ensures ParseParts(parts) == if t.Valid() then Some(t) else None
  {
  }

  lemma PrintedPiecesParse(t: Target)
    requires IsInt64(t.chatId) && IsInt64(t.threadId) && IsInt64(t.messageId)
    ensures ParseParts(Pieces(t)) == if t.Valid() then Some(t) else None
  {
    PrintedPieceParses(t.chatId);
    PrintedPieceParses(t.threadId);
    PrintedPieceParses(t.messageId);
    FivePiecesParse(Pieces(t), t);
  }

  /** A printed target parses exactly when it is valid, and then to itself. */
  lemma TargetRoundTrip(t: Target, conformanceChatId: int)
    requires IsInt64(t.chatId) && IsInt64(t.threadId) && IsInt64(t.messageId)
    ensures Parse(Format(t), conformanceChatId) == if t.Valid() then Some(t) else None
  {
    FormatIsTrimmed(t);
    SplitOfFormat(t);
    PrintedPiecesParse(t);
  }

  lemma ParsedPiecesArePrinted(parts: seq<string>)
    ensures var t := ParseParts(parts); t.Some? ==> t.value.Valid() && parts == Pieces(t.value)
  {
    var t := ParseParts(parts);
    if t.Some? {
      CanonicalRoundTrip(parts[2], t.value.chatId);
      CanonicalRoundTrip(parts[3], t.value.threadId);
      CanonicalRoundTrip(parts[4], t.value.messageId);
      assert parts[2] == FormatInt(t.value.chatId);
      assert parts[3] == FormatInt(t.value.threadId);
      assert parts[4] == FormatInt(t.value.messageId);
      assert parts == [parts[0], parts[1], parts[2], parts[3], parts[4]];
    }
  }

  /** Only one spelling of a target is accepted, up to surrounding space: the printed one. */
  lemma FormatOfParse(text: string, conformanceChatId: int)
    requires TrimSpace(text) != CONFORMANCE
    ensures var t := Parse(text, conformanceChatId);
      t.Some? ==> t.value.Valid() && Format(t.value) == TrimSpace(text)
  {
    var value := TrimSpace(text);
    var t := ParseParts(Split(value, ':'));
    assert Parse(text, conformanceChatId) == t;
    ParsedPiecesArePrinted(Split(value, ':'));
    if t.Some? {
      FormatIsJoin(t.value);
      JoinOfSplit(value, ':');
    }
  }

  lemma JoinFive(parts: seq<string>, sep: char)
    requires |parts| == 5
    ensures Join(parts, sep) ==
            parts[0] + [sep] + (parts[1] + [sep] + (parts[2] + [sep] + (parts[3] + [sep] + parts[4])))
  {
    assert Join(parts[4..], sep) == parts[4];
    assert parts[3..][1..] == parts[4..];
    assert Join(parts[3..], sep) == parts[3] + [sep] + parts[4];
    assert parts[2..][1..] == parts[3..];
    assert Join(parts[2..], sep) == parts[2] + [sep] + (parts[3] + [sep] + parts[4]);
    assert parts[1..][1..] == parts[2..];
    assert Join(parts[1..], sep) == parts[1] + [sep] + (parts[2] + [sep] + (parts[3] + [sep] + parts[4]));
  }
}
