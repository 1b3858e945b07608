/**
 Display names and reply metadata: invisible runes dropped, whitespace folded to
 single spaces, and the result bounded in bytes.
 */
module DisplayText {
  import opened SafeText

  /** The runes a text keeps: spaces for folding, and everything neither control nor `ignorable`. */
  function Kept(s: string, ignorable: char -> bool): string {
    if s == "" then ""
    else
      var c := s[|s| - 1];
      var front := Kept(s[..|s| - 1], ignorable);
      if !IsSpace(c) && (IsControl(c) || ignorable(c)) then front else front + [c]
  }

  /** The maximal runs of non-space runes, in order. */
  function Words(s: string): (words: seq<string>)
    ensures s != "" && !IsSpace(s[|s| - 1]) ==> words != []
  {
    if s == "" then []
    else
      var front, c := s[..|s| - 1], s[|s| - 1];
      if IsSpace(c) then Words(front)
      else if front == "" || IsSpace(front[|front| - 1]) then Words(front) + [[c]]
      else
        var words := Words(front);
        words[..|words| - 1] + [words[|words| - 1] + [c]]
  }

  function JoinWords(words: seq<string>): string {
    if |words| == 0 then ""
    else if |words| == 1 then words[0]
    else JoinWords(words[..|words| - 1]) + " " + words[|words| - 1]
  }

  function Fold(s: string): string {
    JoinWords(Words(s))
  }

  /** What both sanitisers compute. */
  function Sanitized(value: string, ignorable: char -> bool, limit: nat): string {
    TrimSpace(CutToBytes(Fold(Kept(value, ignorable)), limit))
  }

  // ---------------------------------------------------------------- one more rune

  lemma JoinOneMore(words: seq<string>, w: string)
    ensures JoinWords(words + [w]) == if words == [] then w else JoinWords(words) + " " + w
  {
    assert (words + [w])[..|words|] == words;
  }

  lemma JoinLongerLast(front: seq<string>, last: string, c: char)
    ensures JoinWords(front + [last + [c]]) == JoinWords(front + [last]) + [c]
  {
    JoinOneMore(front, last + [c]);
    JoinOneMore(front, last);
  }

  /** How the folded text grows with its input. */
  lemma FoldOneMore(s: string, c: char)
    ensures Fold(s + [c]) ==
            if IsSpace(c) then Fold(s)
            else if Words(s) != [] && IsSpace(s[|s| - 1]) then Fold(s) + " " + [c]
            else Fold(s) + [c]
    ensures Words(s + [c]) == [] <==> Words(s) == [] && IsSpace(c)
  {
    assert (s + [c])[..|s|] == s;
    var words := Words(s);
    if !IsSpace(c) {
      if s == "" || IsSpace(s[|s| - 1]) {
        JoinOneMore(words, [c]);
      } else {
        JoinLongerLast(words[..|words| - 1], words[|words| - 1], c);
        assert words == words[..|words| - 1] + [words[|words| - 1]];
      }
    }
  }

  lemma {:induction false} WordsAreNonempty(s: string)
    ensures forall i :: 0 <= i < |Words(s)| ==> Words(s)[i] != ""
  {
    if s == "" {
      assert Words(s) == [];
    } else {
      WordsAreNonempty(s[..|s| - 1]);
    }
  }

  lemma {:induction false} FoldIsMonotone(s: string, t: string)
    ensures Fold(s) <= Fold(s + t)
  {
    if t == "" {
      assert s + t == s;
    } else {
      var front, c := t[..|t| - 1], t[|t| - 1];
      assert s + t == (s + front) + [c];
      FoldIsMonotone(s, front);
      FoldOneMore(s + front, c);
    }
  }

  lemma {:induction false} KeptOfConcat(s: string, t: string, ignorable: char -> bool)
    ensures Kept(s + t, ignorable) == Kept(s, ignorable) + Kept(t, ignorable)
  {
    if t == "" {
      assert s + t == s;
    } else {
      var front, c := t[..|t| - 1], t[|t| - 1];
      KeptOfConcat(s, front, ignorable);
      assert (s + t)[..|s + t| - 1] == s + front;
    }
  }

  lemma KeptOneMore(value: string, i: nat, ignorable: char -> bool)
    requires i < |value|
    ensures var c := value[i]; var kept := Kept(value[..i], ignorable);
      Kept(value[..i + 1], ignorable) ==
      if !IsSpace(c) && (IsControl(c) || ignorable(c)) then kept else kept + [c]
  {
    assert value[..i + 1][..i] == value[..i];
  }

  lemma FoldOfPrefix(value: string, i: nat, ignorable: char -> bool)
    requires i <= |value|
    ensures Fold(Kept(value[..i], ignorable)) <= Fold(Kept(value, ignorable))
  {
    assert value == value[..i] + value[i..];
    KeptOfConcat(value[..i], value[i..], ignorable);
    FoldIsMonotone(Kept(value[..i], ignorable), Kept(value[i..], ignorable));
  }

  /** Stopping because `next` would exceed the limit is cutting the whole folded text there. */
  lemma StopsAtLimit(whole: string, builder: string, next: char, limit: nat)
    requires builder + [next] <= whole
    requires ByteLen(builder) <= limit < ByteLen(builder) + RuneLen(next)
    ensures CutToBytes(whole, limit) == builder
  {
    ByteLenOneMore(builder, next);
    CutFallsAt(whole, builder, next, limit);
  }

  predicate EndsInSpace(s: string) {
    Words(s) != [] && IsSpace(s[|s| - 1])
  }

  /** What the loop knows: the runes so far are folded into the builder, and all of it fits. */
  predicate Folded(kept: string, builder: string, pendingSpace: bool, limit: nat) {
    builder == Fold(kept) && ByteLen(builder) <= limit && pendingSpace == EndsInSpace(kept)
  }

  lemma FoldedSpace(kept: string, builder: string, pendingSpace: bool, r: char, limit: nat)
    requires Folded(kept, builder, pendingSpace, limit) && IsSpace(r)
    ensures Folded(kept + [r], builder, pendingSpace || builder != "", limit)
  {
    FoldOneMore(kept, r);
    WordsAreNonempty(kept);
  }

  lemma FoldedAfterSpace(kept: string, builder: string, r: char, limit: nat)
    requires Folded(kept, builder, true, limit) && !IsSpace(r)
    ensures Fold(kept + [r]) == builder + " " + [r] && !EndsInSpace(kept + [r])
    ensures ByteLen(builder + " ") == ByteLen(builder) + 1
  {
    FoldOneMore(kept, r);
    ByteLenOfConcat(builder, " ");
  }

  lemma FoldedRune(kept: string, builder: string, r: char, limit: nat)
    requires Folded(kept, builder, false, limit) && !IsSpace(r)
    ensures Fold(kept + [r]) == builder + [r] && !EndsInSpace(kept + [r])
  {
    FoldOneMore(kept, r);
  }

  lemma WholeTextFits(value: string, ignorable: char -> bool, limit: nat)
    ensures value[..|value|] == value
    ensures var whole := Fold(Kept(value, ignorable)); ByteLen(whole) <= limit ==> CutToBytes(whole, limit) == whole
  {
    CutToBytesFits(Fold(Kept(value, ignorable)), limit);
  }

  /**
   SanitizeDisplayName and sanitizeMetadataText, which share this loop: one pass,
   a pending space, and a stop as soon as the next rune would not fit.
   */
  method Sanitize(value: string, ignorable: char -> bool, limit: nat) returns (result: string)
    ensures result == Sanitized(value, ignorable, limit)
  {
    var builder, pendingSpace := "", false;
    var i := 0;
    while i < |value|
      invariant 0 <= i <= |value|
      invariant Folded(Kept(value[..i], ignorable), builder, pendingSpace, limit)
    {
      var r := value[i];
      ghost var kept := Kept(value[..i], ignorable);
      ghost var whole := Fold(Kept(value, ignorable));
      KeptOneMore(value, i, ignorable);
      if IsSpace(r) {
        FoldedSpace(kept, builder, pendingSpace, r, limit);
        if builder != "" {
          pendingSpace := true;
        }
      } else if !(IsControl(r) || ignorable(r)) {
        FoldOfPrefix(value, i + 1, ignorable);
        if pendingSpace {
          FoldedAfterSpace(kept, builder, r, limit);
          if ByteLen(builder) + 1 > limit {
            StopsAtLimit(whole, builder, ' ', limit);
            return TrimSpace(builder);
          }
          builder := builder + " ";
          pendingSpace := false;
        } else {
          FoldedRune(kept, builder, r, limit);
        }
        ByteLenOneMore(builder, r);
        if ByteLen(builder) + RuneLen(r) > limit {
          StopsAtLimit(whole, builder, r, limit);
          return TrimSpace(builder);
        }
        builder := builder + [r];
      }
      i := i + 1;
    }
    WholeTextFits(value, ignorable, limit);
    return TrimSpace(builder);
  }

  // ---------------------------------------------------------------- what the result looks like

  /** Runes that are spaces or kept. */
  predicate Clean(s: string, ignorable: char -> bool) {
    forall i :: 0 <= i < |s| ==> IsSpace(s[i]) || (!IsControl(s[i]) && !ignorable(s[i]))
  }

  /** Every space is a blank, and none follows another. */
  predicate SingleBlanks(s: string) {
    && (forall i :: 0 <= i < |s| && IsSpace(s[i]) ==> s[i] == ' ')
    && (forall i, j :: 0 <= i < |s| && j == i + 1 < |s| && IsSpace(s[i]) ==> !IsSpace(s[j]))
  }

  /** No leading space, every space a single blank, and no rune that would be dropped. */
  predicate Tidy(s: string, ignorable: char -> bool) {
    (s != "" ==> !IsSpace(s[0])) && SingleBlanks(s) && Clean(s, ignorable)
  }

  lemma {:induction false} FoldIsTidy(s: string, ignorable: char -> bool)
    requires Clean(s, ignorable)
    ensures Tidy(Fold(s), ignorable) && Trimmed(Fold(s))
  {
    if s == "" {
    } else {
      var front, c := s[..|s| - 1], s[|s| - 1];
      assert s == front + [c];
      FoldIsTidy(front, ignorable);
      FoldOneMore(front, c);
      WordsAreNonempty(front);
      TidyOneMore(Fold(front), c, ignorable);
    }
  }

  lemma TidyOneMore(t: string, c: char, ignorable: char -> bool)
    requires Tidy(t, ignorable) && Trimmed(t) && Clean([c], ignorable)
    ensures !IsSpace(c) ==> Tidy(t + [c], ignorable) && Trimmed(t + [c])
    ensures !IsSpace(c) && t != "" ==> Tidy(t + " " + [c], ignorable) && Trimmed(t + " " + [c])
  {
    assert [c][0] == c;
  }

  lemma {:induction false} KeptIsClean(s: string, ignorable: char -> bool)
    ensures Clean(Kept(s, ignorable), ignorable)
  {
    if s == "" {
    } else {
      KeptIsClean(s[..|s| - 1], ignorable);
    }
  }

  lemma {:induction false} TidyIsKept(s: string, ignorable: char -> bool)
    requires Tidy(s, ignorable)
    ensures Kept(s, ignorable) == s
  {
    if s == "" {
    } else {
      TidyIsKept(s[..|s| - 1], ignorable);
      assert s == s[..|s| - 1] + [s[|s| - 1]];
    }
  }

  /** A text less its final blank. */
  function Unblanked(s: string): string {
    if s != "" && IsSpace(s[|s| - 1]) then s[..|s| - 1] else s
  }

  lemma UnblankedOneMore(front: string, c: char, ignorable: char -> bool)
    requires Tidy(front + [c], ignorable) && front != ""
    requires Fold(front) == Unblanked(front) && Words(front) != []
    ensures Fold(front + [c]) == Unblanked(front + [c]) && Words(front + [c]) != []
  {
    var s := front + [c];
    FoldOneMore(front, c);
    assert s[..|s| - 1] == front && s[|s| - 1] == c && s[|s| - 2] == front[|front| - 1];
    if !IsSpace(c) && IsSpace(front[|front| - 1]) {
      assert front == front[..|front| - 1] + " ";
    }
  }

  /** Folding a tidy text changes nothing but a final blank. */
  lemma {:induction false} TidyIsFolded(s: string, ignorable: char -> bool)
    requires Tidy(s, ignorable)
    ensures Fold(s) == Unblanked(s)
    ensures s != "" ==> Words(s) != []
  {
    if s == "" {
    } else {
      var front, c := s[..|s| - 1], s[|s| - 1];
      assert s == front + [c];
      TidyPrefix(front, s, ignorable);
      TidyIsFolded(front, ignorable);
      if front == "" {
        FoldOneMore(front, c);
      } else {
        UnblankedOneMore(front, c, ignorable);
      }
    }
  }

  lemma TrimOfTidy(s: string, ignorable: char -> bool)
    requires Tidy(s, ignorable)
    ensures TrimSpace(s) == Unblanked(s)
  {
    assert TrimLeft(s) == s;
    if s != "" && IsSpace(s[|s| - 1]) {
      var front := s[..|s| - 1];
      assert front[|front| - 1] == s[|s| - 2];
      assert TrimRight(front) == front;
    }
  }

  lemma TidyPrefix(s: string, t: string, ignorable: char -> bool)
    requires Tidy(t, ignorable) && s <= t
    ensures Tidy(s, ignorable)
  {
  }

  /** No leading, trailing or double space, nothing invisible, and within the limit. */
  lemma SanitizedIsTidy(value: string, ignorable: char -> bool, limit: nat)
    ensures var r := Sanitized(value, ignorable, limit);
      Tidy(r, ignorable) && Trimmed(r) && ByteLen(r) <= limit
  {
    var whole := Fold(Kept(value, ignorable));
    KeptIsClean(value, ignorable);
    FoldIsTidy(Kept(value, ignorable), ignorable);
    CutToBytesFits(whole, limit);
    var cut := CutToBytes(whole, limit);
    TidyPrefix(cut, whole, ignorable);
    TrimOfTidy(cut, ignorable);
    var r := TrimSpace(cut);
    TidyPrefix(r, cut, ignorable);
    assert cut == r + cut[|r|..];
    ByteLenOfConcat(r, cut[|r|..]);
  }

  /** Sanitising again changes nothing, and neither does sanitising what needs none. */
  lemma SanitizedIsFixed(value: string, ignorable: char -> bool, limit: nat)
    ensures Tidy(value, ignorable) && Trimmed(value) && ByteLen(value) <= limit
            ==> Sanitized(value, ignorable, limit) == value
    ensures var r := Sanitized(value, ignorable, limit); Sanitized(r, ignorable, limit) == r
  {
    TidyTextIsFixed(value, ignorable, limit);
    SanitizedIsTidy(value, ignorable, limit);
    TidyTextIsFixed(Sanitized(value, ignorable, limit), ignorable, limit);
  }

  lemma TidyTextIsFixed(s: string, ignorable: char -> bool, limit: nat)
    ensures Tidy(s, ignorable) && Trimmed(s) && ByteLen(s) <= limit ==> Sanitized(s, ignorable, limit) == s
  {
    if Tidy(s, ignorable) && Trimmed(s) && ByteLen(s) <= limit {
      TidyIsKept(s, ignorable);
      TidyIsFolded(s, ignorable);
      CutToBytesFits(s, limit);
      TrimOfTidy(s, ignorable);
    }
  }

  // ---------------------------------------------------------------- what the result says

  /** The runes of a text that are to be seen: neither space nor control nor `ignorable`, in their order. */
  function Shown(s: string, ignorable: char -> bool): string {
    if s == "" then ""
    else
      var (front, c) := (s[..|s| - 1], s[|s| - 1]);
      Shown(front, ignorable) + if IsSpace(c) || IsControl(c) || ignorable(c) then "" else [c]
  }

  lemma {:induction false} ShownOfConcat(s: string, t: string, ignorable: char -> bool)
    ensures Shown(s + t, ignorable) == Shown(s, ignorable) + Shown(t, ignorable)
  {
    if t == "" {
      assert s + t == s;
    } else {
      var front := t[..|t| - 1];
      ShownOfConcat(s, front, ignorable);
      assert (s + t)[..|s + t| - 1] == s + front;
    }
  }

  lemma ShownOneMore(s: string, c: char, ignorable: char -> bool)
    ensures Shown(s + [c], ignorable) ==
            Shown(s, ignorable) + if IsSpace(c) || IsControl(c) || ignorable(c) then "" else [c]
  {
    assert (s + [c])[..|s|] == s;
  }

  lemma {:induction false} FoldShows(s: string, ignorable: char -> bool)
    ensures Shown(Fold(s), ignorable) == Shown(s, ignorable)
  {
    if s == "" {
      assert Fold(s) == "";
    } else {
      var (front, c) := (s[..|s| - 1], s[|s| - 1]);
      assert s == front + [c];
      FoldShows(front, ignorable);
      FoldOneMore(front, c);
      ShownOneMore(front, c, ignorable);
      ShownOneMore(Fold(front), c, ignorable);
      ShownOneMore(Fold(front), ' ', ignorable);
      ShownOneMore(Fold(front) + " ", c, ignorable);
    }
  }

  lemma {:induction false} KeptShows(s: string, ignorable: char -> bool)
    ensures Shown(Kept(s, ignorable), ignorable) == Shown(s, ignorable)
  {
    if s == "" {
    } else {
      var (front, c) := (s[..|s| - 1], s[|s| - 1]);
      KeptShows(front, ignorable);
      ShownOneMore(Kept(front, ignorable), c, ignorable);
    }
  }

  /** What is to be seen of a text is seen of the sanitised one, in order, up to where it is cut; all of it, if it fits. */
  lemma SanitizedShows(value: string, ignorable: char -> bool, limit: nat)
    ensures var r := Sanitized(value, ignorable, limit);
      && Shown(r, ignorable) <= Shown(value, ignorable)
      && (ByteLen(Fold(Kept(value, ignorable))) <= limit ==> Shown(r, ignorable) == Shown(value, ignorable))
  {
    var whole := Fold(Kept(value, ignorable));
    KeptShows(value, ignorable);
    FoldShows(Kept(value, ignorable), ignorable);
    KeptIsClean(value, ignorable);
    FoldIsTidy(Kept(value, ignorable), ignorable);
    CutToBytesFits(whole, limit);
    var cut := CutToBytes(whole, limit);
    TidyPrefix(cut, whole, ignorable);
    TrimOfTidy(cut, ignorable);
    var r := Unblanked(cut);
    assert whole == r + whole[|r|..];
    ShownOfConcat(r, whole[|r|..], ignorable);
    if ByteLen(whole) <= limit {
      assert cut == whole && r == whole;
    }
  }
}
