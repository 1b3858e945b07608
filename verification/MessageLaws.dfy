/** What is left of a message that is stored or shown: said of the runes themselves, not of the steps that get there. */
module MessageLaws {
  import opened SafeText

  /** A control rune other than newline and tab. */
  predicate Unsafe(c: char) {
    var v := c as int;
    (v < 0x20 && v != 0x09 && v != 0x0A) || 0x7F <= v <= 0x9F
  }

  ghost predicate Safe(s: string) {
    forall i :: 0 <= i < |s| ==> !Unsafe(s[i])
  }

  // ---------------------------------------------------------------- trimming

  lemma {:induction false} TrimLeftDropsSpaces(s: string) returns (a: nat)
    ensures a <= |s| && TrimLeft(s) == s[a..] && forall i :: 0 <= i < a ==> IsSpace(s[i])
  {
    if s == "" || !IsSpace(s[0]) {
      a := 0;
    } else {
      var n := TrimLeftDropsSpaces(s[1..]);
      a := n + 1;
      assert s[1..][n..] == s[a..];
      assert forall i :: 0 < i < a ==> s[i] == s[1..][i - 1];
    }
  }

  lemma {:induction false} TrimRightDropsSpaces(s: string) returns (b: nat)
    ensures b <= |s| && TrimRight(s) == s[..b] && forall i :: b <= i < |s| ==> IsSpace(s[i])
  {
    if s == "" || !IsSpace(s[|s| - 1]) {
      b := |s|;
      assert s[..b] == s;
    } else {
      b := TrimRightDropsSpaces(s[..|s| - 1]);
      assert s[..|s| - 1][..b] == s[..b];
    }
  }

  /** TrimSpace takes the spaces off both ends, and nothing else. */
  lemma TrimSpaceIsTheMiddle(s: string) returns (a: nat, b: nat)
    ensures a <= b <= |s| && TrimSpace(s) == s[a..b] && Trimmed(s[a..b])
    ensures forall i :: 0 <= i < a || b <= i < |s| ==> IsSpace(s[i])
  {
    a := TrimLeftDropsSpaces(s);
    var n := TrimRightDropsSpaces(s[a..]);
    b := a + n;
    assert s[a..][..n] == s[a..b];
    forall i | b <= i < |s| ensures IsSpace(s[i]) {
      assert s[i] == s[a..][i - a];
    }
  }

  // ---------------------------------------------------------------- dropping control runes

  lemma DropOne(s: string)
    requires s != ""
    ensures DropControls(s) == (if Unsafe(s[0]) then "" else [s[0]]) + DropControls(s[1..])
  {
  }

  /** What is kept of two texts one after the other is what is kept of each, one after the other. */
  lemma {:induction false} DropControlsOfConcat(s: string, t: string)
    ensures DropControls(s + t) == DropControls(s) + DropControls(t)
  {
    if s == "" {
      assert s + t == t;
    } else {
      DropControlsOfConcat(s[1..], t);
      assert (s + t)[0] == s[0] && (s + t)[1..] == s[1..] + t;
      DropOne(s);
      DropOne(s + t);
    }
  }

  /** `r` is made of exactly the runes of `s` that are not unsafe, in their order: those at positions `at`. */
  ghost predicate Sieved(s: string, r: string, at: seq<nat>) {
    && |at| == |r|
    && (forall i, j :: 0 <= i < j < |at| ==> at[i] < at[j])
    && (forall i :: 0 <= i < |at| ==> at[i] < |s| && r[i] == s[at[i]] && !Unsafe(s[at[i]]))
    && (forall j: nat :: j < |s| && !Unsafe(s[j]) ==> j in at)
  }

  lemma {:induction false} DropControlsSieves(s: string) returns (at: seq<nat>)
    ensures Sieved(s, DropControls(s), at)
  {
    if s == "" {
      at := [];
    } else {
      var front, c := s[..|s| - 1], s[|s| - 1];
      assert s == front + [c];
      DropControlsOfConcat(front, [c]);
      var before := DropControlsSieves(front);
      at := before + if Unsafe(c) then [] else [|front|];
      DropOne([c]);
      SieveOneMore(front, DropControls(front), before, c);
    }
  }

  lemma SieveOneMore(s: string, r: string, at: seq<nat>, c: char)
    requires Sieved(s, r, at)
    ensures Sieved(s + [c], r + (if Unsafe(c) then "" else [c]), at + if Unsafe(c) then [] else [|s|])
  {
    if !Unsafe(c) {
      assert (at + [|s|])[|at|] == |s|;
    }
    assert forall j :: j in at ==> j in at + [|s|];
  }

  lemma {:induction false} SafeTextIsKept(s: string)
    requires Safe(s)
    ensures DropControls(s) == s
  {
    if s == "" {
    } else {
      SafeTextIsKept(s[1..]);
    }
  }

  // ---------------------------------------------------------------- the whole

  /**
   A normalised message is what one gets by taking the spaces off both ends, keeping
   all that is not an unsafe control rune, in order, and then as much of its
   beginning as fits in 1024 bytes.
   */
  lemma NormalizedMessageIs(message: string) returns (a: nat, b: nat, kept: string, at: seq<nat>)
    ensures a <= b <= |message| && Trimmed(message[a..b])
    ensures forall i :: 0 <= i < a || b <= i < |message| ==> IsSpace(message[i])
    ensures Sieved(message[a..b], kept, at)
    ensures var r := NormalizeSafeMessage(message);
      && r <= kept && ByteLen(r) <= 1024
      && forall n: nat :: n <= |kept| && ByteLen(kept[..n]) <= 1024 ==> n <= |r|
  {
    a, b := TrimSpaceIsTheMiddle(message);
    kept := DropControls(message[a..b]);
    at := DropControlsSieves(message[a..b]);
    CutToBytesFits(kept, MAX_SAFE_MESSAGE_BYTES);
    forall n: nat | n <= |kept| && ByteLen(kept[..n]) <= 1024 ensures n <= |NormalizeSafeMessage(message)| {
      CutToBytesIsLongest(kept, MAX_SAFE_MESSAGE_BYTES, n);
    }
  }

  lemma NormalizedMessageIsSafe(message: string)
    ensures Safe(NormalizeSafeMessage(message)) && ByteLen(NormalizeSafeMessage(message)) <= 1024
    ensures |NormalizeSafeMessage(message)| <= |TrimSpace(message)|
  {
    var a, b, kept, at := NormalizedMessageIs(message);
    var c := DropControlsSieves(TrimSpace(message));
    CutToBytesFits(DropControls(TrimSpace(message)), MAX_SAFE_MESSAGE_BYTES);
    SievedIsShorter(TrimSpace(message), DropControls(TrimSpace(message)), c);
    assert forall i :: 0 <= i < |kept| ==> !Unsafe(kept[i]);
  }

  lemma SievedIsShorter(s: string, r: string, at: seq<nat>)
    requires Sieved(s, r, at)
    ensures |r| <= |s|
  {
    if at == [] {
    } else {
      IndexGrows(at, |at| - 1);
    }
  }

  lemma {:induction false} IndexGrows(at: seq<nat>, i: nat)
    requires i < |at| && forall j, k :: 0 <= j < k < |at| ==> at[j] < at[k]
    ensures i <= at[i]
  {
    if i == 0 {
    } else {
      IndexGrows(at, i - 1);
    }
  }

  /** Exactly the trimmed messages without unsafe runes that fit are left as they are. */
  lemma SafeMessageIsLeftAlone(message: string)
    ensures NormalizeSafeMessage(message) == message <==> Trimmed(message) && Safe(message) && ByteLen(message) <= 1024
  {
    if Trimmed(message) && Safe(message) && ByteLen(message) <= 1024 {
      TrimSpaceOfTrimmed(message);
      SafeTextIsKept(message);
      CutToBytesFits(message, MAX_SAFE_MESSAGE_BYTES);
    } else if NormalizeSafeMessage(message) == message {
      NormalizedMessageIsSafe(message);
      var a, b := TrimSpaceIsTheMiddle(message);
    }
  }

  /** Normalising again changes nothing exactly when the cut, or a dropped rune, left no space at an end. */
  lemma NormalisingTwice(message: string)
    ensures var r := NormalizeSafeMessage(message); NormalizeSafeMessage(r) == r <==> Trimmed(r)
  {
    NormalizedMessageIsSafe(message);
    SafeMessageIsLeftAlone(NormalizeSafeMessage(message));
  }

  lemma {:induction false} AsciiByteLen(s: string)
    requires forall i :: 0 <= i < |s| ==> RuneLen(s[i]) == 1
    ensures ByteLen(s) == |s|
  {
    if s == "" {
    } else {
      AsciiByteLen(s[1..]);
    }
  }

  /** A short line of printable ASCII is left alone. */
  lemma PlainIsLeftAlone(m: string)
    requires |m| <= 1024 && forall i :: 0 <= i < |m| ==> ' ' <= m[i] <= '~'
    requires m != "" ==> m[0] != ' ' && m[|m| - 1] != ' '
    ensures NormalizeSafeMessage(m) == m
  {
    AsciiByteLen(m);
    SafeMessageIsLeftAlone(m);
  }
}
