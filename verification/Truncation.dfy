/**
 truncateTelegramText: a text over Telegram's limit is cut between grapheme
 clusters and marked.  How a text divides into clusters is the business of a
 library; here it is any division into non-empty pieces.
 */
module Truncation {

  const MAX_RUNES := 4096
  const SUFFIX := "\n\n[response truncated to fit Telegram]"

  predicate Clusters(clusters: seq<string>) {
    forall i :: 0 <= i < |clusters| ==> clusters[i] != ""
  }

  function Joined(clusters: seq<string>): string {
    if clusters == [] then "" else Joined(clusters[..|clusters| - 1]) + clusters[|clusters| - 1]
  }

  /** What the first `k` clusters come to, and nothing else, when cut there. */
  function CutAfter(clusters: seq<string>, k: nat): string
    requires k <= |clusters|
  {
    Joined(clusters[..k]) + SUFFIX
  }

  lemma {:induction false} JoinedSplits(clusters: seq<string>, k: nat)
    requires k <= |clusters|
    ensures Joined(clusters) == Joined(clusters[..k]) + Joined(clusters[k..])
  {
    if k == |clusters| {
      assert clusters[..k] == clusters;
    } else {
      var (front, back) := (clusters[..|clusters| - 1], clusters[k..]);
      JoinedSplits(front, k);
      assert front[..k] == clusters[..k] && front[k..] == back[..|back| - 1];
    }
  }

  /** Every cluster counts for at least one rune, so longer cuts are longer texts. */
  lemma {:induction false} JoinedGrows(clusters: seq<string>, j: nat, k: nat)
    requires Clusters(clusters) && j < k <= |clusters|
    ensures |Joined(clusters[..j])| < |Joined(clusters[..k])|
  {
    assert clusters[..k][..k - 1] == clusters[..k - 1];
    if j == k - 1 {
    } else {
      JoinedGrows(clusters, j, k - 1);
    }
  }

  /** How many clusters the greedy loop keeps within `limit` runes. */
  function Kept(clusters: seq<string>, limit: nat): (k: nat)
    ensures k <= |clusters|
  {
    if clusters == [] then 0
    else if |Joined(clusters)| <= limit then |clusters|
    else Kept(clusters[..|clusters| - 1], limit)
  }

  function Truncated(clusters: seq<string>): string {
    if |Joined(clusters)| <= MAX_RUNES then Joined(clusters)
    else CutAfter(clusters, Kept(clusters, MAX_RUNES - |SUFFIX|))
  }

  lemma {:induction false} KeptIsGreatest(clusters: seq<string>, limit: nat, k: nat)
    requires k <= |clusters| && |Joined(clusters[..k])| <= limit
    ensures k <= Kept(clusters, limit) && |Joined(clusters[..Kept(clusters, limit)])| <= limit
  {
    if clusters == [] || |Joined(clusters)| <= limit {
      assert clusters[..|clusters|] == clusters;
    } else {
      var front := clusters[..|clusters| - 1];
      assert clusters[..|clusters|] == clusters;
      assert front[..k] == clusters[..k];
      KeptIsGreatest(front, limit, k);
      assert front[..Kept(front, limit)] == clusters[..Kept(front, limit)];
    }
  }

  /** The cut falls at `k` once the next cluster would overflow. */
  lemma KeptIs(clusters: seq<string>, limit: nat, k: nat)
    requires Clusters(clusters) && k < |clusters|
    requires |Joined(clusters[..k])| <= limit < |Joined(clusters[..k + 1])|
    ensures Kept(clusters, limit) == k
  {
    KeptIsGreatest(clusters, limit, k);
    var m := Kept(clusters, limit);
    if k + 1 < m {
      JoinedGrows(clusters, k + 1, m);
    }
  }

  method TruncateTelegramText(text: string, clusters: seq<string>) returns (r: string, truncated: bool)
    requires Clusters(clusters) && Joined(clusters) == text
    ensures r == Truncated(clusters)
    ensures truncated <==> |text| > MAX_RUNES
  {
    if |text| <= MAX_RUNES {
      return text, false;
    }
    var limit := MAX_RUNES - |SUFFIX|;
    var builder, used, i := "", 0, 0;
    while i < |clusters|
      invariant i <= |clusters| && builder == Joined(clusters[..i])
      invariant used == |builder| <= limit
    {
      var cluster := clusters[i];
      assert clusters[..i + 1][..i] == clusters[..i];
      if used + |cluster| > limit {
        KeptIs(clusters, limit, i);
        break;
      }
      builder, used, i := builder + cluster, used + |cluster|, i + 1;
    }
    assert clusters[..|clusters|] == clusters;
    return builder + SUFFIX, true;
  }

  /** A cut text ends with the mark, after a prefix of the text. */
  lemma CutShape(clusters: seq<string>, m: nat)
    requires m <= |clusters|
    ensures var (text, r) := (Joined(clusters), CutAfter(clusters, m));
      && |r| == |Joined(clusters[..m])| + |SUFFIX|
      && r[|r| - |SUFFIX|..] == SUFFIX && r[..|r| - |SUFFIX|] <= text
  {
    JoinedSplits(clusters, m);
  }

  /**
   Greedy is optimal: the result fits, is the text itself when that fits, and
   otherwise ends with the mark after a prefix of the text that no other cut
   between clusters could lengthen.
   */
  lemma TruncationIsOptimal(clusters: seq<string>, k: nat)
    requires Clusters(clusters) && k <= |clusters|
    ensures var (text, r) := (Joined(clusters), Truncated(clusters));
      && |r| <= 4096
      && (|text| <= 4096 ==> r == text)
      && (|text| > 4096 ==>
            && (exists m :: 0 <= m <= |clusters| && r == CutAfter(clusters, m))
            && |SUFFIX| <= |r| && r[|r| - |SUFFIX|..] == SUFFIX
            && r[..|r| - |SUFFIX|] <= text
            && (|CutAfter(clusters, k)| <= 4096 ==> |CutAfter(clusters, k)| <= |r|))
  {
    var limit := MAX_RUNES - |SUFFIX|;
    var m := Kept(clusters, limit);
    KeptIsGreatest(clusters, limit, 0);
    CutShape(clusters, m);
    CutShape(clusters, k);
    if |Joined(clusters[..k])| <= limit {
      KeptIsGreatest(clusters, limit, k);
      if k < m { JoinedGrows(clusters, k, m); }
    }
  }

  /** However the result is divided into clusters, truncating it again changes nothing. */
  lemma TruncationIsStable(clusters: seq<string>, again: seq<string>)
    requires Clusters(clusters) && Joined(again) == Truncated(clusters)
    ensures Truncated(again) == Truncated(clusters)
  {
    TruncationIsOptimal(clusters, 0);
  }
}
