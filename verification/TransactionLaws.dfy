/**
 What each store transaction does to the one delivery it is about, exactly: which
 row it leaves, which record it answers, and what it leaves alone.
 */
module TransactionLaws {
  import opened Prelude
  import opened Wire
  import opened SafeText
  import opened DeliveryLedger

  // ---------------------------------------------------------------- Begin

  /** An attempt that has been in flight for two minutes or more. */
  predicate Stale(row: Row, sinceNs: int) {
    row.state == Sending && 120 * 1_000_000_000 <= sinceNs - row.updatedMs * 1_000_000
  }

  /** The row of a delivery nobody knows the outcome of. */
  function UnknownRow(row: Row, nowMs: int): Row {
    Row(row.legacyDigest, Unknown, "", "delivery outcome is unknown after adapter restart", 0, row.createdMs, nowMs)
  }

  /** The row of an attempt that starts now. */
  function AttemptRow(legacyDigest: Digest, createdMs: int, nowMs: int): Row {
    Row(legacyDigest, Sending, "", "", 0, createdMs, nowMs)
  }

  lemma ResumeOnSending(L: Ledger, id: Id, claimRetryable: bool, sinceNs: int, nowMs: int)
    requires id in L.entries && L.entries[id].row.state == Sending
    ensures var (M, result) := Resume(L, id, claimRetryable, sinceNs, nowMs);
      var row := L.entries[id].row;
      && id in M.entries && result == Answer(RecordOf(id, M.entries[id]), false)
      && M.entries[id].row == if Stale(row, sinceNs) then UnknownRow(row, nowMs) else row
  {
  }

  /**
   An accepted request for a delivery that is being sent ends the attempt, as one of
   unknown outcome, exactly when it has been in flight for two minutes; before that
   it leaves it alone.  Either way it is answered with the row as it then is, and
   sends nothing.
   */
  lemma BeginOnSending(L: Ledger, k: Keys, claimRetryable: bool, sinceNs: int, nowMs: int, id: Id)
    requires Consistent(L) && Judge(L, k) == Canonical(id) && id in L.entries && L.entries[id].row.state == Sending
    ensures var (M, result) := Begin(L, k, claimRetryable, sinceNs, nowMs);
      var row := L.entries[id].row;
      && id in M.entries && result == Answer(RecordOf(id, M.entries[id]), false)
      && M.entries[id].row == (if Stale(row, sinceNs) then UnknownRow(row, nowMs) else row)
      && (M.entries[id].row.state == Unknown <==> 120 * 1_000_000_000 <= sinceNs - row.updatedMs * 1_000_000)
  {
    assert Adopt(L, id, k).entries[id].row == L.entries[id].row;
    ResumeOnSending(Adopt(L, id, k), id, claimRetryable, sinceNs, nowMs);
  }

  /** A retryable delivery is claimed exactly when that is asked for and no cooldown runs; otherwise its row stays. */
  lemma BeginOnRetryable(L: Ledger, k: Keys, claimRetryable: bool, sinceNs: int, nowMs: int, id: Id)
    requires Consistent(L) && Judge(L, k) == Canonical(id) && id in L.entries && L.entries[id].row.state == Retryable
    requires 0 <= nowMs
    ensures var (M, result) := Begin(L, k, claimRetryable, sinceNs, nowMs);
      var row := L.entries[id].row;
      && id in M.entries && result.Answer? && result.record.deliveryId == id
      && (result.shouldSend <==> claimRetryable && L.cooldownMs <= nowMs)
      && M.entries[id].row == (if result.shouldSend then AttemptRow(row.legacyDigest, row.createdMs, nowMs) else row)
  {
    assert EntryOk(L, id);
    assert Adopt(L, id, k).entries[id].row == L.entries[id].row;
  }

  /** A new delivery starts out being sent, or up for retry after the cooldown. */
  lemma BeginOnNew(L: Ledger, k: Keys, claimRetryable: bool, sinceNs: int, nowMs: int)
    requires Consistent(L) && Judge(L, k) == Absent && 0 <= nowMs
    ensures var (M, result) := Begin(L, k, claimRetryable, sinceNs, nowMs);
      && k.deliveryId in M.entries && result.Answer?
      && result.record == RecordOf(k.deliveryId, M.entries[k.deliveryId])
      && (result.shouldSend <==> !claimRetryable || L.cooldownMs <= nowMs)
      && M.entries[k.deliveryId].row ==
           (if result.shouldSend then AttemptRow(k.legacyDigest, nowMs, nowMs)
            else Row(k.legacyDigest, Retryable, "", "Telegram provider cooldown is active", L.cooldownMs, nowMs, nowMs))
  {
  }

  /** Whatever Begin answers bears the request's own stable ID and digest, and only its delivery is touched. */
  lemma BeginAnswersItsOwn(L: Ledger, k: Keys, claimRetryable: bool, sinceNs: int, nowMs: int)
    requires Consistent(L)
    ensures var (M, result) := Begin(L, k, claimRetryable, sinceNs, nowMs);
      && (result.Conflict? <==> Judge(L, k) == Refused) && (result.Conflict? ==> M == L)
      && (result.Answer? ==>
            var record := result.record;
            && record.idempotencyId == k.idempotencyId && record.digestVersion == 2
            && record.requestDigest == k.requestDigest
            && record.deliveryId in M.entries
            && M.entries[record.deliveryId].registered == Some(Registration(k.idempotencyId, k.requestDigest))
            && M.entries.Keys == L.entries.Keys + {record.deliveryId}
            && M.owner == L.owner[k.deliveryId := record.deliveryId][k.idempotencyId := record.deliveryId]
            && M.cooldownMs == L.cooldownMs
            && forall j :: j in L.entries && j != record.deliveryId ==> M.entries[j] == L.entries[j])
  {
    match Judge(L, k)
    case Refused =>
    case Absent =>
    case Canonical(id) => ResumeAnswersItsOwn(Adopt(L, id, k), id, k, claimRetryable, sinceNs, nowMs);
  }

  lemma ResumeAnswersItsOwn(L: Ledger, id: Id, k: Keys, claimRetryable: bool, sinceNs: int, nowMs: int)
    requires id in L.entries && L.entries[id].registered == Some(Registration(k.idempotencyId, k.requestDigest))
    ensures var (M, result) := Resume(L, id, claimRetryable, sinceNs, nowMs);
      && result.Answer? && result.record.deliveryId == id && result.record.idempotencyId == k.idempotencyId
      && result.record.digestVersion == 2 && result.record.requestDigest == k.requestDigest
      && M.owner == L.owner && M.cooldownMs == L.cooldownMs && M.entries.Keys == L.entries.Keys
      && M.entries[id].registered == L.entries[id].registered
      && forall j :: j in L.entries && j != id ==> M.entries[j] == L.entries[j]
  {
  }

  // ---------------------------------------------------------------- Update

  /** Exactly which completions are refused as arguments. */
  lemma InvalidCompletions(c: Completion)
    ensures Normalize(c).None? <==>
      || c.state == Sending
      || (TrimSpace(c.providerMessageId) != ""
          && (256 < ByteLen(TrimSpace(c.providerMessageId)) || HasControl(TrimSpace(c.providerMessageId))))
      || (c.state == Retryable && c.retryNotBeforeMs.Some? && c.retryNotBeforeMs.value <= 0)
  {
  }

  /** What the columns of a completed attempt hold. */
  predicate BearsResult(row: Row, c: Completion) {
    && row.state == c.state
    && row.providerMessageId == (if c.state == Delivered then TrimSpace(c.providerMessageId) else "")
    && row.retryNotBeforeMs == (if c.state == Retryable && c.retryNotBeforeMs.Some? then c.retryNotBeforeMs.value else 0)
    && (row.safeMessage == NormalizeSafeMessage(c.safeMessage)
        || (c.state == Unknown && NormalizeSafeMessage(c.safeMessage) == ""
            && row.safeMessage == "delivery outcome is unknown after adapter restart"))
    && (c.state == Unknown ==> row.safeMessage != "")
  }

  lemma CompletedWhen(row: Row, c: Completion)
    requires Normalize(c).Some?
    ensures SameOutcome(row, Normalize(c).value) <==> BearsResult(row, c)
  {
  }

  /**
   A result is stored exactly when its delivery exists, bears the request's digest,
   and is being sent or was stored with that very result before; which error it is
   otherwise; and that a refused one changes nothing.
   */
  lemma UpdateIsExact(L: Ledger, id: Id, digest: Digest, c: Completion, nowMs: int)
    ensures var (M, result) := Update(L, id, digest, c, nowMs);
      if Normalize(c).None? then M == L && result == Failed(InvalidArgument)
      else if id !in L.entries then M == L && result == Failed(UnknownDelivery)
      else if RecordOf(id, L.entries[id]).requestDigest != digest then M == L && result == Failed(DigestConflict)
      else if L.entries[id].row.state == Sending || BearsResult(L.entries[id].row, c) then
        && id in M.entries && result == Recorded(RecordOf(id, M.entries[id])) && BearsResult(M.entries[id].row, c)
      else M == L && result == Failed(InvalidTransition)
  {
    if Normalize(c).Some? && id in L.entries {
      CompletedWhen(L.entries[id].row, c);
      CompletedWhen(WithOutcome(L.entries[id].row, Normalize(c).value, nowMs), c);
    }
  }

  /** The rest of what storing a result does: nothing to other deliveries or names, and the cooldown only to extend it. */
  lemma UpdateTouchesOneRow(L: Ledger, id: Id, digest: Digest, c: Completion, nowMs: int)
    requires Update(L, id, digest, c, nowMs).1.Recorded?
    ensures var M := Update(L, id, digest, c, nowMs).0;
      && id in L.entries && M.owner == L.owner && M.entries.Keys == L.entries.Keys
      && (forall j :: j in L.entries && j != id ==> M.entries[j] == L.entries[j])
      && M.entries[id].registered == L.entries[id].registered
      && M.entries[id].row.legacyDigest == L.entries[id].row.legacyDigest
      && M.entries[id].row.createdMs == L.entries[id].row.createdMs
      && M.entries[id].row.updatedMs == (if L.entries[id].row.state == Sending then nowMs else L.entries[id].row.updatedMs)
      && L.cooldownMs <= M.cooldownMs && M.entries[id].row.retryNotBeforeMs <= M.cooldownMs
      && (M.cooldownMs == L.cooldownMs || M.cooldownMs == M.entries[id].row.retryNotBeforeMs)
  {
  }
}
