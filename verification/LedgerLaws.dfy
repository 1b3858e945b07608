/**
 What every store transaction keeps, for any interleaving of callers: ledgers
 only grow, verdicts on a request are permanent, and reading a ledger piecemeal
 while others commit is sound.
 */
module LedgerLaws {
  import opened Wire
  import opened DeliveryLedger

  // ---------------------------------------------------------------- growth

  /** An entry keeps its original digest and its registration, and a terminal row altogether. */
  ghost predicate EntryGrows(e: Entry, f: Entry) {
    && f.row.legacyDigest == e.row.legacyDigest
    && f.row.createdMs == e.row.createdMs
    && (e.registered.Some? ==> f.registered == e.registered)
    && (e.row.state.Terminal() ==> f.row == e.row)
  }

  /** Identities keep their owner, entries grow, and the cooldown never moves back. */
  ghost predicate Grows(L: Ledger, M: Ledger) {
    && (forall x :: x in L.owner ==> x in M.owner && M.owner[x] == L.owner[x])
    && (forall id :: id in L.entries ==> id in M.entries && EntryGrows(L.entries[id], M.entries[id]))
    && L.cooldownMs <= M.cooldownMs
  }

  lemma GrowsTransitive(L: Ledger, M: Ledger, N: Ledger)
    requires Grows(L, M) && Grows(M, N)
    ensures Grows(L, N)
  {
    forall id | id in L.entries
      ensures id in N.entries && EntryGrows(L.entries[id], N.entries[id])
    {
      assert id in M.entries;
    }
  }

  lemma SetRowKeeps(L: Ledger, id: Id, row: Row)
    requires Consistent(L) && id in L.entries && RowOk(row, L.cooldownMs)
    requires EntryGrows(L.entries[id], L.entries[id].(row := row))
    ensures Consistent(SetRow(L, id, row)) && Grows(L, SetRow(L, id, row))
  {
    var M := SetRow(L, id, row);
    forall j | j in M.entries ensures EntryOk(M, j) {
      assert EntryOk(L, j);
    }
  }

  lemma ExtendKeeps(L: Ledger, untilMs: int)
    requires Consistent(L)
    ensures Consistent(Extend(L, untilMs)) && Grows(L, Extend(L, untilMs))
  {
    var M := Extend(L, untilMs);
    forall j | j in M.entries ensures EntryOk(M, j) {
      assert EntryOk(L, j);
    }
  }

  lemma ResumeKeeps(L: Ledger, id: Id, claimRetryable: bool, sinceNs: int, nowMs: int)
    requires Consistent(L) && id in L.entries
    ensures var M := Resume(L, id, claimRetryable, sinceNs, nowMs).0; Consistent(M) && Grows(L, M)
  {
    var row := L.entries[id].row;
    if LeaseExpired(row, sinceNs) {
      SetRowKeeps(L, id, Interrupted(row, nowMs));
    } else if row.state == Retryable {
      SetRowKeeps(L, id, Reclaimed(row, nowMs));
    }
  }

  /** What the judgement says of the owners of an accepted request's identities. */
  lemma AcceptedOwners(L: Ledger, id: Id, k: Keys)
    requires Consistent(L) && Judge(L, k) == Canonical(id)
    ensures id in L.entries && id in L.owner && L.owner[id] == id
    ensures k.deliveryId in L.owner ==> L.owner[k.deliveryId] == id
    ensures k.idempotencyId in L.owner ==> L.owner[k.idempotencyId] == id
    ensures L.entries[id].registered.Some? ==>
              L.entries[id].registered.value == Registration(k.idempotencyId, k.requestDigest)
  {
    assert EntryOk(L, id);
  }

  lemma AdoptGrows(L: Ledger, id: Id, k: Keys)
    requires Consistent(L) && Judge(L, k) == Canonical(id)
    ensures id in L.entries && Grows(L, Adopt(L, id, k))
  {
    AcceptedOwners(L, id, k);
  }

  lemma AdoptEntries(L: Ledger, id: Id, k: Keys)
    requires Consistent(L) && Judge(L, k) == Canonical(id)
    ensures id in L.entries && forall j :: j in L.entries ==> EntryOk(Adopt(L, id, k), j)
  {
    AcceptedOwners(L, id, k);
    forall j | j in L.entries ensures EntryOk(Adopt(L, id, k), j) {
      assert EntryOk(L, j);
    }
  }

  lemma AdoptOwners(L: Ledger, id: Id, k: Keys)
    requires Consistent(L) && Judge(L, k) == Canonical(id)
    ensures id in L.entries
    ensures var M := Adopt(L, id, k);
      forall x :: x in M.owner ==> M.owner[x] in M.entries && (M.entries[M.owner[x]].registered.None? ==> M.owner[x] == x)
  {
    AcceptedOwners(L, id, k);
  }

  lemma AdoptKeeps(L: Ledger, id: Id, k: Keys)
    requires Consistent(L) && Judge(L, k) == Canonical(id)
    ensures id in L.entries
    ensures var M := Adopt(L, id, k); Consistent(M) && Grows(L, M)
  {
    AdoptGrows(L, id, k);
    AdoptEntries(L, id, k);
    AdoptOwners(L, id, k);
    assert Adopt(L, id, k).entries.Keys == L.entries.Keys;
  }

  lemma InsertIsNew(L: Ledger, k: Keys)
    requires Consistent(L) && Judge(L, k) == Absent
    ensures k.deliveryId !in L.entries && k.deliveryId !in L.owner && k.idempotencyId !in L.owner
  {
    assert k.deliveryId in L.entries ==> EntryOk(L, k.deliveryId);
  }

  lemma InsertEntries(L: Ledger, k: Keys, claimRetryable: bool, nowMs: int)
    requires Consistent(L) && Judge(L, k) == Absent
    ensures var M := Insert(L, k, claimRetryable, nowMs).0; forall j :: j in M.entries ==> EntryOk(M, j)
  {
    var M := Insert(L, k, claimRetryable, nowMs).0;
    InsertIsNew(L, k);
    forall j | j in M.entries ensures EntryOk(M, j) {
      assert j in L.entries ==> EntryOk(L, j);
    }
  }

  lemma InsertOwners(L: Ledger, k: Keys, claimRetryable: bool, nowMs: int)
    requires Consistent(L) && Judge(L, k) == Absent
    ensures var M := Insert(L, k, claimRetryable, nowMs).0;
      && (forall x :: x in M.owner ==> M.owner[x] in M.entries && (M.entries[M.owner[x]].registered.None? ==> M.owner[x] == x))
      && (forall x :: x in L.owner ==> x in M.owner && M.owner[x] == L.owner[x])
  {
    InsertIsNew(L, k);
  }

  lemma InsertKeeps(L: Ledger, k: Keys, claimRetryable: bool, nowMs: int)
    requires Consistent(L) && Judge(L, k) == Absent
    ensures k.deliveryId !in L.entries
    ensures var M := Insert(L, k, claimRetryable, nowMs).0; Consistent(M) && Grows(L, M)
  {
    InsertIsNew(L, k);
    InsertEntries(L, k, claimRetryable, nowMs);
    InsertOwners(L, k, claimRetryable, nowMs);
  }

  /** Begin keeps every invariant of the store and loses nothing that was known. */
  lemma BeginKeeps(L: Ledger, k: Keys, claimRetryable: bool, sinceNs: int, nowMs: int)
    requires Consistent(L)
    ensures var M := Begin(L, k, claimRetryable, sinceNs, nowMs).0; Consistent(M) && Grows(L, M)
  {
    match Judge(L, k)
    case Refused =>
    case Absent => InsertKeeps(L, k, claimRetryable, nowMs);
    case Canonical(id) =>
      AdoptKeeps(L, id, k);
      var A := Adopt(L, id, k);
      ResumeKeeps(A, id, claimRetryable, sinceNs, nowMs);
      GrowsTransitive(L, A, Resume(A, id, claimRetryable, sinceNs, nowMs).0);
  }

  /** The outcome of an attempt in flight, with the cooldown it brings. */
  lemma OutcomeKeeps(L: Ledger, id: Id, o: Outcome, nowMs: int)
    requires Consistent(L) && OutcomeOk(o) && id in L.entries && L.entries[id].row.state == Sending
    ensures var M := Extend(SetRow(L, id, WithOutcome(L.entries[id].row, o, nowMs)), o.retryNotBeforeMs);
      Consistent(M) && Grows(L, M)
  {
    var row := WithOutcome(L.entries[id].row, o, nowMs);
    var A := Extend(L, o.retryNotBeforeMs);
    ExtendKeeps(L, o.retryNotBeforeMs);
    SetRowKeeps(A, id, row);
    assert SetRow(A, id, row) == Extend(SetRow(L, id, row), o.retryNotBeforeMs);
    GrowsTransitive(L, A, SetRow(A, id, row));
  }

  lemma CompleteKeeps(L: Ledger, id: Id, digest: Digest, o: Outcome, nowMs: int)
    requires Consistent(L) && OutcomeOk(o)
    ensures var M := Complete(L, id, digest, o, nowMs).0; Consistent(M) && Grows(L, M)
  {
    ExtendKeeps(L, o.retryNotBeforeMs);
    if id in L.entries && L.entries[id].row.state == Sending {
      OutcomeKeeps(L, id, o, nowMs);
    }
  }

  lemma UpdateKeeps(L: Ledger, id: Id, digest: Digest, c: Completion, nowMs: int)
    requires Consistent(L)
    ensures var M := Update(L, id, digest, c, nowMs).0; Consistent(M) && Grows(L, M)
  {
    if Normalize(c).Some? {
      CompleteKeeps(L, id, digest, Normalize(c).value, nowMs);
    }
  }

  /**
   Recovery leaves nothing in flight, makes an unknown outcome of exactly what was,
   and touches nothing else; doing it again, at any later opening, does nothing.
   Only a retryable delivery is left that an attempt may still be made for.
   */
  lemma RecoverySettlesTheInterrupted(L: Ledger, nowMs: int, laterMs: int, id: Id)
    requires id in L.entries
    ensures var M := Recover(L, nowMs);
      && M.entries.Keys == L.entries.Keys && M.owner == L.owner && M.cooldownMs == L.cooldownMs
      && (L.entries[id].row.state == Sending ==>
            && M.entries[id].registered == L.entries[id].registered
            && M.entries[id].row.legacyDigest == L.entries[id].row.legacyDigest
            && M.entries[id].row.state == Unknown && M.entries[id].row.safeMessage == OUTCOME_UNKNOWN_MESSAGE)
      && (L.entries[id].row.state != Sending ==> M.entries[id] == L.entries[id])
      && (M.entries[id].row.state.Terminal() <==> L.entries[id].row.state != Retryable)
      && Recover(M, laterMs) == M
  {
    assert Recover(Recover(L, nowMs), laterMs).entries == Recover(L, nowMs).entries;
  }

  lemma RecoverKeeps(L: Ledger, nowMs: int)
    requires Consistent(L)
    ensures var M := Recover(L, nowMs); Consistent(M) && Grows(L, M)
  {
    var M := Recover(L, nowMs);
    forall j | j in M.entries ensures EntryOk(M, j) {
      assert EntryOk(L, j);
    }
  }

  // ---------------------------------------------------------------- coherent digests

  /**
   The logical and the original digest of a registered row describe one request
   that differs in the delivery ID alone.  Holds of every row whose callers take
   their digests with KeysOf, as the adapter does.
   */
  predicate CoherentEntry(id: Id, e: Entry) {
    match e.registered
    case None => true
    case Some(m) =>
      && m.requestDigest.OfRequest?
      && m.requestDigest.request.deliveryId == m.idempotencyId
      && m.requestDigest.request.idempotencyId == m.idempotencyId
      && e.row.legacyDigest == OfRequest(m.requestDigest.request.(deliveryId := id))
  }

  ghost predicate Coherent(L: Ledger) {
    forall id :: id in L.entries ==> CoherentEntry(id, L.entries[id])
  }

  /** The request that created entry `id`, if it is the one `r` describes under its own delivery ID. */
  predicate SameDelivery(id: Id, e: Entry, r: DeliveryRequest) {
    e.row.legacyDigest == OfRequest(r.(deliveryId := id))
  }

  /**
   Both versions of the digest rule mean the same thing: an entry accepts a
   request exactly when the request that created the entry is that request under
   the entry's own delivery ID.
   */
  lemma AcceptsMeansSameDelivery(id: Id, e: Entry, r: DeliveryRequest)
    requires CoherentEntry(id, e)
    requires e.registered.None? ==> id == r.deliveryId || id == r.idempotencyId
    ensures Accepts(id, e, KeysOf(r)) <==> SameDelivery(id, e, r)
  {
    match e.registered
    case None =>
      if id == r.deliveryId { assert r.(deliveryId := id) == r; }
    case Some(m) =>
      var c := m.requestDigest.request;
      if SameDelivery(id, e, r) {
        assert c.(deliveryId := id) == r.(deliveryId := id);
        assert c.idempotencyId == r.idempotencyId;
        assert c == c.(deliveryId := id).(deliveryId := c.deliveryId);
        assert c == r.(deliveryId := r.idempotencyId);
      }
  }

  /** A request is named by exactly one entry and refused when that entry is another delivery's. */
  lemma JudgeMeaning(L: Ledger, r: DeliveryRequest)
    requires Consistent(L) && Coherent(L)
    ensures Judge(L, KeysOf(r)) == Absent <==> r.deliveryId !in L.owner && r.idempotencyId !in L.owner
    ensures forall id :: Judge(L, KeysOf(r)) == Canonical(id) <==>
      && (r.deliveryId in L.owner || r.idempotencyId in L.owner)
      && (r.deliveryId in L.owner ==> L.owner[r.deliveryId] == id)
      && (r.idempotencyId in L.owner ==> L.owner[r.idempotencyId] == id)
      && id in L.entries && SameDelivery(id, L.entries[id], r)
  {
    if r.deliveryId in L.owner || r.idempotencyId in L.owner {
      var id := if r.deliveryId in L.owner then L.owner[r.deliveryId] else L.owner[r.idempotencyId];
      AcceptsMeansSameDelivery(id, L.entries[id], r);
    }
  }

  lemma InsertKeepsCoherent(L: Ledger, r: DeliveryRequest, claimRetryable: bool, nowMs: int)
    requires Coherent(L)
    ensures Coherent(Insert(L, KeysOf(r), claimRetryable, nowMs).0)
  {
    assert r.(deliveryId := r.idempotencyId).(deliveryId := r.deliveryId) == r;
  }

  lemma AdoptKeepsCoherent(L: Ledger, r: DeliveryRequest, id: Id)
    requires Coherent(L) && id in L.entries && SameDelivery(id, L.entries[id], r)
    ensures Coherent(Adopt(L, id, KeysOf(r)))
  {
    assert r.(deliveryId := r.idempotencyId).(deliveryId := id) == r.(deliveryId := id);
  }

  lemma ResumeKeepsCoherent(L: Ledger, id: Id, claimRetryable: bool, sinceNs: int, nowMs: int)
    requires Coherent(L) && id in L.entries
    ensures Coherent(Resume(L, id, claimRetryable, sinceNs, nowMs).0)
  {
    assert CoherentEntry(id, L.entries[id]);
  }

  lemma BeginKeepsCoherent(L: Ledger, r: DeliveryRequest, claimRetryable: bool, sinceNs: int, nowMs: int)
    requires Consistent(L) && Coherent(L)
    ensures Coherent(Begin(L, KeysOf(r), claimRetryable, sinceNs, nowMs).0)
  {
    match Judge(L, KeysOf(r))
    case Refused =>
    case Absent => InsertKeepsCoherent(L, r, claimRetryable, nowMs);
    case Canonical(id) =>
      JudgeMeaning(L, r);
      AdoptKeepsCoherent(L, r, id);
      ResumeKeepsCoherent(Adopt(L, id, KeysOf(r)), id, claimRetryable, sinceNs, nowMs);
  }

  /** Once a request is refused it stays refused, whatever commits in between. */
  lemma RefusalIsPermanent(L: Ledger, M: Ledger, r: DeliveryRequest)
    requires Consistent(L) && Coherent(L) && Consistent(M) && Coherent(M) && Grows(L, M)
    requires Judge(L, KeysOf(r)) == Refused
    ensures Judge(M, KeysOf(r)) == Refused
  {
    JudgeMeaning(L, r);
    JudgeMeaning(M, r);
    var id := if r.deliveryId in L.owner then L.owner[r.deliveryId] else L.owner[r.idempotencyId];
    assert id in L.entries && EntryGrows(L.entries[id], M.entries[id]);
    assert Judge(L, KeysOf(r)) != Canonical(id);
  }

  /** Once both identities of a request are accepted, it names that delivery for ever. */
  lemma AcceptanceIsPermanent(L: Ledger, M: Ledger, r: DeliveryRequest, id: Id)
    requires Consistent(L) && Coherent(L) && Consistent(M) && Coherent(M) && Grows(L, M)
    requires Judge(L, KeysOf(r)) == Canonical(id)
    requires r.deliveryId in L.owner && r.idempotencyId in L.owner
    ensures Judge(M, KeysOf(r)) == Canonical(id)
  {
    JudgeMeaning(L, r);
    JudgeMeaning(M, r);
    assert EntryGrows(L.entries[id], M.entries[id]);
  }

  lemma ResumeKeepsOwners(L: Ledger, id: Id, claimRetryable: bool, sinceNs: int, nowMs: int)
    requires id in L.entries
    ensures var (M, result) := Resume(L, id, claimRetryable, sinceNs, nowMs);
      M.owner == L.owner && result.Answer? && result.record.deliveryId == id
  {
  }

  lemma InsertOwnsBoth(L: Ledger, r: DeliveryRequest, claimRetryable: bool, nowMs: int)
    ensures var (M, result) := Insert(L, KeysOf(r), claimRetryable, nowMs);
      && result.Answer? && result.record.deliveryId == r.deliveryId
      && Owns(M, r, r.deliveryId)
  {
    assert r.(deliveryId := r.deliveryId) == r;
  }

  lemma ResumeOwnsBoth(L: Ledger, r: DeliveryRequest, id: Id, claimRetryable: bool, sinceNs: int, nowMs: int)
    requires Consistent(L) && id in L.entries && SameDelivery(id, L.entries[id], r)
    ensures var (M, result) := Resume(Adopt(L, id, KeysOf(r)), id, claimRetryable, sinceNs, nowMs);
      && result.Answer? && result.record.deliveryId == id && Owns(M, r, id)
  {
    ResumeKeepsOwners(Adopt(L, id, KeysOf(r)), id, claimRetryable, sinceNs, nowMs);
  }

  /** Both identities of `r` name `id`, which is the delivery that `r` describes. */
  predicate Owns(L: Ledger, r: DeliveryRequest, id: Id) {
    && r.deliveryId in L.owner && L.owner[r.deliveryId] == id
    && r.idempotencyId in L.owner && L.owner[r.idempotencyId] == id
    && id in L.entries && SameDelivery(id, L.entries[id], r)
  }

  lemma OwnsIsCanonical(L: Ledger, r: DeliveryRequest, id: Id)
    requires Consistent(L) && Coherent(L) && Owns(L, r, id)
    ensures Judge(L, KeysOf(r)) == Canonical(id)
  {
    JudgeMeaning(L, r);
  }

  /** Begin is where a request that is not refused becomes one of those. */
  lemma BeginSettlesVerdict(L: Ledger, r: DeliveryRequest, claimRetryable: bool, sinceNs: int, nowMs: int)
    requires Consistent(L) && Coherent(L)
    ensures var (M, result) := Begin(L, KeysOf(r), claimRetryable, sinceNs, nowMs);
      match result
      case Conflict => M == L && Judge(L, KeysOf(r)) == Refused
      case Answer(record, _) =>
        && Consistent(M) && Coherent(M)
        && r.deliveryId in M.owner && r.idempotencyId in M.owner
        && Judge(M, KeysOf(r)) == Canonical(record.deliveryId)
  {
    var k := KeysOf(r);
    var M := Begin(L, k, claimRetryable, sinceNs, nowMs).0;
    BeginKeeps(L, k, claimRetryable, sinceNs, nowMs);
    BeginKeepsCoherent(L, r, claimRetryable, sinceNs, nowMs);
    match Judge(L, k)
    case Refused =>
    case Absent =>
      InsertOwnsBoth(L, r, claimRetryable, nowMs);
      OwnsIsCanonical(M, r, r.deliveryId);
    case Canonical(id) =>
      JudgeMeaning(L, r);
      ResumeOwnsBoth(L, r, id, claimRetryable, sinceNs, nowMs);
      OwnsIsCanonical(M, r, id);
  }

  /** A retryable row that Begin found in a cooldown: the one answer that is not the stored row. */
  predicate ReportedInCooldown(L: Ledger, k: Keys, nowMs: int)
    requires Consistent(L)
  {
    var verdict := Judge(L, k);
    verdict.Canonical? && verdict.id in L.entries && L.entries[verdict.id].row.state == Retryable
    && nowMs < L.cooldownMs && L.entries[verdict.id].row.retryNotBeforeMs != L.cooldownMs
  }

  /**
   What Begin answers is what it stored, except for the retry time of a row in a
   cooldown, which is the bot's and never the row's own later one.
   */
  lemma BeginReportsTheStoredRow(L: Ledger, k: Keys, sinceNs: int, nowMs: int)
    requires Consistent(L)
    ensures var (M, result) := Begin(L, k, true, sinceNs, nowMs);
      result.Answer? ==>
        var id := result.record.deliveryId;
        && id in M.entries
        && (result.record == RecordOf(id, M.entries[id]) <==> !ReportedInCooldown(L, k, nowMs))
        && (ReportedInCooldown(L, k, nowMs) ==>
              result.record == RecordOf(id, M.entries[id]).(row := M.entries[id].row.(retryNotBeforeMs := L.cooldownMs)))
  {
    match Judge(L, k)
    case Refused =>
    case Absent =>
    case Canonical(id) =>
      assert EntryOk(L, id);
      var A := Adopt(L, id, k);
      assert A.entries[id].row == L.entries[id].row && A.cooldownMs == L.cooldownMs;
  }

  /**
   When an attempt may start: for a new delivery or a retryable one, and never
   inside the cooldown, except that CreateDelivery inserts a new delivery without
   asking.  A retryable row's own retry time never matters.
   */
  lemma WhenBeginSends(L: Ledger, k: Keys, claimRetryable: bool, sinceNs: int, nowMs: int)
    requires Consistent(L) && 0 <= nowMs
    ensures var (result, verdict) := (Begin(L, k, claimRetryable, sinceNs, nowMs).1, Judge(L, k));
      result.Answer? && result.shouldSend <==>
        || (verdict == Absent && (L.cooldownMs <= nowMs || !claimRetryable))
        || (verdict.Canonical? && verdict.id in L.entries && L.entries[verdict.id].row.state == Retryable
            && claimRetryable && L.cooldownMs <= nowMs)
  {
    match Judge(L, k)
    case Refused =>
    case Absent =>
    case Canonical(id) =>
      assert EntryOk(L, id);
      var A := Adopt(L, id, k);
      assert A.entries[id].row == L.entries[id].row && A.cooldownMs == L.cooldownMs;
  }
}
