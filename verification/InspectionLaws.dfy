/**
 The inspection is four separate reads, and any number of transactions may commit
 between them.  What it concludes still holds of the ledger that is current when
 it concludes, and of every later one.
 */
module InspectionLaws {
  import opened Prelude
  import opened Wire
  import opened DeliveryLedger
  import opened LedgerLaws

  /** A read of identity `x` that was made some time ago, seen from ledger `L`. */
  ghost predicate StillHolds(L: Ledger, x: Id, read: Option<Sighting>) {
    match read
    case None => true
    case Some(s) =>
      && x in L.owner && L.owner[x] == s.id
      && s.id in L.entries && EntryGrows(s.entry, L.entries[s.id])
      && (s.entry.registered.None? ==> s.id == x)
      && CoherentEntry(s.id, s.entry)
  }

  lemma HoldsLater(L: Ledger, M: Ledger, x: Id, read: Option<Sighting>)
    requires StillHolds(L, x, read) && Grows(L, M)
    ensures StillHolds(M, x, read)
  {
    if read.Some? {
      assert EntryGrows(L.entries[read.value.id], M.entries[read.value.id]);
    }
  }

  lemma ReadsHoldLater(L: Ledger, M: Ledger, x: Id)
    requires Consistent(L) && Coherent(L) && Grows(L, M)
    ensures StillHolds(M, x, ReadAlias(L, x)) && StillHolds(M, x, ReadPrimary(L, x))
  {
    if x in L.entries { assert EntryOk(L, x); }
    HoldsLater(L, M, x, ReadAlias(L, x));
    HoldsLater(L, M, x, ReadPrimary(L, x));
  }

  /** What the inspection may conclude from reads that still hold. */
  lemma ConclusionIsCurrent(L: Ledger, r: DeliveryRequest,
                            aliasD: Option<Sighting>, primaryD: Option<Sighting>,
                            aliasI: Option<Sighting>, primaryI: Option<Sighting>)
    requires Consistent(L) && Coherent(L)
    requires StillHolds(L, r.deliveryId, aliasD) && StillHolds(L, r.deliveryId, primaryD)
    requires StillHolds(L, r.idempotencyId, aliasI) && StillHolds(L, r.idempotencyId, primaryI)
    ensures match Inspect(aliasD, primaryD, aliasI, primaryI, KeysOf(r))
            case NotFound => true
            case Mismatch => Judge(L, KeysOf(r)) == Refused
            case Found(s) =>
              && Judge(L, KeysOf(r)) in {Canonical(s.id), Refused}
              && s.id in L.entries && EntryGrows(s.entry, L.entries[s.id]) && SameDelivery(s.id, L.entries[s.id], r)
  {
    var seen := CombineLookups(CombineReads(aliasD, primaryD), CombineReads(aliasI, primaryI));
    JudgeMeaning(L, r);
    if seen.Found? {
      var s := seen.record;
      AcceptsMeansSameDelivery(s.id, s.entry, r);
    }
  }

  /** A terminal entry can only be replayed or the request refused: Begin claims nothing. */
  lemma TerminalIsReplayed(L: Ledger, k: Keys, id: Id, claimRetryable: bool, sinceNs: int, nowMs: int)
    requires Consistent(L) && Judge(L, k) in {Canonical(id), Refused}
    requires id in L.entries && L.entries[id].row.state.Terminal()
    ensures var (M, result) := Begin(L, k, claimRetryable, sinceNs, nowMs);
      match result
      case Conflict => Judge(L, k) == Refused && M == L
      case Answer(record, shouldSend) =>
        && Judge(L, k) == Canonical(id) && M == Adopt(L, id, k)
        && record.deliveryId == id && record.row == L.entries[id].row && !shouldSend
  {
  }

  /** What the inspection concludes binds Begin, now and later. */
  ghost predicate Binding(L: Ledger, r: DeliveryRequest, conclusion: Inspection)
    requires Consistent(L)
  {
    match conclusion
    case NotFound => true
    case Mismatch =>
      forall sinceNs, nowMs :: Begin(L, KeysOf(r), true, sinceNs, nowMs) == (L, Conflict)
    case Found(s) =>
      s.entry.row.state.Terminal() ==>
        && s.id in L.entries && L.entries[s.id].row == s.entry.row
        && forall sinceNs, nowMs ::
             match Begin(L, KeysOf(r), true, sinceNs, nowMs).1
             case Conflict => Judge(L, KeysOf(r)) == Refused
             case Answer(record, shouldSend) =>
               record.deliveryId == s.id && record.row == s.entry.row && !shouldSend
  }

  lemma CurrentConclusionBinds(L: Ledger, r: DeliveryRequest, conclusion: Inspection)
    requires Consistent(L)
    requires conclusion.Mismatch? ==> Judge(L, KeysOf(r)) == Refused
    requires conclusion.Found? ==>
      var s := conclusion.record;
      && Judge(L, KeysOf(r)) in {Canonical(s.id), Refused}
      && s.id in L.entries && EntryGrows(s.entry, L.entries[s.id])
    ensures Binding(L, r, conclusion)
  {
    if conclusion.Found? && conclusion.record.entry.row.state.Terminal() {
      var s := conclusion.record;
      forall sinceNs, nowMs
        ensures match Begin(L, KeysOf(r), true, sinceNs, nowMs).1
                case Conflict => Judge(L, KeysOf(r)) == Refused
                case Answer(record, shouldSend) =>
                  record.deliveryId == s.id && record.row == s.entry.row && !shouldSend
      {
        TerminalIsReplayed(L, KeysOf(r), s.id, true, sinceNs, nowMs);
      }
    }
  }

  /** The four reads of one inspection, of ledgers that only grow. */
  ghost predicate ReadFrom(L0: Ledger, L1: Ledger, L2: Ledger, L3: Ledger, L: Ledger) {
    && Consistent(L0) && Consistent(L1) && Consistent(L2) && Consistent(L3) && Consistent(L)
    && Coherent(L0) && Coherent(L1) && Coherent(L2) && Coherent(L3) && Coherent(L)
    && Grows(L0, L1) && Grows(L1, L2) && Grows(L2, L3) && Grows(L3, L)
  }

  lemma FourReadsHold(L0: Ledger, L1: Ledger, L2: Ledger, L3: Ledger, L: Ledger, r: DeliveryRequest)
    requires ReadFrom(L0, L1, L2, L3, L)
    ensures StillHolds(L, r.deliveryId, ReadAlias(L0, r.deliveryId))
    ensures StillHolds(L, r.deliveryId, ReadPrimary(L1, r.deliveryId))
    ensures StillHolds(L, r.idempotencyId, ReadAlias(L2, r.idempotencyId))
    ensures StillHolds(L, r.idempotencyId, ReadPrimary(L3, r.idempotencyId))
  {
    GrowsTransitive(L2, L3, L);
    GrowsTransitive(L1, L2, L);
    GrowsTransitive(L0, L1, L);
    ReadsHoldLater(L0, L, r.deliveryId);
    ReadsHoldLater(L1, L, r.deliveryId);
    ReadsHoldLater(L2, L, r.idempotencyId);
    ReadsHoldLater(L3, L, r.idempotencyId);
  }

  /**
   The inspection is sound although it is no transaction: L0..L3 are the ledgers
   its reads saw and L any later one.  A mismatch means that Begin refuses the
   request in L; a terminal record is still stored with that outcome in L, and
   Begin replays it or refuses.
   */
  lemma InspectionIsSound(L0: Ledger, L1: Ledger, L2: Ledger, L3: Ledger, L: Ledger, r: DeliveryRequest)
    requires ReadFrom(L0, L1, L2, L3, L)
    ensures Binding(L, r, Inspect(ReadAlias(L0, r.deliveryId), ReadPrimary(L1, r.deliveryId),
                                  ReadAlias(L2, r.idempotencyId), ReadPrimary(L3, r.idempotencyId), KeysOf(r)))
  {
    FourReadsHold(L0, L1, L2, L3, L, r);
    var (a, p, b, q) := (ReadAlias(L0, r.deliveryId), ReadPrimary(L1, r.deliveryId),
                         ReadAlias(L2, r.idempotencyId), ReadPrimary(L3, r.idempotencyId));
    ConclusionIsCurrent(L, r, a, p, b, q);
    CurrentConclusionBinds(L, r, Inspect(a, p, b, q, KeysOf(r)));
  }

  /** One of the request's identities belongs to another delivery than `id`. */
  predicate OwnedElsewhere(L: Ledger, r: DeliveryRequest, id: Id) {
    || (r.deliveryId in L.owner && L.owner[r.deliveryId] != id)
    || (r.idempotencyId in L.owner && L.owner[r.idempotencyId] != id)
  }

  /** A request that was found to be delivery `id` is refused exactly when another delivery took one of its identities. */
  lemma RefusedWhenOwnedElsewhere(L: Ledger, r: DeliveryRequest, id: Id)
    requires Consistent(L) && Coherent(L) && Judge(L, KeysOf(r)) in {Canonical(id), Refused}
    requires id in L.entries && SameDelivery(id, L.entries[id], r)
    ensures Judge(L, KeysOf(r)) == Refused <==> OwnedElsewhere(L, r, id)
  {
    JudgeMeaning(L, r);
  }

  lemma FoundByBothIsAccepted(L: Ledger, r: DeliveryRequest, aliasD: Option<Sighting>, primaryD: Option<Sighting>,
                              aliasI: Option<Sighting>, primaryI: Option<Sighting>)
    requires Consistent(L) && Coherent(L)
    requires StillHolds(L, r.deliveryId, aliasD) && StillHolds(L, r.deliveryId, primaryD)
    requires StillHolds(L, r.idempotencyId, aliasI) && StillHolds(L, r.idempotencyId, primaryI)
    requires aliasD.Some? && aliasI.Some? && Inspect(aliasD, primaryD, aliasI, primaryI, KeysOf(r)).Found?
    ensures Judge(L, KeysOf(r)) == Canonical(Inspect(aliasD, primaryD, aliasI, primaryI, KeysOf(r)).record.id)
  {
    ConclusionIsCurrent(L, r, aliasD, primaryD, aliasI, primaryI);
    RefusedWhenOwnedElsewhere(L, r, aliasD.value.id);
  }

  /**
   A request both of whose identities were owned when the inspection looked them up,
   and which it found, is accepted as what it found ever after.
   */
  lemma OwnedAtInspectionStaysAccepted(L0: Ledger, L1: Ledger, L2: Ledger, L3: Ledger, L: Ledger, r: DeliveryRequest)
    requires ReadFrom(L0, L1, L2, L3, L) && r.deliveryId in L0.owner && r.idempotencyId in L2.owner
    ensures var seen := Inspect(ReadAlias(L0, r.deliveryId), ReadPrimary(L1, r.deliveryId),
                                ReadAlias(L2, r.idempotencyId), ReadPrimary(L3, r.idempotencyId), KeysOf(r));
      seen.Found? ==> Judge(L, KeysOf(r)) == Canonical(seen.record.id)
  {
    FourReadsHold(L0, L1, L2, L3, L, r);
    var (a, p, b, q) := (ReadAlias(L0, r.deliveryId), ReadPrimary(L1, r.deliveryId),
                         ReadAlias(L2, r.idempotencyId), ReadPrimary(L3, r.idempotencyId));
    if Inspect(a, p, b, q, KeysOf(r)).Found? {
      FoundByBothIsAccepted(L, r, a, p, b, q);
    }
  }

  /** resolveDelivery on one ledger: both identities must agree on one owner. */
  lemma LookupsMeaning(L: Ledger, d: Id, i: Id)
    requires Consistent(L)
    ensures var found := CombineLookups(CombineReads(ReadAlias(L, d), ReadPrimary(L, d)),
                                        CombineReads(ReadAlias(L, i), ReadPrimary(L, i)));
      && (found.NotFound? <==> d !in L.owner && i !in L.owner)
      && (found.Mismatch? <==> d in L.owner && i in L.owner && L.owner[d] != L.owner[i])
      && (found.Found? ==>
            && found.record.id == (if d in L.owner then L.owner[d] else L.owner[i])
            && found.record.id in L.entries && found.record.entry == L.entries[found.record.id])
  {
    if d in L.entries { assert EntryOk(L, d); }
    if i in L.entries { assert EntryOk(L, i); }
  }

  /** With nothing in between, the inspection and Begin's own judgement agree case by case. */
  lemma InspectAgreesWithBegin(L: Ledger, k: Keys)
    requires Consistent(L)
    ensures match InspectAt(L, k)
            case NotFound => Judge(L, k) == Absent
            case Mismatch => Judge(L, k) == Refused
            case Found(s) => Judge(L, k) == Canonical(s.id) && s.id in L.entries && s.entry == L.entries[s.id]
  {
    LookupsMeaning(L, k.deliveryId, k.idempotencyId);
  }

  /** So the judgement is the resolution followed by the digest check. */
  lemma ResolutionDecides(L: Ledger, k: Keys)
    requires Consistent(L)
    ensures var found := CombineLookups(CombineReads(ReadAlias(L, k.deliveryId), ReadPrimary(L, k.deliveryId)),
                                        CombineReads(ReadAlias(L, k.idempotencyId), ReadPrimary(L, k.idempotencyId)));
      match found
      case NotFound => Judge(L, k) == Absent
      case Mismatch => Judge(L, k) == Refused
      case Found(s) =>
        && ReadPrimary(L, s.id) == Some(s)
        && Judge(L, k) == if Accepts(s.id, s.entry, k) then Canonical(s.id) else Refused
  {
    LookupsMeaning(L, k.deliveryId, k.idempotencyId);
  }

  lemma RepeatedCompletionIsIdempotent(L: Ledger, id: Id, digest: Digest, o: Outcome, nowMs: int, laterMs: int)
    requires o.state != Sending && Complete(L, id, digest, o, nowMs).1.Recorded?
    ensures var (M, result) := Complete(L, id, digest, o, nowMs); Complete(M, id, digest, o, laterMs) == (M, result)
  {
    var (M, result) := Complete(L, id, digest, o, nowMs);
    assert SameOutcome(M.entries[id].row, o);
    assert Extend(M, o.retryNotBeforeMs) == M;
    assert result.record == RecordOf(id, M.entries[id]);
  }

  /** Repeating a recorded result changes nothing and answers the same record. */
  lemma RepeatedUpdateIsIdempotent(L: Ledger, id: Id, digest: Digest, c: Completion, nowMs: int, laterMs: int)
    requires Update(L, id, digest, c, nowMs).1.Recorded?
    ensures var (M, result) := Update(L, id, digest, c, nowMs); Update(M, id, digest, c, laterMs) == (M, result)
  {
    RepeatedCompletionIsIdempotent(L, id, digest, Normalize(c).value, nowMs, laterMs);
  }

  /** A different result never overwrites a terminal one. */
  lemma TerminalResultsAreImmutable(L: Ledger, id: Id, digest: Digest, o: Outcome, nowMs: int)
    requires o.state != Sending && id in L.entries && L.entries[id].row.state.Terminal()
    ensures var (M, result) := Complete(L, id, digest, o, nowMs);
      && M.entries == L.entries && M.owner == L.owner
      && (result.Recorded? ==> result.record == RecordOf(id, L.entries[id]))
  {
    var e := L.entries[id];
    assert e.row.state != Sending;
  }
}
