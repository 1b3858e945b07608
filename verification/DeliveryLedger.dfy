/**
 The reference meaning of the delivery store: one map from every known identity
 to the canonical delivery that owns it, one entry per canonical delivery, and
 the bot-wide cooldown.  Each operation is a function from ledgers to ledgers;
 the tables that implement it are in module DeliveryTables.
 */
module DeliveryLedger {
  import opened Prelude
  import opened Wire
  import opened SafeText

  const NS_PER_MS := 1_000_000
  const SENDING_LEASE_NS := 120_000_000_000
  const OUTCOME_UNKNOWN_MESSAGE := "delivery outcome is unknown after adapter restart"
  const COOLDOWN_ACTIVE_MESSAGE := "Telegram provider cooldown is active"

  datatype DeliveryState = Sending | Retryable | Delivered | Permanent | Unknown {
    predicate Terminal() {
      Delivered? || Permanent? || Unknown?
    }
  }

  /** One row of `deliveries`; times are Unix milliseconds and 0 means no retry time. */
  datatype Row = Row(
    legacyDigest: Digest,
    state: DeliveryState,
    providerMessageId: string,
    safeMessage: string,
    retryNotBeforeMs: int,
    createdMs: int,
    updatedMs: int)

  /** One row of `delivery_idempotency`; its digest version is always 2. */
  datatype Registration = Registration(idempotencyId: Id, requestDigest: Digest)

  /** A delivery row together with its registration, absent on a version 1 row. */
  datatype Entry = Entry(row: Row, registered: Option<Registration>)

  datatype Ledger = Ledger(owner: map<Id, Id>, entries: map<Id, Entry>, cooldownMs: int)

  /** What a caller of the store sees of an entry (the LEFT JOIN with its COALESCEs). */
  datatype DeliveryRecord = DeliveryRecord(
    deliveryId: Id,
    idempotencyId: Id,
    digestVersion: int,
    requestDigest: Digest,
    row: Row)

  function RecordOf(id: Id, e: Entry): DeliveryRecord {
    match e.registered
    case None => DeliveryRecord(id, id, 1, e.row.legacyDigest, e.row)
    case Some(m) => DeliveryRecord(id, m.idempotencyId, 2, m.requestDigest, e.row)
  }

  /** What every persisted row promises. */
  predicate RowOk(row: Row, cooldownMs: int) {
    && 0 <= row.retryNotBeforeMs
    && (row.retryNotBeforeMs > 0 ==> row.state == Retryable && row.retryNotBeforeMs <= cooldownMs)
    && (row.providerMessageId != "" ==> row.state == Delivered)
    && (row.state == Unknown ==> row.safeMessage != "")
  }

  predicate EntryOk(L: Ledger, id: Id)
    requires id in L.entries
  {
    && RowOk(L.entries[id].row, L.cooldownMs)
    && id in L.owner && L.owner[id] == id
    && match L.entries[id].registered
       case Some(m) => m.idempotencyId in L.owner && L.owner[m.idempotencyId] == id
       case None => true
  }

  ghost predicate Consistent(L: Ledger) {
    && 0 <= L.cooldownMs
    && (forall id :: id in L.entries ==> EntryOk(L, id))
    && (forall x :: x in L.owner ==>
          && L.owner[x] in L.entries
          && (L.entries[L.owner[x]].registered.None? ==> L.owner[x] == x))
  }

  /** The identities and digests of one request, as Begin and Inspect receive them. */
  datatype Keys = Keys(deliveryId: Id, idempotencyId: Id, requestDigest: Digest, legacyDigest: Digest)

  function KeysOf(r: DeliveryRequest): Keys {
    Keys(r.deliveryId, r.idempotencyId, LogicalDigest(r), LegacyDigest(r))
  }

  datatype Verdict = Absent | Refused | Canonical(id: Id)

  /** The digest rules: version 2 compares the registration, version 1 the original request. */
  predicate Accepts(id: Id, e: Entry, k: Keys) {
    match e.registered
    case Some(m) => m == Registration(k.idempotencyId, k.requestDigest)
    case None =>
      || (id == k.deliveryId && e.row.legacyDigest == k.legacyDigest)
      || (id == k.idempotencyId && e.row.legacyDigest == k.requestDigest)
  }

  /** Which canonical delivery a request names: none, exactly one that accepts it, or a conflict. */
  function Judge(L: Ledger, k: Keys): Verdict
    requires Consistent(L)
  {
    if k.deliveryId !in L.owner && k.idempotencyId !in L.owner then Absent
    else if k.deliveryId in L.owner && k.idempotencyId in L.owner && L.owner[k.deliveryId] != L.owner[k.idempotencyId]
    then Refused
    else
      var id := if k.deliveryId in L.owner then L.owner[k.deliveryId] else L.owner[k.idempotencyId];
      if Accepts(id, L.entries[id], k) then Canonical(id) else Refused
  }

  // ---------------------------------------------------------------- Begin

  datatype BeginResult = Conflict | Answer(record: DeliveryRecord, shouldSend: bool)

  /** Both identities of an accepted request now name `id`, and `id` is registered under its stable ID. */
  function Adopt(L: Ledger, id: Id, k: Keys): Ledger
    requires id in L.entries
  {
    L.(owner := L.owner[k.deliveryId := id][k.idempotencyId := id],
       entries := L.entries[id := L.entries[id].(registered := Some(Registration(k.idempotencyId, k.requestDigest)))])
  }

  function SetRow(L: Ledger, id: Id, row: Row): Ledger
    requires id in L.entries
  {
    L.(entries := L.entries[id := L.entries[id].(row := row)])
  }

  predicate LeaseExpired(row: Row, sinceNs: int) {
    row.state == Sending && sinceNs - row.updatedMs * NS_PER_MS >= SENDING_LEASE_NS
  }

  function Interrupted(row: Row, nowMs: int): Row {
    row.(state := Unknown, providerMessageId := "", safeMessage := OUTCOME_UNKNOWN_MESSAGE,
         retryNotBeforeMs := 0, updatedMs := nowMs)
  }

  function Reclaimed(row: Row, nowMs: int): Row {
    row.(state := Sending, providerMessageId := "", safeMessage := "", retryNotBeforeMs := 0, updatedMs := nowMs)
  }

  function Max(a: int, b: int): int {
    if b > a then b else a
  }

  /** The part of Begin that runs once the request is known to name `id`. */
  function Resume(L: Ledger, id: Id, claimRetryable: bool, sinceNs: int, nowMs: int): (Ledger, BeginResult)
    requires id in L.entries
  {
    var e := L.entries[id];
    if LeaseExpired(e.row, sinceNs) then
      var row := Interrupted(e.row, nowMs);
      (SetRow(L, id, row), Answer(RecordOf(id, e.(row := row)), false))
    else if claimRetryable && e.row.state == Retryable then
      var notBefore := Max(e.row.retryNotBeforeMs, L.cooldownMs);
      if notBefore != 0 && nowMs < notBefore then
        // the reported time is not written back
        (L, Answer(RecordOf(id, e.(row := e.row.(retryNotBeforeMs := notBefore))), false))
      else
        var row := Reclaimed(e.row, nowMs);
        (SetRow(L, id, row), Answer(RecordOf(id, e.(row := row)), true))
    else
      (L, Answer(RecordOf(id, e), false))
  }

  function NewRow(L: Ledger, k: Keys, claimRetryable: bool, nowMs: int): Row {
    if claimRetryable && L.cooldownMs != 0 && nowMs < L.cooldownMs
    then Row(k.legacyDigest, Retryable, "", COOLDOWN_ACTIVE_MESSAGE, L.cooldownMs, nowMs, nowMs)
    else Row(k.legacyDigest, Sending, "", "", 0, nowMs, nowMs)
  }

  function Insert(L: Ledger, k: Keys, claimRetryable: bool, nowMs: int): (Ledger, BeginResult) {
    var e := Entry(NewRow(L, k, claimRetryable, nowMs), Some(Registration(k.idempotencyId, k.requestDigest)));
    (L.(owner := L.owner[k.deliveryId := k.deliveryId][k.idempotencyId := k.deliveryId],
        entries := L.entries[k.deliveryId := e]),
     Answer(RecordOf(k.deliveryId, e), e.row.state == Sending))
  }

  /**
   createOrBeginDelivery as one transaction.  `sinceNs` is the clock the lease is
   measured against and `nowMs` the one new timestamps carry.
   */
  function Begin(L: Ledger, k: Keys, claimRetryable: bool, sinceNs: int, nowMs: int): (Ledger, BeginResult)
    requires Consistent(L)
  {
    match Judge(L, k)
    case Refused => (L, Conflict)
    case Absent => Insert(L, k, claimRetryable, nowMs)
    case Canonical(id) => Resume(Adopt(L, id, k), id, claimRetryable, sinceNs, nowMs)
  }

  // ---------------------------------------------------------------- Inspect

  /** One row read by the inspection, as it was at that moment. */
  datatype Sighting = Sighting(id: Id, entry: Entry)

  function ReadAlias(L: Ledger, x: Id): Option<Sighting>
    requires x in L.owner ==> L.owner[x] in L.entries
  {
    if x in L.owner then Some(Sighting(L.owner[x], L.entries[L.owner[x]])) else None
  }

  function ReadPrimary(L: Ledger, x: Id): Option<Sighting> {
    if x in L.entries then Some(Sighting(x, L.entries[x])) else None
  }

  datatype Inspection = NotFound | Mismatch | Found(record: Sighting)

  /** getDeliveryByIdentity over two reads. */
  function CombineReads(byAlias: Option<Sighting>, byPrimary: Option<Sighting>): Inspection {
    if byAlias.Some? && byPrimary.Some? && byAlias.value.id != byPrimary.value.id then Mismatch
    else if byAlias.Some? then Found(byAlias.value)
    else if byPrimary.Some? then Found(byPrimary.value)
    else NotFound
  }

  /** resolveDelivery over the lookups of both identities. */
  function CombineLookups(byDelivery: Inspection, byIdempotency: Inspection): Inspection {
    if byDelivery.Mismatch? || byIdempotency.Mismatch? then Mismatch
    else if byDelivery.Found? && byIdempotency.Found? && byDelivery.record.id != byIdempotency.record.id then Mismatch
    else if byDelivery.Found? then byDelivery
    else byIdempotency
  }

  /** The whole inspection over its four reads, in the order they are issued. */
  function Inspect(aliasD: Option<Sighting>, primaryD: Option<Sighting>,
                   aliasI: Option<Sighting>, primaryI: Option<Sighting>, k: Keys): Inspection
  {
    var seen := CombineLookups(CombineReads(aliasD, primaryD), CombineReads(aliasI, primaryI));
    if seen.Found? && !Accepts(seen.record.id, seen.record.entry, k) then Mismatch else seen
  }

  /** The inspection when nothing commits between its reads. */
  function InspectAt(L: Ledger, k: Keys): Inspection
    requires Consistent(L)
  {
    Inspect(ReadAlias(L, k.deliveryId), ReadPrimary(L, k.deliveryId),
            ReadAlias(L, k.idempotencyId), ReadPrimary(L, k.idempotencyId), k)
  }

  // ---------------------------------------------------------------- Update

  datatype UpdateError = UnknownDelivery | DigestConflict | InvalidTransition | InvalidArgument

  datatype UpdateResult = Failed(error: UpdateError) | Recorded(record: DeliveryRecord)

  /** A completed attempt as its caller describes it; no retry time is None. */
  datatype Completion = Completion(
    state: DeliveryState,
    providerMessageId: string,
    safeMessage: string,
    retryNotBeforeMs: Option<int>)

  function NormalizeProviderMessageId(value: string): Option<string> {
    var v := TrimSpace(value);
    if v == "" then Some("")
    else if ByteLen(v) > MAX_IDENTITY_BYTES || HasControl(v) then None
    else Some(v)
  }

  /** The columns an attempt's result is stored in. */
  datatype Outcome = Outcome(
    state: DeliveryState,
    providerMessageId: string,
    safeMessage: string,
    retryNotBeforeMs: int)

  predicate OutcomeOk(o: Outcome) {
    && o.state != Sending
    && 0 <= o.retryNotBeforeMs
    && (o.retryNotBeforeMs > 0 ==> o.state == Retryable)
    && (o.providerMessageId != "" ==> o.state == Delivered)
    && (o.state == Unknown ==> o.safeMessage != "")
  }

  /** The outcome a completion is to be stored as, or None when it is not a valid argument. */
  function Normalize(c: Completion): (o: Option<Outcome>)
    ensures o.Some? ==> o.value.state == c.state && OutcomeOk(o.value)
  {
    var pid := NormalizeProviderMessageId(c.providerMessageId);
    if c.state == Sending || pid.None? then None
    else if c.state == Retryable && c.retryNotBeforeMs.Some? && c.retryNotBeforeMs.value <= 0 then None
    else
      var message := NormalizeSafeMessage(c.safeMessage);
      Some(Outcome(
             c.state,
             if c.state == Delivered then pid.value else "",
             if c.state == Unknown && message == "" then OUTCOME_UNKNOWN_MESSAGE else message,
             if c.state == Retryable && c.retryNotBeforeMs.Some? then c.retryNotBeforeMs.value else 0))
  }

  function WithOutcome(row: Row, o: Outcome, nowMs: int): Row {
    row.(state := o.state, providerMessageId := o.providerMessageId, safeMessage := o.safeMessage,
         retryNotBeforeMs := o.retryNotBeforeMs, updatedMs := nowMs)
  }

  predicate SameOutcome(row: Row, o: Outcome) {
    && row.state == o.state && row.providerMessageId == o.providerMessageId
    && row.safeMessage == o.safeMessage && row.retryNotBeforeMs == o.retryNotBeforeMs
  }

  function Extend(L: Ledger, untilMs: int): Ledger {
    L.(cooldownMs := Max(L.cooldownMs, untilMs))
  }

  /** The transaction of updateDelivery, once its arguments are normalised. */
  function Complete(L: Ledger, id: Id, digest: Digest, o: Outcome, nowMs: int): (Ledger, UpdateResult) {
    if id !in L.entries then (L, Failed(UnknownDelivery))
    else
      var e := L.entries[id];
      if RecordOf(id, e).requestDigest != digest then (L, Failed(DigestConflict))
      else if e.row.state == Sending then
        var row := WithOutcome(e.row, o, nowMs);
        (Extend(SetRow(L, id, row), o.retryNotBeforeMs), Recorded(RecordOf(id, e.(row := row))))
      else if SameOutcome(e.row, o) then
        (Extend(L, o.retryNotBeforeMs), Recorded(RecordOf(id, e)))
      else (L, Failed(InvalidTransition))
  }

  /** updateDelivery: normalise, then one transaction. */
  function Update(L: Ledger, id: Id, digest: Digest, c: Completion, nowMs: int): (Ledger, UpdateResult) {
    match Normalize(c)
    case None => (L, Failed(InvalidArgument))
    case Some(o) => Complete(L, id, digest, o, nowMs)
  }

  // ---------------------------------------------------------------- Recovery

  /** recoverInterruptedDeliveries: every attempt in flight becomes an unknown outcome. */
  function Recover(L: Ledger, nowMs: int): Ledger {
    L.(entries := map id | id in L.entries ::
         var e := L.entries[id];
         if e.row.state == Sending then e.(row := Interrupted(e.row, nowMs)) else e)
  }
}
