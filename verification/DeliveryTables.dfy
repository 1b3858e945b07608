/**
 The delivery store as it is built: four tables, changed in place inside
 transactions that either commit or leave no trace.  Every operation is proved to
 do to the tables what module DeliveryLedger says it does to the ledger they represent.
 */
module DeliveryTables {
  import opened Prelude
  import opened Wire
  import opened DeliveryLedger
  import opened LedgerLaws
  import opened InspectionLaws

  const PROVIDER_COOLDOWN_SCOPE := "telegram-bot"

  datatype StoreError =
    | NotFoundError
    | DigestConflictError
    | InvalidArgumentError
    | InvalidTransitionError
    | ConstraintError   // a PRIMARY KEY, UNIQUE or FOREIGN KEY constraint
    | CommitError       // the commit itself failed

  function ErrorOf(error: UpdateError): StoreError {
    match error
    case UnknownDelivery => NotFoundError
    case DigestConflict => DigestConflictError
    case InvalidTransition => InvalidTransitionError
    case InvalidArgument => InvalidArgumentError
  }

  datatype Reply<T> = Ok(value: T) | Err(error: StoreError)

  /** LEFT JOIN of a delivery with its registration. */
  function Join(deliveries: map<Id, Row>, idempotency: map<Id, Registration>, id: Id): Entry
    requires id in deliveries
  {
    Entry(deliveries[id], if id in idempotency then Some(idempotency[id]) else None)
  }

  ghost function View(deliveries: map<Id, Row>, idempotency: map<Id, Registration>, aliases: map<Id, Id>,
                      cooldowns: map<string, int>): Ledger
  {
    Ledger(aliases,
           map id | id in deliveries :: Join(deliveries, idempotency, id),
           if PROVIDER_COOLDOWN_SCOPE in cooldowns then cooldowns[PROVIDER_COOLDOWN_SCOPE] else 0)
  }

  lemma ViewOfRegistration(d: map<Id, Row>, g: map<Id, Registration>, a: map<Id, Id>, c: map<string, int>,
                           id: Id, m: Registration)
    requires id in d
    ensures var L := View(d, g, a, c);
      View(d, g[id := m], a, c) == L.(entries := L.entries[id := L.entries[id].(registered := Some(m))])
  {
  }

  /** A registration without a row shows nowhere. */
  lemma ViewOfUnknown(d: map<Id, Row>, g: map<Id, Registration>, a: map<Id, Id>, c: map<string, int>,
                      id: Id, m: Registration)
    requires id !in d
    ensures View(d, g[id := m], a, c) == View(d, g, a, c)
  {
  }

  lemma ViewOfRow(d: map<Id, Row>, g: map<Id, Registration>, a: map<Id, Id>, c: map<string, int>, id: Id, row: Row)
    ensures var L := View(d, g, a, c);
      View(d[id := row], g, a, c)
      == L.(entries := L.entries[id := Entry(row, if id in g then Some(g[id]) else None)])
  {
  }

  class DeliveryStore {
    var deliveries: map<Id, Row>
    var idempotency: map<Id, Registration>
    var aliases: map<Id, Id>
    var cooldowns: map<string, int>

    function Joined(id: Id): Entry
      reads this
      requires id in deliveries
    {
      Join(deliveries, idempotency, id)
    }

    /** The ledger the tables stand for. */
    ghost function Contents(): Ledger
      reads this
    {
      View(deliveries, idempotency, aliases, cooldowns)
    }

    /** What FOREIGN KEY alone enforces. */
    ghost predicate ForeignKeys()
      reads this
    {
      && idempotency.Keys <= deliveries.Keys
      && forall x :: x in aliases ==> aliases[x] in deliveries
    }

    ghost predicate Valid()
      reads this
    {
      && ForeignKeys()
      && Consistent(Contents())
      && (PROVIDER_COOLDOWN_SCOPE in cooldowns ==> 0 < cooldowns[PROVIDER_COOLDOWN_SCOPE])
    }

    /** A new database, all migrations applied. */
    constructor ()
      ensures Valid() && Contents() == Ledger(map[], map[], 0)
    {
      deliveries, idempotency, aliases, cooldowns := map[], map[], map[], map[];
    }

    // -------------------------------------------------------------- reads

    method GetDelivery(id: Id) returns (found: Option<Sighting>)
      ensures found == ReadPrimary(Contents(), id)
    {
      found := if id in deliveries then Some(Sighting(id, Joined(id))) else None;
    }

    method GetDeliveryByAlias(aliasId: Id) returns (found: Option<Sighting>)
      requires ForeignKeys()
      ensures found == ReadAlias(Contents(), aliasId)
    {
      found := if aliasId in aliases then Some(Sighting(aliases[aliasId], Joined(aliases[aliasId]))) else None;
    }

    method GetDeliveryByIdentity(id: Id) returns (found: Inspection)
      requires ForeignKeys()
      ensures found == CombineReads(ReadAlias(Contents(), id), ReadPrimary(Contents(), id))
    {
      var byAlias := GetDeliveryByAlias(id);
      var byPrimary := GetDelivery(id);
      if byAlias.Some? && byPrimary.Some? && byAlias.value.id != byPrimary.value.id {
        return Mismatch;
      }
      if byAlias.Some? {
        return Found(byAlias.value);
      }
      if byPrimary.Some? {
        return Found(byPrimary.value);
      }
      return NotFound;
    }

    method ResolveDelivery(deliveryId: Id, idempotencyId: Id) returns (found: Inspection)
      requires ForeignKeys()
      ensures found == CombineLookups(
                         CombineReads(ReadAlias(Contents(), deliveryId), ReadPrimary(Contents(), deliveryId)),
                         CombineReads(ReadAlias(Contents(), idempotencyId), ReadPrimary(Contents(), idempotencyId)))
    {
      var byDelivery := GetDeliveryByIdentity(deliveryId);
      var byIdempotency := GetDeliveryByIdentity(idempotencyId);
      if byDelivery.Mismatch? || byIdempotency.Mismatch? {
        return Mismatch;
      }
      if byDelivery.Found? && byIdempotency.Found? && byDelivery.record.id != byIdempotency.record.id {
        return Mismatch;
      }
      if byDelivery.Found? {
        return byDelivery;
      }
      return byIdempotency;
    }

    /** The digest check of a resolved record. */
    static method CheckDigests(record: Sighting, k: Keys) returns (accepted: bool)
      ensures accepted <==> Accepts(record.id, record.entry, k)
    {
      match record.entry.registered {
        case None =>
          var legacy := record.entry.row.legacyDigest;
          var exactAttempt := record.id == k.deliveryId && legacy == k.legacyDigest;
          var stableReplay := record.id == k.idempotencyId && legacy == k.requestDigest;
          accepted := exactAttempt || stableReplay;
        case Some(m) =>
          accepted := !(m.idempotencyId != k.idempotencyId || m.requestDigest != k.requestDigest);
      }
    }

    /** InspectDeliveryWithIdempotency while nothing else commits. */
    method InspectDelivery(k: Keys) returns (found: Inspection)
      requires Valid()
      ensures found == InspectAt(Contents(), k)
      ensures match found
              case NotFound => Judge(Contents(), k) == Absent
              case Mismatch => Judge(Contents(), k) == Refused
              case Found(s) => Judge(Contents(), k) == Canonical(s.id) && ReadPrimary(Contents(), s.id) == Some(s)
    {
      InspectAgreesWithBegin(Contents(), k);
      found := ResolveDelivery(k.deliveryId, k.idempotencyId);
      if found.Found? {
        var accepted := CheckDigests(found.record, k);
        if !accepted {
          found := Mismatch;
        }
      }
    }

    /** The durable cooldown, 0 when there is none. */
    method GetProviderCooldown() returns (untilMs: int)
      requires Valid()
      ensures untilMs == Contents().cooldownMs
    {
      untilMs := if PROVIDER_COOLDOWN_SCOPE in cooldowns then cooldowns[PROVIDER_COOLDOWN_SCOPE] else 0;
    }

    // -------------------------------------------------------------- writes

    /** Records `aliasId` as a name of `id`, unless it already names something else. */
    method EnsureDeliveryAlias(aliasId: Id, id: Id) returns (error: Option<StoreError>)
      modifies this`aliases
      ensures error.None? <==>
              && (aliasId in deliveries ==> aliasId == id)
              && (if aliasId in old(aliases) then old(aliases)[aliasId] == id else id in deliveries)
      ensures aliases == if error.None? then old(aliases)[aliasId := id] else old(aliases)
    {
      if aliasId in deliveries && aliasId != id {
        return Some(DigestConflictError);
      }
      if aliasId !in aliases {
        if id !in deliveries {
          return Some(ConstraintError);
        }
        aliases := aliases[aliasId := id];
        return None;
      }
      if aliases[aliasId] != id {
        return Some(DigestConflictError);
      }
      return None;
    }

    /** INSERT INTO delivery_idempotency */
    method InsertRegistration(id: Id, m: Registration) returns (error: Option<StoreError>)
      modifies this`idempotency
      ensures error.None? <==>
              && id in deliveries && id !in old(idempotency)
              && forall j :: j in old(idempotency) ==> old(idempotency)[j].idempotencyId != m.idempotencyId
      ensures idempotency == if error.None? then old(idempotency)[id := m] else old(idempotency)
    {
      if id !in deliveries || id in idempotency
         || (exists j :: j in idempotency && idempotency[j].idempotencyId == m.idempotencyId) {
        return Some(ConstraintError);
      }
      idempotency := idempotency[id := m];
      return None;
    }

    /** INSERT INTO deliveries */
    method InsertDelivery(id: Id, row: Row) returns (error: Option<StoreError>)
      modifies this`deliveries
      ensures error.None? <==> id !in old(deliveries)
      ensures deliveries == if error.None? then old(deliveries)[id := row] else old(deliveries)
    {
      if id in deliveries {
        return Some(ConstraintError);
      }
      deliveries := deliveries[id := row];
      return None;
    }

    /** UPDATE deliveries ... WHERE delivery_id = ? AND request_digest = ? AND state = ? */
    method UpdateRow(id: Id, legacyDigest: Digest, expected: DeliveryState, row: Row) returns (rows: nat)
      modifies this`deliveries
      ensures var hit := id in old(deliveries) && old(deliveries)[id].legacyDigest == legacyDigest
                         && old(deliveries)[id].state == expected;
        rows == (if hit then 1 else 0) && deliveries == if hit then old(deliveries)[id := row] else old(deliveries)
    {
      rows := 0;
      if id in deliveries && deliveries[id].legacyDigest == legacyDigest && deliveries[id].state == expected {
        deliveries := deliveries[id := row];
        rows := 1;
      }
    }

    /** upgradeLegacyDelivery: a version 1 record takes the identity and digest of its first accepted replay. */
    method UpgradeLegacyDelivery(id: Id, idempotencyId: Id, requestDigest: Digest) returns (error: Option<StoreError>)
      modifies this`aliases, this`idempotency
      ensures error.None? ==>
                && idempotency == old(idempotency)[id := Registration(idempotencyId, requestDigest)]
                && aliases == old(aliases)[idempotencyId := id]
      ensures (&& id in deliveries && id !in old(idempotency)
               && (idempotencyId in deliveries ==> idempotencyId == id)
               && (idempotencyId in old(aliases) ==> old(aliases)[idempotencyId] == id)
               && forall j :: j in old(idempotency) ==> old(idempotency)[j].idempotencyId != idempotencyId)
              ==> error.None?
    {
      error := EnsureDeliveryAlias(idempotencyId, id);
      if error.Some? {
        return;
      }
      error := InsertRegistration(id, Registration(idempotencyId, requestDigest));
    }

    /** `x` names `id` or nothing. */
    ghost predicate FreeFor(x: Id, id: Id)
      reads this
    {
      (x in deliveries ==> x == id) && (x in aliases ==> aliases[x] == id)
    }

    /** The accepted half of Begin: register a version 1 record and alias both identities. */
    method AdoptDelivery(record: Sighting, k: Keys) returns (error: Option<StoreError>)
      requires record.id in deliveries && record.entry == Joined(record.id)
      requires FreeFor(k.deliveryId, record.id) && FreeFor(k.idempotencyId, record.id)
      requires match record.entry.registered
               case None => forall j :: j in idempotency ==> idempotency[j].idempotencyId != k.idempotencyId
               case Some(m) => m == Registration(k.idempotencyId, k.requestDigest)
      modifies this`aliases, this`idempotency
      ensures error.None?
      ensures idempotency == old(idempotency)[record.id := Registration(k.idempotencyId, k.requestDigest)]
      ensures aliases == old(aliases)[k.deliveryId := record.id][k.idempotencyId := record.id]
    {
      var id := record.id;
      if record.entry.registered.None? {
        error := UpgradeLegacyDelivery(id, k.idempotencyId, k.requestDigest);
        if error.Some? {
          return;
        }
      }
      error := EnsureDeliveryAlias(k.deliveryId, id);
      if error.Some? {
        return;
      }
      error := EnsureDeliveryAlias(k.idempotencyId, id);
    }

    /** The transaction body for a delivery neither identity of which is known. */
    method InsertNew(k: Keys, row: Row) returns (error: Option<StoreError>)
      requires k.deliveryId !in deliveries && k.deliveryId !in idempotency
      requires k.idempotencyId in deliveries ==> k.idempotencyId == k.deliveryId
      requires k.deliveryId !in aliases && k.idempotencyId !in aliases
      requires forall j :: j in idempotency ==> idempotency[j].idempotencyId != k.idempotencyId
      modifies this`deliveries, this`aliases, this`idempotency
      ensures error.None?
      ensures deliveries == old(deliveries)[k.deliveryId := row]
      ensures idempotency == old(idempotency)[k.deliveryId := Registration(k.idempotencyId, k.requestDigest)]
      ensures aliases == old(aliases)[k.deliveryId := k.deliveryId][k.idempotencyId := k.deliveryId]
    {
      error := InsertDelivery(k.deliveryId, row);
      if error.Some? {
        return;
      }
      error := InsertRegistration(k.deliveryId, Registration(k.idempotencyId, k.requestDigest));
      if error.Some? {
        return;
      }
      error := EnsureDeliveryAlias(k.deliveryId, k.deliveryId);
      if error.Some? {
        return;
      }
      error := EnsureDeliveryAlias(k.idempotencyId, k.deliveryId);
    }

    /** The transaction body once the record is adopted: lease recovery, cooldown, claim. */
    method ResumeDelivery(id: Id, entry: Entry, claimRetryable: bool, cooldownMs: int, sinceNs: int, nowMs: int)
      returns (record: DeliveryRecord, shouldSend: bool)
      requires id in deliveries && entry == Joined(id)
      modifies this`deliveries
      ensures var L := old(Contents()).(cooldownMs := cooldownMs);
        && id in L.entries
        && var (M, result) := Resume(L, id, claimRetryable, sinceNs, nowMs);
           result == Answer(record, shouldSend) && deliveries == old(deliveries)[id := M.entries[id].row]
    {
      var row := entry.row;
      if row.state == Sending && sinceNs - row.updatedMs * NS_PER_MS >= SENDING_LEASE_NS {
        row := row.(state := Unknown, providerMessageId := "", safeMessage := OUTCOME_UNKNOWN_MESSAGE,
                    retryNotBeforeMs := 0, updatedMs := nowMs);
        var _ := UpdateRow(id, row.legacyDigest, Sending, row);
        return RecordOf(id, entry.(row := row)), false;
      }
      if claimRetryable && row.state == Retryable {
        var retryNotBefore := row.retryNotBeforeMs;
        if cooldownMs > retryNotBefore {
          retryNotBefore := cooldownMs;
        }
        if retryNotBefore != 0 && nowMs < retryNotBefore {
          return RecordOf(id, entry.(row := row.(retryNotBeforeMs := retryNotBefore))), false;
        }
        row := row.(state := Sending, providerMessageId := "", safeMessage := "", retryNotBeforeMs := 0,
                    updatedMs := nowMs);
        var _ := UpdateRow(id, row.legacyDigest, Retryable, row);
        return RecordOf(id, entry.(row := row)), true;
      }
      return RecordOf(id, entry), false;
    }

    /** The statements of Begin for a record that accepts the request. */
    method RunExisting(record: Sighting, k: Keys, claimRetryable: bool, cooldownMs: int, sinceNs: int, nowMs: int)
      returns (reply: Reply<(DeliveryRecord, bool)>)
      requires Valid() && Judge(Contents(), k) == Canonical(record.id)
      requires ReadPrimary(Contents(), record.id) == Some(record)
      requires claimRetryable ==> cooldownMs == Contents().cooldownMs
      modifies this`deliveries, this`aliases, this`idempotency
      ensures idempotency.Keys <= deliveries.Keys && record.id in old(Contents()).entries
      ensures var (M, result) :=
                Resume(Adopt(old(Contents()), record.id, k), record.id, claimRetryable, sinceNs, nowMs);
        result.Answer? && reply == Ok((result.record, result.shouldSend)) && Contents() == M
    {
      var error := AdoptResolved(record, k);
      if error.Some? {
        return Err(ConstraintError);
      }
      var adopted := record.entry.(registered := Some(Registration(k.idempotencyId, k.requestDigest)));
      ResumeIgnoresCooldown(Contents(), record.id, claimRetryable, cooldownMs, sinceNs, nowMs);
      ViewOfResume(deliveries, idempotency, aliases, cooldowns, record.id, claimRetryable, sinceNs, nowMs);
      var result, shouldSend := ResumeDelivery(record.id, adopted, claimRetryable, cooldownMs, sinceNs, nowMs);
      return Ok((result, shouldSend));
    }

    /** The statements of Begin for a request neither identity of which is known. */
    method RunInsert(k: Keys, claimRetryable: bool, cooldownMs: int, nowMs: int)
      returns (reply: Reply<(DeliveryRecord, bool)>)
      requires Valid() && Judge(Contents(), k) == Absent
      requires claimRetryable ==> cooldownMs == Contents().cooldownMs
      modifies this`deliveries, this`aliases, this`idempotency
      ensures idempotency.Keys <= deliveries.Keys
      ensures var (M, result) := Insert(old(Contents()), k, claimRetryable, nowMs);
        result.Answer? && reply == Ok((result.record, result.shouldSend)) && Contents() == M
    {
      var row := Row(k.legacyDigest, Sending, "", "", 0, nowMs, nowMs);
      var shouldSend := true;
      if claimRetryable && cooldownMs != 0 && nowMs < cooldownMs {
        row := row.(state := Retryable, safeMessage := COOLDOWN_ACTIVE_MESSAGE, retryNotBeforeMs := cooldownMs);
        shouldSend := false;
      }
      var error := InsertAbsent(k, row);
      if error.Some? {
        return Err(ConstraintError);
      }
      var entry := Entry(row, Some(Registration(k.idempotencyId, k.requestDigest)));
      return Ok((RecordOf(k.deliveryId, entry), shouldSend));
    }

    /** The statements of Begin, inside a transaction that is still open. */
    method RunBegin(k: Keys, claimRetryable: bool, sinceNs: int, nowMs: int)
      returns (reply: Reply<(DeliveryRecord, bool)>)
      requires Valid()
      modifies this`deliveries, this`aliases, this`idempotency
      ensures idempotency.Keys <= deliveries.Keys
      ensures var (M, result) := Begin(old(Contents()), k, claimRetryable, sinceNs, nowMs);
        match result
        case Conflict => reply == Err(DigestConflictError)
        case Answer(record, shouldSend) => reply == Ok((record, shouldSend)) && Contents() == M
    {
      var cooldownMs := 0;
      if claimRetryable {
        cooldownMs := GetProviderCooldown();
      }
      ResolutionDecides(Contents(), k);
      var found := ResolveDelivery(k.deliveryId, k.idempotencyId);
      if found.Mismatch? {
        return Err(DigestConflictError);
      }
      if found.Found? {
        var accepted := CheckDigests(found.record, k);
        if !accepted {
          return Err(DigestConflictError);
        }
        reply := RunExisting(found.record, k, claimRetryable, cooldownMs, sinceNs, nowMs);
        return;
      }
      reply := RunInsert(k, claimRetryable, cooldownMs, nowMs);
    }

    method AdoptResolved(record: Sighting, k: Keys) returns (error: Option<StoreError>)
      requires Valid() && Judge(Contents(), k) == Canonical(record.id)
      requires ReadPrimary(Contents(), record.id) == Some(record)
      modifies this`aliases, this`idempotency
      ensures error.None? && idempotency.Keys <= deliveries.Keys
      ensures record.id in old(Contents()).entries
      ensures Contents() == Adopt(old(Contents()), record.id, k)
    {
      ghost var L := Contents();
      NoConstraintCanFail(L, k, record.id);
      assert forall j :: j in idempotency ==> j in L.entries && L.entries[j].registered == Some(idempotency[j]);
      error := AdoptDelivery(record, k);
      ViewOfRegistration(deliveries, old(idempotency), aliases, cooldowns, record.id,
                         Registration(k.idempotencyId, k.requestDigest));
    }

    /** Neither identity of a request that nothing answers to is in any table. */
    lemma FreeForInsert(k: Keys)
      requires Valid() && Judge(Contents(), k) == Absent
      ensures k.deliveryId !in deliveries && k.deliveryId !in idempotency && k.idempotencyId !in deliveries
      ensures k.deliveryId !in aliases && k.idempotencyId !in aliases
      ensures forall j :: j in idempotency ==> idempotency[j].idempotencyId != k.idempotencyId
    {
      var L := Contents();
      AbsentMeetsNoConstraint(L, k);
      assert forall j :: j in idempotency ==> j in L.entries && L.entries[j].registered == Some(idempotency[j]);
    }

    method InsertAbsent(k: Keys, row: Row) returns (error: Option<StoreError>)
      requires Valid() && Judge(Contents(), k) == Absent
      modifies this`deliveries, this`aliases, this`idempotency
      ensures error.None? && idempotency.Keys <= deliveries.Keys
      ensures Contents() == old(Contents()).(
                owner := old(aliases)[k.deliveryId := k.deliveryId][k.idempotencyId := k.deliveryId],
                entries := old(Contents()).entries[
                  k.deliveryId := Entry(row, Some(Registration(k.idempotencyId, k.requestDigest)))])
    {
      FreeForInsert(k);
      error := InsertNew(k, row);
      ViewOfRow(old(deliveries), idempotency, aliases, cooldowns, k.deliveryId, row);
      ViewOfUnknown(old(deliveries), old(idempotency), aliases, cooldowns, k.deliveryId,
                    Registration(k.idempotencyId, k.requestDigest));
    }

    /**
     createOrBeginDelivery: claims a new or retryable delivery, or answers with the
     record that already holds it.  When the commit fails nothing has happened.
     */
    method CreateOrBegin(k: Keys, claimRetryable: bool, sinceNs: int, nowMs: int, commits: bool)
      returns (reply: Reply<(DeliveryRecord, bool)>)
      requires Valid()
      modifies this
      ensures Valid()
      ensures var (M, result) := Begin(old(Contents()), k, claimRetryable, sinceNs, nowMs);
        match result
        case Conflict => reply == Err(DigestConflictError) && Contents() == old(Contents())
        case Answer(record, shouldSend) =>
          if commits then reply == Ok((record, shouldSend)) && Contents() == M
          else reply == Err(CommitError) && Contents() == old(Contents())
    {
      BeginKeeps(Contents(), k, claimRetryable, sinceNs, nowMs);
      var savedDeliveries, savedIdempotency, savedAliases := deliveries, idempotency, aliases;
      reply := RunBegin(k, claimRetryable, sinceNs, nowMs);
      if reply.Ok? && !commits {
        reply := Err(CommitError);
      }
      if reply.Err? {
        deliveries, idempotency, aliases := savedDeliveries, savedIdempotency, savedAliases;
      } else {
        TablesOfConsistent(deliveries, idempotency, aliases, cooldowns);
      }
    }

    /** The later of the stored cooldown and this one is stored; a time that is not one is an error. */
    method ExtendProviderCooldown(untilMs: int) returns (error: Option<StoreError>)
      modifies this`cooldowns
      ensures if untilMs <= 0 then error == Some(InvalidArgumentError) && cooldowns == old(cooldowns)
              else
                && error.None? && Contents() == Extend(old(Contents()), untilMs)
                && PROVIDER_COOLDOWN_SCOPE in cooldowns && 0 < cooldowns[PROVIDER_COOLDOWN_SCOPE]
    {
      if untilMs <= 0 {
        return Some(InvalidArgumentError);
      }
      error := None;
      var current := if PROVIDER_COOLDOWN_SCOPE in cooldowns then cooldowns[PROVIDER_COOLDOWN_SCOPE] else 0;
      cooldowns := cooldowns[PROVIDER_COOLDOWN_SCOPE := if current < untilMs then untilMs else current];
    }

    /** The statements of an update, inside a transaction that is still open. */
    method RunUpdate(id: Id, digest: Digest, o: Outcome, nowMs: int) returns (reply: Reply<DeliveryRecord>)
      requires Valid() && OutcomeOk(o)
      modifies this`deliveries, this`cooldowns
      ensures PROVIDER_COOLDOWN_SCOPE in cooldowns ==> 0 < cooldowns[PROVIDER_COOLDOWN_SCOPE]
      ensures deliveries.Keys == old(deliveries).Keys
      ensures var (M, result) := Complete(old(Contents()), id, digest, o, nowMs);
        Contents() == M &&
        match result
        case Recorded(record) => reply == Ok(record)
        case Failed(error) => reply == Err(ErrorOf(error))
    {
      var found := GetDelivery(id);
      if found.None? {
        return Err(NotFoundError);
      }
      var record := RecordOf(id, found.value.entry);
      if record.requestDigest != digest {
        return Err(DigestConflictError);
      }
      if record.row.state != Sending {
        if !SameOutcome(record.row, o) {
          return Err(InvalidTransitionError);
        }
        if o.retryNotBeforeMs > 0 {
          var error := ExtendProviderCooldown(o.retryNotBeforeMs);
          if error.Some? {
            return Err(InvalidArgumentError);
          }
        }
        return Ok(record);
      }
      var row := WithOutcome(record.row, o, nowMs);
      ViewOfRow(deliveries, idempotency, aliases, cooldowns, id, row);
      var rows := UpdateRow(id, record.row.legacyDigest, Sending, row);
      if rows != 1 {
        return Err(InvalidTransitionError);
      }
      if o.retryNotBeforeMs > 0 {
        var error := ExtendProviderCooldown(o.retryNotBeforeMs);
        if error.Some? {
          return Err(InvalidArgumentError);
        }
      }
      return Ok(record.(row := row));
    }

    /** One update transaction; when the commit fails nothing has happened. */
    method CompleteDelivery(id: Id, digest: Digest, o: Outcome, nowMs: int, commits: bool)
      returns (reply: Reply<DeliveryRecord>)
      requires Valid() && OutcomeOk(o)
      modifies this`deliveries, this`cooldowns
      ensures Valid()
      ensures var (M, result) := Complete(old(Contents()), id, digest, o, nowMs);
        match result
        case Recorded(record) =>
          if commits then reply == Ok(record) && Contents() == M
          else reply == Err(CommitError) && Contents() == old(Contents())
        case Failed(error) => reply == Err(ErrorOf(error)) && Contents() == old(Contents())
    {
      CompleteKeeps(Contents(), id, digest, o, nowMs);
      var savedDeliveries, savedCooldowns := deliveries, cooldowns;
      reply := RunUpdate(id, digest, o, nowMs);
      if reply.Ok? && !commits {
        reply := Err(CommitError);
      }
      if reply.Err? {
        deliveries, cooldowns := savedDeliveries, savedCooldowns;
      }
    }

    /** updateDelivery: completes the sending attempt, or confirms the result it already has. */
    method UpdateDelivery(id: Id, digest: Digest, c: Completion, nowMs: int, commits: bool)
      returns (reply: Reply<DeliveryRecord>)
      requires Valid()
      modifies this
      ensures Valid()
      ensures var (M, result) := Update(old(Contents()), id, digest, c, nowMs);
        match result
        case Recorded(record) =>
          if commits then reply == Ok(record) && Contents() == M
          else reply == Err(CommitError) && Contents() == old(Contents())
        case Failed(error) => reply == Err(ErrorOf(error)) && Contents() == old(Contents())
    {
      var outcome := Normalize(c);
      match outcome {
        case None => return Err(InvalidArgumentError);
        case Some(o) => reply := CompleteDelivery(id, digest, o, nowMs, commits);
      }
    }

    /** recoverInterruptedDeliveries, one UPDATE over the whole table. */
    method RecoverInterrupted(nowMs: int)
      requires Valid()
      modifies this`deliveries
      ensures Valid() && Contents() == Recover(old(Contents()), nowMs)
    {
      RecoverKeeps(Contents(), nowMs);
      ViewOfRecover(deliveries, idempotency, aliases, cooldowns, nowMs);
      deliveries := InterruptSending(deliveries, nowMs);
    }
  }

  /** UPDATE deliveries SET state = 'unknown', ... WHERE state = 'sending' */
  function InterruptSending(d: map<Id, Row>, nowMs: int): map<Id, Row> {
    map id | id in d :: if d[id].state == Sending then Interrupted(d[id], nowMs) else d[id]
  }

  lemma ViewOfRecover(d: map<Id, Row>, g: map<Id, Registration>, a: map<Id, Id>, c: map<string, int>, nowMs: int)
    ensures View(InterruptSending(d, nowMs), g, a, c) == Recover(View(d, g, a, c), nowMs)
  {
    var M := View(InterruptSending(d, nowMs), g, a, c);
    var N := Recover(View(d, g, a, c), nowMs);
    assert M.entries.Keys == N.entries.Keys;
    forall id | id in M.entries ensures M.entries[id] == N.entries[id] {
    }
  }

  lemma TablesOfConsistent(d: map<Id, Row>, g: map<Id, Registration>, a: map<Id, Id>, c: map<string, int>)
    requires Consistent(View(d, g, a, c))
    ensures forall x :: x in a ==> a[x] in d
  {
    forall x | x in a ensures a[x] in d {
      assert x in View(d, g, a, c).owner;
    }
  }

  lemma ResumeIgnoresCooldown(L: Ledger, id: Id, claimRetryable: bool, cooldownMs: int, sinceNs: int, nowMs: int)
    requires id in L.entries && (claimRetryable ==> cooldownMs == L.cooldownMs)
    ensures var (M, result) := Resume(L, id, claimRetryable, sinceNs, nowMs);
      var (N, other) := Resume(L.(cooldownMs := cooldownMs), id, claimRetryable, sinceNs, nowMs);
      M.entries == N.entries && result == other
  {
  }

  lemma ViewOfResume(d: map<Id, Row>, g: map<Id, Registration>, a: map<Id, Id>, c: map<string, int>,
                     id: Id, claimRetryable: bool, sinceNs: int, nowMs: int)
    requires id in d
    ensures var L := View(d, g, a, c);
      var M := Resume(L, id, claimRetryable, sinceNs, nowMs).0;
      id in M.entries && View(d[id := M.entries[id].row], g, a, c) == M
  {
    var L := View(d, g, a, c);
    var M := Resume(L, id, claimRetryable, sinceNs, nowMs).0;
    ViewOfRow(d, g, a, c, id, M.entries[id].row);
    assert M.entries[id].registered == L.entries[id].registered;
    assert M.entries == L.entries[id := M.entries[id]];
  }

  lemma AbsentMeetsNoConstraint(L: Ledger, k: Keys)
    requires Consistent(L) && Judge(L, k) == Absent
    ensures k.deliveryId !in L.entries && k.idempotencyId !in L.entries
    ensures forall j :: j in L.entries && L.entries[j].registered.Some? ==>
              L.entries[j].registered.value.idempotencyId != k.idempotencyId
  {
    forall j | j in L.entries
      ensures j != k.deliveryId && j != k.idempotencyId
      ensures L.entries[j].registered.Some? ==> L.entries[j].registered.value.idempotencyId != k.idempotencyId
    {
      assert EntryOk(L, j);
    }
  }

  /**
   Once both identities resolve and the digest check passes, none of the inserts
   Begin is about to make can meet a constraint.
   */
  lemma NoConstraintCanFail(L: Ledger, k: Keys, id: Id)
    requires Consistent(L) && Judge(L, k) == Canonical(id)
    ensures id in L.entries
    ensures forall x :: x in {k.deliveryId, k.idempotencyId} ==>
              (x in L.entries ==> x == id) && (x in L.owner ==> L.owner[x] == id)
    ensures L.entries[id].registered.None? ==>
              forall j :: j in L.entries && L.entries[j].registered.Some? ==>
                L.entries[j].registered.value.idempotencyId != k.idempotencyId
  {
    if k.deliveryId in L.entries { assert EntryOk(L, k.deliveryId); }
    if k.idempotencyId in L.entries { assert EntryOk(L, k.idempotencyId); }
    forall j | j in L.entries && L.entries[j].registered.Some?
      ensures L.entries[id].registered.None? ==> L.entries[j].registered.value.idempotencyId != k.idempotencyId
    {
      assert EntryOk(L, j);
    }
  }
}
