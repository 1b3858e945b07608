/** Opening a database of any released schema version. */
module Migration {
  import opened Prelude
  import opened Wire
  import opened DeliveryLedger
  import opened LedgerLaws
  import opened DeliveryTables

  datatype Table = SchemaMigrations | TelegramUpdates | Deliveries | DeliveryIdempotency | DeliveryAliases | ProviderCooldowns

  /** A database file: which tables, index and column exist, and what the tables hold. */
  datatype Database = Database(
    tables: set<Table>,
    aliasIndex: bool,
    retryColumn: bool,
    versions: seq<nat>,
    deliveries: map<Id, Row>,
    idempotency: map<Id, Registration>,
    aliases: map<Id, Id>,
    cooldowns: map<string, int>)

  datatype Statement = CreateTable(table: Table) | CreateAliasIndex | InsertSelfAliases | AddRetryColumn

  datatype Migration = Migration(version: nat, statements: seq<Statement>)

  const MIGRATIONS := [
    Migration(1, [CreateTable(TelegramUpdates), CreateTable(Deliveries)]),
    Migration(2, [CreateTable(DeliveryIdempotency), CreateTable(DeliveryAliases), CreateAliasIndex, InsertSelfAliases]),
    Migration(3, [AddRetryColumn, CreateTable(ProviderCooldowns)])
  ]

  function ZeroRetryTimes(d: map<Id, Row>): map<Id, Row> {
    map id | id in d :: d[id].(retryNotBeforeMs := 0)
  }

  function SelfAliases(d: map<Id, Row>): map<Id, Id> {
    map id | id in d :: id
  }

  /** One statement; None when SQLite rejects it. */
  function Execute(db: Database, s: Statement): Option<Database> {
    match s
    case CreateTable(t) =>
      if t in db.tables then None
      else
        Some(match t
             case SchemaMigrations => db.(tables := db.tables + {t}, versions := [])
             case TelegramUpdates => db.(tables := db.tables + {t})
             case Deliveries => db.(tables := db.tables + {t}, deliveries := map[])
             case DeliveryIdempotency => db.(tables := db.tables + {t}, idempotency := map[])
             case DeliveryAliases => db.(tables := db.tables + {t}, aliases := map[])
             case ProviderCooldowns => db.(tables := db.tables + {t}, cooldowns := map[]))
    case CreateAliasIndex =>
      if DeliveryAliases !in db.tables || db.aliasIndex then None else Some(db.(aliasIndex := true))
    case InsertSelfAliases =>
      if {Deliveries, DeliveryAliases} <= db.tables && db.deliveries.Keys !! db.aliases.Keys
      then Some(db.(aliases := db.aliases + SelfAliases(db.deliveries)))
      else None
    case AddRetryColumn =>
      if Deliveries !in db.tables || db.retryColumn then None
      else Some(db.(retryColumn := true, deliveries := ZeroRetryTimes(db.deliveries)))
  }

  function ExecuteAll(db: Database, statements: seq<Statement>): Option<Database> {
    if statements == [] then Some(db)
    else
      match ExecuteAll(db, statements[..|statements| - 1])
      case None => None
      case Some(mid) => Execute(mid, statements[|statements| - 1])
  }

  /** COALESCE(MAX(version), 0) */
  function MaxVersion(versions: seq<nat>): (v: nat)
    ensures forall i :: 0 <= i < |versions| ==> versions[i] <= v
    ensures v != 0 ==> v in versions
  {
    if versions == [] then 0
    else
      var rest := MaxVersion(versions[..|versions| - 1]);
      if versions[|versions| - 1] > rest then versions[|versions| - 1] else rest
  }

  datatype MigrateResult = Migrated | NewerSchema | SequenceInvalid | StatementFailed

  // ---------------------------------------------------------------- what every version looks like

  function TablesAt(v: nat): set<Table> {
    {SchemaMigrations}
    + (if v >= 1 then {TelegramUpdates, Deliveries} else {})
    + (if v >= 2 then {DeliveryIdempotency, DeliveryAliases} else {})
    + (if v >= 3 then {ProviderCooldowns} else {})
  }

  function VersionsTo(v: nat): seq<nat> {
    seq(v, i => i + 1)
  }

  /** The schema of release `v`, created by running the first `v` migrations; a new file has no table at all. */
  predicate SchemaAt(db: Database, v: nat) {
    && v <= 3
    && (db.tables == TablesAt(v) || (v == 0 && db.tables == {}))
    && db.aliasIndex == (v >= 2) && db.retryColumn == (v >= 3)
    && (SchemaMigrations in db.tables ==> db.versions == VersionsTo(v))
  }

  /** The rows and columns as the newest schema reads them. */
  function Upgraded(db: Database, v: nat): Database {
    Database(
      TablesAt(3), true, true, VersionsTo(3),
      if v == 0 then map[] else if v < 3 then ZeroRetryTimes(db.deliveries) else db.deliveries,
      if v < 2 then map[] else db.idempotency,
      if v == 0 then map[] else if v == 1 then SelfAliases(db.deliveries) else db.aliases,
      if v < 3 then map[] else db.cooldowns)
  }

  /** A database on its way from version `v` to version `c`. */
  function Stage(db: Database, v: nat, c: nat): Database {
    if c <= v then db.(tables := TablesAt(v), versions := VersionsTo(v))
    else
      Database(
        TablesAt(c), c >= 2, c >= 3, VersionsTo(c),
        if v == 0 then map[] else if c >= 3 then ZeroRetryTimes(db.deliveries) else db.deliveries,
        if v < 2 && c >= 2 then map[] else db.idempotency,
        if v < 2 && c >= 2 then (if v == 0 then map[] else SelfAliases(db.deliveries)) else db.aliases,
        if c >= 3 then map[] else db.cooldowns)
  }

  lemma ExecuteOneMore(db: Database, sts: seq<Statement>, st: Statement)
    requires ExecuteAll(db, sts).Some?
    ensures ExecuteAll(db, sts + [st]) == Execute(ExecuteAll(db, sts).value, st)
  {
    assert (sts + [st])[..|sts|] == sts;
  }

  lemma ExecuteTwo(db: Database, a: Statement, b: Statement)
    requires Execute(db, a).Some?
    ensures ExecuteAll(db, [a, b]) == Execute(Execute(db, a).value, b)
  {
    ExecuteOneMore(db, [], a);
    ExecuteOneMore(db, [a], b);
    assert [] + [a] == [a] && [a] + [b] == [a, b];
  }

  lemma MigrationOne(db: Database)
    requires SchemaAt(db, 0)
    ensures ExecuteAll(Stage(db, 0, 0), MIGRATIONS[0].statements) == Some(Stage(db, 0, 1).(versions := VersionsTo(0)))
  {
    var before, after := Stage(db, 0, 0), Stage(db, 0, 1);
    ExecuteTwo(before, CreateTable(TelegramUpdates), CreateTable(Deliveries));
    assert before.tables + {TelegramUpdates} + {Deliveries} == after.tables;
  }

  lemma ExecuteThree(db: Database, a: Statement, b: Statement, c: Statement)
    requires ExecuteAll(db, [a, b]).Some?
    ensures ExecuteAll(db, [a, b, c]) == Execute(ExecuteAll(db, [a, b]).value, c)
  {
    ExecuteOneMore(db, [a, b], c);
    assert [a, b] + [c] == [a, b, c];
  }

  lemma ExecuteFour(db: Database, a: Statement, b: Statement, c: Statement, d: Statement)
    requires ExecuteAll(db, [a, b, c]).Some?
    ensures ExecuteAll(db, [a, b, c, d]) == Execute(ExecuteAll(db, [a, b, c]).value, d)
  {
    ExecuteOneMore(db, [a, b, c], d);
    assert [a, b, c] + [d] == [a, b, c, d];
  }

  lemma AliasTables(db: Database)
    requires DeliveryIdempotency !in db.tables && DeliveryAliases !in db.tables
    ensures ExecuteAll(db, [CreateTable(DeliveryIdempotency), CreateTable(DeliveryAliases)]) ==
      Some(db.(tables := db.tables + {DeliveryIdempotency} + {DeliveryAliases}, idempotency := map[], aliases := map[]))
  {
    ExecuteTwo(db, CreateTable(DeliveryIdempotency), CreateTable(DeliveryAliases));
  }

  lemma MigrationTwo(db: Database, v: nat)
    requires SchemaAt(db, v) && v <= 1
    ensures ExecuteAll(Stage(db, v, 1), MIGRATIONS[1].statements) == Some(Stage(db, v, 2).(versions := VersionsTo(1)))
  {
    var before, after := Stage(db, v, 1), Stage(db, v, 2);
    AliasTables(before);
    ExecuteThree(before, CreateTable(DeliveryIdempotency), CreateTable(DeliveryAliases), CreateAliasIndex);
    ExecuteFour(before, CreateTable(DeliveryIdempotency), CreateTable(DeliveryAliases), CreateAliasIndex, InsertSelfAliases);
    assert before.tables + {DeliveryIdempotency} + {DeliveryAliases} == after.tables;
    assert map[] + SelfAliases(before.deliveries) == after.aliases;
  }

  lemma MigrationThree(db: Database, v: nat)
    requires SchemaAt(db, v) && v <= 2
    ensures ExecuteAll(Stage(db, v, 2), MIGRATIONS[2].statements) == Some(Stage(db, v, 3).(versions := VersionsTo(2)))
  {
    var before, after := Stage(db, v, 2), Stage(db, v, 3);
    ExecuteTwo(before, AddRetryColumn, CreateTable(ProviderCooldowns));
    assert before.tables + {ProviderCooldowns} == after.tables;
    assert ZeroRetryTimes(map[]) == map[];
  }

  /** Each migration takes a well-formed database one version further, and none of its statements is rejected. */
  lemma MigrationAdvances(db: Database, v: nat, c: nat)
    requires SchemaAt(db, v) && v <= c < 3
    ensures ExecuteAll(Stage(db, v, c), MIGRATIONS[c].statements) == Some(Stage(db, v, c + 1).(versions := VersionsTo(c)))
  {
    if c == 0 {
      MigrationOne(db);
    } else if c == 1 {
      MigrationTwo(db, v);
    } else {
      MigrationThree(db, v);
    }
  }

  lemma {:induction false} MaxOfVersionsTo(v: nat)
    ensures MaxVersion(VersionsTo(v)) == v
  {
    if v == 0 {
    } else {
      assert VersionsTo(v)[..v - 1] == VersionsTo(v - 1);
      MaxOfVersionsTo(v - 1);
    }
  }

  lemma StageAtStart(db: Database, tx: Database, v: nat)
    requires SchemaAt(db, v)
    requires tx == if SchemaMigrations in db.tables then db
                   else db.(tables := db.tables + {SchemaMigrations}, versions := [])
    ensures tx == Stage(db, v, v) && MaxVersion(tx.versions) == v
  {
    MaxOfVersionsTo(v);
  }

  /** If all of the statements run, so does every prefix of them and the statement after it. */
  lemma {:induction false} PrefixesRun(db: Database, sts: seq<Statement>, j: nat)
    requires j < |sts| && ExecuteAll(db, sts).Some?
    ensures ExecuteAll(db, sts[..j]).Some? && Execute(ExecuteAll(db, sts[..j]).value, sts[j]).Some?
  {
    if j >= |sts| - 1 {
    } else {
      PrefixesRun(db, sts[..|sts| - 1], j);
      assert sts[..|sts| - 1][..j] == sts[..j];
    }
  }

  /** All statements of one migration, or the first failure. */
  method RunStatements(db: Database, sts: seq<Statement>) returns (result: Option<Database>)
    ensures result == ExecuteAll(db, sts)
  {
    var tx := db;
    var j := 0;
    while j < |sts|
      invariant 0 <= j <= |sts|
      invariant ExecuteAll(db, sts[..j]) == Some(tx)
    {
      var next := Execute(tx, sts[j]);
      if next.None? {
        if ExecuteAll(db, sts).Some? {
          PrefixesRun(db, sts, j);
        }
        return None;
      }
      assert sts[..j + 1] == sts[..j] + [sts[j]];
      ExecuteOneMore(db, sts[..j], sts[j]);
      tx := next.value;
      j := j + 1;
    }
    assert sts[..j] == sts;
    return Some(tx);
  }

  lemma RecordedStage(db: Database, v: nat, c: nat)
    requires SchemaAt(db, v) && v <= c < 3
    ensures var t := Stage(db, v, c + 1).(versions := VersionsTo(c));
      c + 1 !in t.versions && t.(versions := t.versions + [c + 1]) == Stage(db, v, c + 1)
  {
    assert VersionsTo(c) + [c + 1] == VersionsTo(c + 1);
  }

  /** One missing migration, version included. */
  method ApplyMigration(tx: Database, m: Migration) returns (result: Option<Database>)
    ensures result == match ExecuteAll(tx, m.statements)
                      case None => None
                      case Some(t) =>
                        if m.version in t.versions then None else Some(t.(versions := t.versions + [m.version]))
  {
    result := RunStatements(tx, m.statements);
    if result.Some? {
      var t := result.value;
      result := if m.version in t.versions then None else Some(t.(versions := t.versions + [m.version]));
    }
  }

  lemma MigrationIsApplied(db: Database, v: nat, c: nat)
    requires SchemaAt(db, v) && v <= c < 3
    ensures match ExecuteAll(Stage(db, v, c), MIGRATIONS[c].statements)
            case None => false
            case Some(t) => c + 1 !in t.versions && t.(versions := t.versions + [c + 1]) == Stage(db, v, c + 1)
  {
    MigrationAdvances(db, v, c);
    RecordedStage(db, v, c);
  }

  /** The loop of migrate over the transaction's view of the database. */
  method RunMigrations(start: Database) returns (result: MigrateResult, tx: Database)
    ensures result != SequenceInvalid
    ensures result == NewerSchema <==> SchemaMigrations in start.tables && exists c :: c in start.versions && c > 3
    ensures forall v: nat :: SchemaAt(start, v) ==> result == Migrated && tx == Upgraded(start, v)
  {
    tx := start;
    if SchemaMigrations !in tx.tables {
      tx := tx.(tables := tx.tables + {SchemaMigrations}, versions := []);
    }
    forall v: nat | SchemaAt(start, v) ensures tx == Stage(start, v, v) && MaxVersion(tx.versions) == v {
      StageAtStart(start, tx, v);
    }
    var current: nat := MaxVersion(tx.versions);
    if current > |MIGRATIONS| {
      return NewerSchema, tx;
    }
    var i := 0;
    while i < |MIGRATIONS|
      invariant 0 <= i <= |MIGRATIONS| && i <= current <= |MIGRATIONS|
      invariant forall v: nat :: SchemaAt(start, v) ==> v <= current && tx == Stage(start, v, current)
    {
      var m := MIGRATIONS[i];
      assert m.version == i + 1;
      if m.version > current {
        if m.version != current + 1 {
          return SequenceInvalid, tx;
        }
        forall v: nat | SchemaAt(start, v)
          ensures match ExecuteAll(tx, m.statements)
                  case None => false
                  case Some(t) => i + 1 !in t.versions && t.(versions := t.versions + [i + 1]) == Stage(start, v, i + 1)
        {
          MigrationIsApplied(start, v, i);
        }
        var next := ApplyMigration(tx, m);
        if next.None? {
          return StatementFailed, tx;
        }
        tx := next.value;
        current := m.version;
      }
      i := i + 1;
    }
    forall v: nat | SchemaAt(start, v) ensures tx == Upgraded(start, v) {
      StageIsUpgraded(start, v);
    }
    return Migrated, tx;
  }

  class DatabaseFile {
    var db: Database

    constructor (contents: Database)
      ensures db == contents
    {
      db := contents;
    }

    /**
     migrate: one transaction over all missing migrations.  The stored versions
     never leave a gap to trip over, a rejected statement leaves the file alone, a
     file that a later release has migrated is recognised as such and left alone,
     and a database of any released version becomes the newest one.
     */
    method Migrate() returns (result: MigrateResult)
      modifies this
      ensures result != SequenceInvalid
      ensures result != Migrated ==> db == old(db)
      ensures result == NewerSchema <==> SchemaMigrations in old(db).tables && exists c :: c in old(db).versions && c > 3
      ensures forall v: nat :: SchemaAt(old(db), v) ==> result == Migrated && db == Upgraded(old(db), v)
    {
      var tx: Database;
      result, tx := RunMigrations(db);
      if result == Migrated {
        db := tx;
      }
    }
  }

  lemma StageIsUpgraded(db: Database, v: nat)
    requires SchemaAt(db, v)
    ensures Stage(db, v, 3) == Upgraded(db, v)
  {
    assert ZeroRetryTimes(map[]) == map[];
  }

  // ---------------------------------------------------------------- what the data means afterwards

  /** What the adapters of that version left in the rows they wrote. */
  ghost predicate DataAt(db: Database, v: nat) {
    && SchemaAt(db, v)
    && (v >= 1 ==> forall id :: id in db.deliveries ==>
          RowOk(db.deliveries[id].(retryNotBeforeMs := 0), 0))
    && (v == 2 ==> Sound(db.(deliveries := ZeroRetryTimes(db.deliveries), cooldowns := map[])))
    && (v == 3 ==> Sound(db))
  }

  ghost function Contents(db: Database): Ledger {
    View(db.deliveries, db.idempotency, db.aliases, db.cooldowns)
  }

  /** The tables are consistent, and every registration was made with coherent digests. */
  ghost predicate Sound(db: Database) {
    && db.idempotency.Keys <= db.deliveries.Keys
    && Consistent(Contents(db)) && Coherent(Contents(db))
    && (PROVIDER_COOLDOWN_SCOPE in db.cooldowns ==> 0 < db.cooldowns[PROVIDER_COOLDOWN_SCOPE])
  }

  /** Upgrading a sound database of any version gives a sound database of the newest one. */
  lemma UpgradeIsSound(db: Database, v: nat)
    requires DataAt(db, v)
    ensures Sound(Upgraded(db, v)) && DataAt(Upgraded(db, v), 3)
  {
    var up := Upgraded(db, v);
    var L := Contents(up);
    if v <= 1 {
      forall id | id in L.entries ensures EntryOk(L, id) && CoherentEntry(id, L.entries[id]) {
      }
    }
    forall id | id in up.deliveries ensures RowOk(up.deliveries[id].(retryNotBeforeMs := 0), 0) {
      if v >= 1 { assert id in db.deliveries; }
    }
  }

  /** Upgrading twice is upgrading once. */
  lemma UpgradeIsIdempotent(db: Database, v: nat)
    requires SchemaAt(db, v)
    ensures SchemaAt(Upgraded(db, v), 3) && Upgraded(Upgraded(db, v), 3) == Upgraded(db, v)
  {
  }

  /** The stable ID and digest that version `v` recorded for a delivery, if any. */
  function RegisteredAt(db: Database, v: nat, id: Id): Option<Registration> {
    if v >= 2 && id in db.idempotency then Some(db.idempotency[id]) else None
  }

  /** The delivery that version `v` took an identity to name. */
  function OwnerAt(db: Database, v: nat, x: Id): Option<Id> {
    if v >= 2 then (if x in db.aliases then Some(db.aliases[x]) else None)
    else if v == 1 && x in db.deliveries then Some(x)
    else None
  }

  function CooldownAt(db: Database, v: nat): int {
    if v >= 3 && PROVIDER_COOLDOWN_SCOPE in db.cooldowns then db.cooldowns[PROVIDER_COOLDOWN_SCOPE] else 0
  }

  /** The retry time that version `v` recorded for a delivery. */
  function RetryAt(db: Database, v: nat, id: Id): int
    requires id in db.deliveries
  {
    if v >= 3 then db.deliveries[id].retryNotBeforeMs else 0
  }

  /**
   Migration keeps what the tables meant under their own version: every row but for
   the new retry column, every registration and its digest, every name of every
   delivery, and the cooldown; and it invents none of them.
   */
  lemma UpgradeKeepsMeaning(db: Database, v: nat)
    requires SchemaAt(db, v) && 1 <= v
    ensures var L := Contents(Upgraded(db, v));
      && L.entries.Keys == db.deliveries.Keys
      && (forall id :: id in db.deliveries ==>
            && L.entries[id].row == db.deliveries[id].(retryNotBeforeMs := RetryAt(db, v, id))
            && L.entries[id].registered == RegisteredAt(db, v, id))
      && (forall x :: if x in L.owner then OwnerAt(db, v, x) == Some(L.owner[x]) else OwnerAt(db, v, x) == None)
      && L.cooldownMs == CooldownAt(db, v)
  {
    var up := Upgraded(db, v);
    forall id | id in db.deliveries ensures Contents(up).entries[id] == Join(up.deliveries, up.idempotency, id) {
    }
  }

  /**
   Opening a database of any released version: migration, then recovery.  Exactly
   the sending rows become unknown outcomes; every other row keeps its outcome, its
   retry time and its message; every row keeps both its digests and its stable ID,
   every identity its owner, and the cooldown stands.
   */
  lemma OpeningIsConservative(db: Database, v: nat, nowMs: int, id: Id)
    requires DataAt(db, v) && 1 <= v && id in db.deliveries
    ensures var L := Recover(Contents(Upgraded(db, v)), nowMs);
      && Consistent(L) && Coherent(L) && L.entries.Keys == db.deliveries.Keys
      && L.entries[id].registered == RegisteredAt(db, v, id)
      && (forall x :: if x in L.owner then OwnerAt(db, v, x) == Some(L.owner[x]) else OwnerAt(db, v, x) == None)
      && L.cooldownMs == CooldownAt(db, v)
      && var (old_, new_) := (db.deliveries[id], L.entries[id].row);
         && new_.legacyDigest == old_.legacyDigest
         && (old_.state == Sending ==> new_.state == Unknown && new_.safeMessage == OUTCOME_UNKNOWN_MESSAGE)
         && (old_.state != Sending ==> new_ == old_.(retryNotBeforeMs := RetryAt(db, v, id)))
  {
    var up := Upgraded(db, v);
    UpgradeIsSound(db, v);
    UpgradeKeepsMeaning(db, v);
    RecoverKeeps(Contents(up), nowMs);
    RecoverySettlesTheInterrupted(Contents(up), nowMs, nowMs, id);
    RecoveryKeepsCoherent(Contents(up), nowMs);
  }

  lemma RecoveryKeepsCoherent(L: Ledger, nowMs: int)
    requires Coherent(L)
    ensures Coherent(Recover(L, nowMs))
  {
    var M := Recover(L, nowMs);
    forall j | j in M.entries ensures CoherentEntry(j, M.entries[j]) {
      assert CoherentEntry(j, L.entries[j]);
    }
  }

  /**
   Version 1 did not record a stable ID of its own, so a retry of a delivery it
   stored is recognised exactly when one of the retry's IDs is the stored delivery
   ID and neither is another row's.
   */
  lemma LegacyRetryIsRecognised(db: Database, original: DeliveryRequest, retry: DeliveryRequest)
    requires DataAt(db, 1) && LogicalDigest(retry) == LogicalDigest(original)
    requires original.deliveryId in db.deliveries
    requires db.deliveries[original.deliveryId].legacyDigest == LegacyDigest(original)
    ensures var L := Contents(Upgraded(db, 1));
      var id := original.deliveryId;
      Consistent(L) &&
      (Judge(L, KeysOf(retry)) == Canonical(id) <==>
       && (retry.deliveryId == id || retry.idempotencyId == id)
       && (retry.deliveryId in db.deliveries ==> retry.deliveryId == id)
       && (retry.idempotencyId in db.deliveries ==> retry.idempotencyId == id))
  {
    var up := Upgraded(db, 1);
    var L := Contents(up);
    var id := original.deliveryId;
    UpgradeIsSound(db, 1);
    JudgeMeaning(L, retry);
    assert forall x :: x in L.owner <==> x in db.deliveries;
    assert L.entries[id].row.legacyDigest == OfRequest(original);
    assert retry.(deliveryId := id) == original by {
      assert retry.(deliveryId := retry.idempotencyId).(deliveryId := id) == retry.(deliveryId := id);
      assert original.(deliveryId := original.idempotencyId).(deliveryId := id) == original;
    }
  }

  /** So a retry under two new IDs starts a second delivery: the known limit of the first schema. */
  lemma LegacyRetryUnderNewIds(db: Database, original: DeliveryRequest, deliveryId: Id, sinceNs: int, nowMs: int)
    requires DataAt(db, 1) && original.deliveryId in db.deliveries
    requires db.deliveries[original.deliveryId].legacyDigest == LegacyDigest(original)
    requires deliveryId !in db.deliveries && original.idempotencyId !in db.deliveries
    ensures var L := Contents(Upgraded(db, 1));
      var retry := original.(deliveryId := deliveryId);
      && LogicalDigest(retry) == LogicalDigest(original)
      && Consistent(L)
      && var result := Begin(L, KeysOf(retry), true, sinceNs, nowMs).1;
         result.Answer? && result.shouldSend && result.record.deliveryId == deliveryId
  {
    UpgradeIsSound(db, 1);
    var L := Contents(Upgraded(db, 1));
    assert L.cooldownMs == 0;
    assert Judge(L, KeysOf(original.(deliveryId := deliveryId))) == Absent;
  }
}
