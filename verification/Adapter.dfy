/**
 The adapter's outbound side as a concurrent machine: any number of delivery
 requests in progress, the one-slot provider gate, the ledger whose transactions
 are atomic but may fail, Telegram on the far side of an unreliable exchange,
 crashes, and reopenings.
 */
module Adapter {
  import opened Prelude
  import opened Wire
  import opened DeliveryLedger
  import LedgerLaws
  import opened TelegramClient
  import opened ReplyTarget
  import opened Routing

  // ---------------------------------------------------------------- responses

  /** replayDelivery */
  function Replay(row: Row): DeliveryResponse {
    match row.state
    case Delivered => DeliveryResponse(StatusDelivered, row.providerMessageId, "")
    case Retryable | Sending =>
      DeliveryResponse(StatusRetryableError, "",
                       if row.safeMessage == "" then "delivery is already in progress" else row.safeMessage)
    case Permanent | Unknown =>
      DeliveryResponse(StatusNonRetryableError, "",
                       if row.safeMessage == "" then "delivery could not be completed" else row.safeMessage)
  }

  const IDENTITY_CONFLICT := DeliveryResponse(StatusNonRetryableError, "", "delivery identity conflict")
  const STORE_UNAVAILABLE := DeliveryResponse(StatusRetryableError, "", "delivery store unavailable")
  const REQUEST_CANCELED := DeliveryResponse(StatusRetryableError, "", "delivery request canceled")

  /** What an answer rests on; not part of the answer. */
  datatype Basis =
    | StoredOutcome(id: Id)   // a terminal row
    | InProgress(id: Id)      // a row that is not terminal
    | ConflictVerdict         // the request was refused
    | NoAnswer                // the store failed, or the caller went away

  datatype Outgoing = Outgoing(response: DeliveryResponse, basis: Basis)

  function FromRecord(record: DeliveryRecord): Outgoing {
    Outgoing(Replay(record.row),
             if record.row.state.Terminal() then StoredOutcome(record.deliveryId) else InProgress(record.deliveryId))
  }

  // ---------------------------------------------------------------- the machine

  /** Where one request stands in handleDelivery. */
  datatype Pc =
    | Inspecting(seen: seq<Option<Sighting>>)   // up to four reads of the inspection are done
    | ReplayingTerminal(id: Id)                  // saw a terminal record, outside the gate
    | AtGate
    | AtBegin                                    // inside the gate from here on
    | Claimed(id: Id)
    | Refusing(id: Id)                           // claimed, but the route does not match
    | Calling(id: Id, target: Target, call: nat)
    | Persisting(id: Id, call: nat, result: SendResult, notBeforeNs: int)
    | Replying(out: Outgoing, gated: bool)

  predicate HoldsGate(pc: Pc) {
    pc.AtBegin? || pc.Claimed? || pc.Refusing? || pc.Calling? || pc.Persisting? || (pc.Replying? && pc.gated)
  }

  datatype Handler = Handler(request: DeliveryRequest, pc: Pc)

  /** One provider request, on the network from the moment it is written. */
  datatype Call = Call(id: Id, request: DeliveryRequest, target: Target, status: CallStatus)

  /** The history of a run. */
  datatype Event =
    | Created(id: Id)
    | Claim(id: Id)
    | CallStarted(call: nat, atNs: int)
    | Completed(id: Id, sent: Option<nat>, state: DeliveryState)
    | CooldownPersisted(untilNs: int)
    | Responded(request: DeliveryRequest, out: Outgoing)

  datatype System = System(
    config: Config,
    up: bool,
    ledger: Ledger,
    clockNs: int,
    handlers: map<nat, Handler>,
    gate: Option<nat>,
    calls: seq<Call>,
    log: seq<Event>)

  /** What one request in progress can do next. */
  datatype Move =
    | Read
    | ReadFails
    | Conclude
    | ReplayBegin(sinceNs: int, nowNs: int, io: Io)
    | EnterGate
    | Cancel
    | GatedBegin(sinceNs: int, nowNs: int, io: Io)
    | Dispatch
    | PersistRefusal(nowNs: int, io: Io)
    | Return(x: Exchange, nowNs: int)
    | Persist(nowNs: int, io: Io)
    | Respond

  datatype Action =
    | Tick(toNs: int)
    | Arrive(h: nat, request: DeliveryRequest)
    | Handle(h: nat, move: Move)
    | Network(call: nat, status: CallStatus)
    | Crash
    | Open(nowNs: int)

  function Ms(ns: int): int {
    ns / NS_PER_MS
  }

  function RouteOfRequest(r: DeliveryRequest): Route {
    Route(r.accountId, r.contextId, r.threadId, r.replyTarget)
  }

  predicate At(s: System, h: nat) {
    s.up && h in s.handlers
  }

  /** `call` is still in the hands of the handler that started it. */
  predicate Live(s: System, call: nat) {
    && s.gate.Some? && s.gate.value in s.handlers
    && s.handlers[s.gate.value].pc.Calling? && s.handlers[s.gate.value].pc.call == call
  }

  predicate CanMove(s: System, h: nat, move: Move) {
    At(s, h) &&
    var pc := s.handlers[h].pc;
    match move
    case Read => pc.Inspecting? && |pc.seen| < 4
    case ReadFails => pc.Inspecting?
    case Conclude => pc.Inspecting? && |pc.seen| == 4
    case ReplayBegin(sinceNs, nowNs, _) => pc.ReplayingTerminal? && s.clockNs <= sinceNs <= nowNs
    case EnterGate => pc.AtGate? && s.gate.None?
    case Cancel => pc.AtGate?
    case GatedBegin(sinceNs, nowNs, _) => pc.AtBegin? && s.clockNs <= sinceNs <= nowNs
    case Dispatch => pc.Claimed?
    case PersistRefusal(nowNs, _) => pc.Refusing? && s.clockNs <= nowNs
    case Return(x, nowNs) =>
      && pc.Calling? && s.clockNs <= nowNs
      && pc.call < |s.calls| && Observable(x, s.calls[pc.call].status)
      && (x.Replied? && x.message.Some? ==> IsInt64(x.message.value.messageId))
    case Persist(nowNs, _) => pc.Persisting? && s.clockNs <= nowNs
    case Respond => pc.Replying?
  }

  /** A request is written by the handler that made it; Telegram decides on a written one at any time. */
  predicate CanHappen(s: System, call: nat, status: CallStatus) {
    call < |s.calls| &&
    match status
    case Unwritten => false
    case Written => Live(s, call) && s.calls[call].status == Unwritten
    case Accepted(_) => s.calls[call].status == Written
    case Rejected => s.calls[call].status == Written
  }

  predicate Enabled(s: System, a: Action) {
    match a
    case Tick(toNs) => s.clockNs <= toNs
    case Arrive(h, _) => s.up && h !in s.handlers
    case Handle(h, move) => CanMove(s, h, move)
    case Network(call, status) => CanHappen(s, call, status)
    case Crash => s.up
    case Open(nowNs) => !s.up && s.clockNs <= nowNs
  }

  function Goto(s: System, h: nat, pc: Pc): System
    requires h in s.handlers
  {
    s.(handlers := s.handlers[h := s.handlers[h].(pc := pc)])
  }

  /** A transaction that turned the ledger into `M`, with the events that are history if it is durable. */
  function Durable(s: System, io: Io, M: Ledger, events: seq<Event>): System {
    if io == FailsBefore then s else s.(ledger := M, log := s.log + events)
  }

  function BeginEvents(L: Ledger, k: Keys, result: BeginResult): seq<Event>
    requires Consistent(L)
  {
    match result
    case Conflict => []
    case Answer(record, shouldSend) =>
      var id := record.deliveryId;
      if Judge(L, k) == Absent then (if shouldSend then [Created(id), Claim(id)] else [Created(id)])
      else if shouldSend then [Claim(id)]
      else []
  }

  /** One read of the inspection: both tables for the delivery ID, then both for the stable ID. */
  function ReadNext(L: Ledger, r: DeliveryRequest, seen: seq<Option<Sighting>>): Option<Sighting>
    requires Consistent(L)
  {
    if |seen| == 0 then ReadAlias(L, r.deliveryId)
    else if |seen| == 1 then ReadPrimary(L, r.deliveryId)
    else if |seen| == 2 then ReadAlias(L, r.idempotencyId)
    else ReadPrimary(L, r.idempotencyId)
  }

  /** The inspection's conclusion decides between replaying, refusing and queueing. */
  function AfterInspection(r: DeliveryRequest, seen: seq<Option<Sighting>>): Pc
    requires |seen| == 4
  {
    match Inspect(seen[0], seen[1], seen[2], seen[3], KeysOf(r))
    case Mismatch => Replying(Outgoing(IDENTITY_CONFLICT, ConflictVerdict), false)
    case NotFound => AtGate
    case Found(s) => if s.entry.row.state.Terminal() then ReplayingTerminal(s.id) else AtGate
  }

  /** Begin on the terminal-replay path, where every error is reported as a store failure. */
  function AfterReplayBegin(io: Io, result: BeginResult): Pc {
    if io == FailsBefore then Replying(Outgoing(STORE_UNAVAILABLE, NoAnswer), false)
    else
      match result
      case Conflict => Replying(Outgoing(STORE_UNAVAILABLE, ConflictVerdict), false)
      case Answer(record, _) =>
        Replying(if io == Commits then FromRecord(record) else Outgoing(STORE_UNAVAILABLE, NoAnswer), false)
  }

  function AfterGatedBegin(io: Io, result: BeginResult): Pc {
    if io == FailsBefore then Replying(Outgoing(STORE_UNAVAILABLE, NoAnswer), true)
    else
      match result
      case Conflict => Replying(Outgoing(IDENTITY_CONFLICT, ConflictVerdict), true)
      case Answer(record, shouldSend) =>
        if io == FailsAfter then Replying(Outgoing(STORE_UNAVAILABLE, NoAnswer), true)
        else if shouldSend then Claimed(record.deliveryId)
        else Replying(FromRecord(record), true)
  }

  function AfterUpdate(io: Io, result: UpdateResult): Pc {
    if io == Commits && result.Recorded? then Replying(FromRecord(result.record), true)
    else Replying(Outgoing(STORE_UNAVAILABLE, NoAnswer), true)
  }

  /** What a persisted result adds to the history. */
  function UpdateEvents(id: Id, call: Option<nat>, notBeforeNs: int, result: UpdateResult): seq<Event> {
    match result
    case Failed(_) => []
    case Recorded(record) =>
      if record.row.retryNotBeforeMs > 0
      then [Completed(id, call, record.row.state), CooldownPersisted(notBeforeNs)]
      else [Completed(id, call, record.row.state)]
  }

  const ROUTING_MISMATCH := Completion(Permanent, "", "delivery routing mismatch", None)

  function DoBegin(s: System, h: nat, sinceNs: int, nowNs: int, io: Io, gated: bool): System
    requires Consistent(s.ledger) && h in s.handlers
  {
    var k := KeysOf(s.handlers[h].request);
    var (M, result) := Begin(s.ledger, k, true, sinceNs, Ms(nowNs));
    var pc := if gated then AfterGatedBegin(io, result) else AfterReplayBegin(io, result);
    Goto(Durable(s.(clockNs := nowNs), io, M, BeginEvents(s.ledger, k, result)), h, pc)
  }

  function DoUpdate(s: System, h: nat, id: Id, call: Option<nat>, c: Completion, notBeforeNs: int,
                    nowNs: int, io: Io): System
    requires h in s.handlers
  {
    var (M, result) := Update(s.ledger, id, LogicalDigest(s.handlers[h].request), c, Ms(nowNs));
    Goto(Durable(s.(clockNs := nowNs), io, M, UpdateEvents(id, call, notBeforeNs, result)), h, AfterUpdate(io, result))
  }

  function DoMove(s: System, h: nat, move: Move): System
    requires Consistent(s.ledger) && CanMove(s, h, move)
  {
    var (r, pc) := (s.handlers[h].request, s.handlers[h].pc);
    match move
    case Read => Goto(s, h, Inspecting(pc.seen + [ReadNext(s.ledger, r, pc.seen)]))
    case ReadFails => Goto(s, h, Replying(Outgoing(STORE_UNAVAILABLE, NoAnswer), false))
    case Conclude => Goto(s, h, AfterInspection(r, pc.seen))
    case ReplayBegin(sinceNs, nowNs, io) => DoBegin(s, h, sinceNs, nowNs, io, false)
    case EnterGate => Goto(s, h, AtBegin).(gate := Some(h))
    case Cancel => Goto(s, h, Replying(Outgoing(REQUEST_CANCELED, NoAnswer), false))
    case GatedBegin(sinceNs, nowNs, io) => DoBegin(s, h, sinceNs, nowNs, io, true)
    case Dispatch => DoDispatch(s, h)
    case PersistRefusal(nowNs, io) => DoUpdate(s, h, pc.id, None, ROUTING_MISMATCH, 0, nowNs, io)
    case Return(x, nowNs) =>
      var result := ResultOf(pc.target, x);
      var notBeforeNs := nowNs + (if result.retryAfterNs > 0 then result.retryAfterNs else 0);
      Goto(s.(clockNs := nowNs), h, Persisting(pc.id, pc.call, result, notBeforeNs))
    case Persist(nowNs, io) =>
      DoUpdate(s, h, pc.id, Some(pc.call), CompletionOf(pc.result, Ms(pc.notBeforeNs)), pc.notBeforeNs, nowNs, io)
    case Respond =>
      s.(handlers := s.handlers - {h},
         gate := if pc.gated then None else s.gate,
         log := s.log + [Responded(r, pc.out)])
  }

  /** Route check, then the provider call. */
  function DoDispatch(s: System, h: nat): System
    requires h in s.handlers && s.handlers[h].pc.Claimed?
  {
    var (r, id) := (s.handlers[h].request, s.handlers[h].pc.id);
    var target := Destination(s.config, RouteOfRequest(r));
    if target.None? then Goto(s, h, Refusing(id))
    else
      Goto(s, h, Calling(id, target.value, |s.calls|)).(
        calls := s.calls + [Call(id, r, target.value, Unwritten)],
        log := s.log + [CallStarted(|s.calls|, s.clockNs)])
  }

  function Do(s: System, a: Action): System
    requires Consistent(s.ledger) && Enabled(s, a)
  {
    match a
    case Tick(toNs) => s.(clockNs := toNs)
    case Arrive(h, request) => s.(handlers := s.handlers[h := Handler(request, Inspecting([]))])
    case Handle(h, move) => DoMove(s, h, move)
    case Network(call, status) => s.(calls := s.calls[call := s.calls[call].(status := status)])
    case Crash => s.(up := false, handlers := map[], gate := None)
    case Open(nowNs) => s.(up := true, ledger := Recover(s.ledger, Ms(nowNs)), clockNs := nowNs)
  }

  /** One step; an action that is not possible leaves the system as it is. */
  function Step(s: System, a: Action): System
    requires Consistent(s.ledger)
  {
    if Enabled(s, a) then Do(s, a) else s
  }

  /** The adapter before it first opens a migrated database. */
  ghost predicate Init(s: System) {
    && !s.up && s.handlers == map[] && s.gate == None && s.calls == [] && s.log == []
    && Consistent(s.ledger) && LedgerLaws.Coherent(s.ledger)
    && NS_PER_MS <= s.clockNs
  }
}
