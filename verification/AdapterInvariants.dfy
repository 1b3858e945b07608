/** What every step of the adapter keeps. */
module AdapterInvariants {
  import opened Prelude
  import opened Wire
  import opened DeliveryLedger
  import opened LedgerLaws
  import opened InspectionLaws
  import opened TelegramClient
  import opened ReplyTarget
  import opened Routing
  import opened Adapter

  // ---------------------------------------------------------------- what a handler may rely on

  /** Both identities of `r` belong to `id`, which is registered as this logical delivery. */
  ghost predicate Settled(L: Ledger, r: DeliveryRequest, id: Id) {
    && r.deliveryId in L.owner && L.owner[r.deliveryId] == id
    && r.idempotencyId in L.owner && L.owner[r.idempotencyId] == id
    && id in L.entries
    && L.entries[id].registered == Some(Registration(r.idempotencyId, LogicalDigest(r)))
  }

  /** The claim of `r` on `id` still stands. */
  ghost predicate Holds(L: Ledger, r: DeliveryRequest, id: Id) {
    Settled(L, r, id) && L.entries[id].row.state == Sending
  }

  ghost predicate OutgoingOk(L: Ledger, r: DeliveryRequest, out: Outgoing, gated: bool)
    requires Consistent(L)
  {
    match out.basis
    case StoredOutcome(id) =>
      Settled(L, r, id) && L.entries[id].row.state.Terminal() && out.response == Replay(L.entries[id].row)
    case InProgress(id) => gated && Settled(L, r, id) && !L.entries[id].row.state.Terminal()
    case ConflictVerdict => Judge(L, KeysOf(r)) == Refused
    case NoAnswer => true
  }

  ghost predicate ReadsOk(L: Ledger, r: DeliveryRequest, seen: seq<Option<Sighting>>) {
    && |seen| <= 4
    && (|seen| > 0 ==> StillHolds(L, r.deliveryId, seen[0]))
    && (|seen| > 1 ==> StillHolds(L, r.deliveryId, seen[1]))
    && (|seen| > 2 ==> StillHolds(L, r.idempotencyId, seen[2]))
    && (|seen| > 3 ==> StillHolds(L, r.idempotencyId, seen[3]))
  }

  ghost predicate CallOf(calls: seq<Call>, call: nat, r: DeliveryRequest, id: Id) {
    call < |calls| && calls[call].id == id && calls[call].request == r
  }

  /** Telegram accepted this call, as the message that `messageId` names. */
  predicate SentAs(c: Call, messageId: string) {
    c.status.Accepted? && messageId == ProviderMessageId(c.target, c.status.messageId)
  }

  /** The store will take this result as an argument, as the state its class stands for. */
  ghost predicate Storable(result: SendResult, notBeforeNs: int) {
    var o := Normalize(CompletionOf(result, Ms(notBeforeNs)));
    && o.Some? && o.value.state == StateOf(result.class_)
    && (o.value.retryNotBeforeMs == 0 || o.value.retryNotBeforeMs == Ms(notBeforeNs))
    && o.value.providerMessageId == result.providerMessageId
  }

  ghost predicate HandlerOk(L: Ledger, calls: seq<Call>, clockNs: int, m: Handler)
    requires Consistent(L)
  {
    var r := m.request;
    match m.pc
    case Inspecting(seen) => ReadsOk(L, r, seen)
    case ReplayingTerminal(id) =>
      && id in L.entries && L.entries[id].row.state.Terminal() && SameDelivery(id, L.entries[id], r)
      && Judge(L, KeysOf(r)) in {Canonical(id), Refused}
    case AtGate => true
    case AtBegin => true
    case Claimed(id) => Holds(L, r, id) && L.cooldownMs * NS_PER_MS <= clockNs
    case Refusing(id) => Holds(L, r, id)
    case Calling(id, target, call) =>
      Holds(L, r, id) && target.Valid() && CallOf(calls, call, r, id) && calls[call].target == target
    case Persisting(id, call, result, notBeforeNs) =>
      && Holds(L, r, id) && CallOf(calls, call, r, id) && Storable(result, notBeforeNs)
      && (result.class_ == ResultDelivered ==> SentAs(calls[call], result.providerMessageId))
    case Replying(out, gated) => OutgoingOk(L, r, out, gated)
  }

  // ---------------------------------------------------------------- the invariant

  ghost predicate LedgerInv(s: System) {
    Consistent(s.ledger) && Coherent(s.ledger) && NS_PER_MS <= s.clockNs
  }

  /** Mutual exclusion: whoever is past the gate is the one handler the gate names. */
  ghost predicate GateInv(s: System) {
    && (forall h :: h in s.handlers && HoldsGate(s.handlers[h].pc) ==> s.gate == Some(h))
    && (s.gate.Some? ==> s.gate.value in s.handlers && HoldsGate(s.handlers[s.gate.value].pc))
    && (!s.up ==> s.handlers == map[] && s.gate == None)
  }

  ghost predicate HandlersInv(s: System)
    requires LedgerInv(s)
  {
    forall h :: h in s.handlers ==> HandlerOk(s.ledger, s.calls, s.clockNs, s.handlers[h])
  }

  ghost predicate CoreInv(s: System) {
    LedgerInv(s) && GateInv(s) && HandlersInv(s)
  }

  // ---------------------------------------------------------------- ledger steps

  /** No row and no cooldown changed: at most identities were added. */
  ghost predicate RowsKept(L: Ledger, M: Ledger) {
    && M.cooldownMs == L.cooldownMs
    && forall id :: id in L.entries ==> id in M.entries && M.entries[id].row == L.entries[id].row
  }

  /** What any step does to the part of the system it does not own. */
  ghost predicate Evolves(s: System, t: System) {
    LedgerInv(t) && Grows(s.ledger, t.ledger) && s.clockNs <= t.clockNs
  }

  /** Everything a Begin step does to the system but for the ledger's contents and the history. */
  lemma MoveOfBegin(s: System, h: nat, sinceNs: int, nowNs: int, io: Io, gated: bool)
    requires Consistent(s.ledger) && h in s.handlers
    ensures var t := DoBegin(s, h, sinceNs, nowNs, io, gated);
      && t.up == s.up && t.gate == s.gate && t.calls == s.calls && t.clockNs == nowNs
      && t.ledger == (if io == FailsBefore then s.ledger
                      else Begin(s.ledger, KeysOf(s.handlers[h].request), true, sinceNs, Ms(nowNs)).0)
      && t.log == s.log + (if io == FailsBefore then []
                           else BeginEvents(s.ledger, KeysOf(s.handlers[h].request),
                                            Begin(s.ledger, KeysOf(s.handlers[h].request), true, sinceNs, Ms(nowNs)).1))
      && h in t.handlers && t.handlers == s.handlers[h := t.handlers[h]]
      && t.handlers[h].request == s.handlers[h].request
      && (HoldsGate(t.handlers[h].pc) <==> gated)
      && !t.handlers[h].pc.Calling? && !t.handlers[h].pc.Persisting?
  {
  }

  /** The same for a step that persists a result. */
  lemma MoveOfUpdate(s: System, h: nat, id: Id, call: Option<nat>, c: Completion, notBeforeNs: int, nowNs: int, io: Io)
    requires h in s.handlers
    ensures var t := DoUpdate(s, h, id, call, c, notBeforeNs, nowNs, io);
      && t.up == s.up && t.gate == s.gate && t.calls == s.calls && t.clockNs == nowNs
      && t.ledger == (if io == FailsBefore then s.ledger
                      else Update(s.ledger, id, LogicalDigest(s.handlers[h].request), c, Ms(nowNs)).0)
      && t.log == s.log + (if io == FailsBefore then []
                           else UpdateEvents(id, call, notBeforeNs,
                                             Update(s.ledger, id, LogicalDigest(s.handlers[h].request), c, Ms(nowNs)).1))
      && h in t.handlers && t.handlers == s.handlers[h := t.handlers[h]]
      && t.handlers[h].request == s.handlers[h].request
      && t.handlers[h].pc.Replying? && t.handlers[h].pc.gated
  {
  }

  /** The same for a dispatch, whichever way the route check goes. */
  lemma MoveOfDispatch(s: System, h: nat)
    requires h in s.handlers && s.handlers[h].pc.Claimed?
    ensures var t := DoDispatch(s, h);
      && t.up == s.up && t.gate == s.gate && t.clockNs == s.clockNs && t.ledger == s.ledger
      && h in t.handlers && t.handlers == s.handlers[h := t.handlers[h]]
      && (t.handlers[h].pc.Refusing? ==> t.calls == s.calls && t.log == s.log + [])
      && (!t.handlers[h].pc.Refusing? ==>
            && t.handlers[h].pc.Calling?
            && t.calls == s.calls + [Call(s.handlers[h].pc.id, s.handlers[h].request, t.handlers[h].pc.target, Unwritten)]
            && t.log == s.log + [CallStarted(|s.calls|, s.clockNs)])
  {
  }

  lemma MoveOfReturn(s: System, h: nat, x: Exchange, nowNs: int)
    requires Consistent(s.ledger) && CanMove(s, h, Return(x, nowNs))
    ensures var t := DoMove(s, h, Return(x, nowNs));
      var result := ResultOf(s.handlers[h].pc.target, x);
      && At(t, h) && t.clockNs == nowNs && t.handlers[h].request == s.handlers[h].request
      && t.handlers[h].pc == Persisting(s.handlers[h].pc.id, s.handlers[h].pc.call, result,
                                        nowNs + (if result.retryAfterNs > 0 then result.retryAfterNs else 0))
  {
  }

  /** Moves that touch neither the ledger nor the history. */
  predicate Silent(move: Move) {
    move.Read? || move.ReadFails? || move.Conclude? || move.EnterGate? || move.Cancel? || move.Return?
  }

  lemma MoveOfSilent(s: System, h: nat, move: Move)
    requires Consistent(s.ledger) && CanMove(s, h, move) && Silent(move)
    ensures var t := DoMove(s, h, move);
      && t.up == s.up && t.ledger == s.ledger && t.calls == s.calls && t.log == s.log
      && h in t.handlers && t.handlers == s.handlers[h := t.handlers[h]]
      && !t.handlers[h].pc.Claimed? && !t.handlers[h].pc.Calling? && !t.handlers[h].pc.Refusing?
      && s.clockNs <= t.clockNs && (move.EnterGate? || t.gate == s.gate)
      && (move.EnterGate? ==> s.gate.None? && t.gate == Some(h))
  {
  }

  /** The ledger part of a step, for whoever takes it. */
  lemma LedgerStep(s: System, a: Action)
    requires LedgerInv(s)
    ensures Evolves(s, Step(s, a))
  {
    if Enabled(s, a) {
      match a
      case Handle(h, move) => LedgerMove(s, h, move);
      case Open(nowNs) => RecoverKeeps(s.ledger, Ms(nowNs));
      case _ =>
    }
  }

  lemma LedgerMove(s: System, h: nat, move: Move)
    requires LedgerInv(s) && CanMove(s, h, move)
    ensures Evolves(s, DoMove(s, h, move))
  {
    var pc := s.handlers[h].pc;
    match move
    case ReplayBegin(sinceNs, nowNs, io) => BeginEvolves(s, h, sinceNs, nowNs, io, false);
    case GatedBegin(sinceNs, nowNs, io) => BeginEvolves(s, h, sinceNs, nowNs, io, true);
    case PersistRefusal(nowNs, io) => UpdateEvolves(s, h, pc.id, None, ROUTING_MISMATCH, 0, nowNs, io);
    case Persist(nowNs, io) =>
      UpdateEvolves(s, h, pc.id, Some(pc.call), CompletionOf(pc.result, Ms(pc.notBeforeNs)), pc.notBeforeNs, nowNs, io);
    case _ =>
  }

  lemma BeginEvolves(s: System, h: nat, sinceNs: int, nowNs: int, io: Io, gated: bool)
    requires LedgerInv(s) && h in s.handlers && s.clockNs <= nowNs
    ensures Evolves(s, DoBegin(s, h, sinceNs, nowNs, io, gated))
  {
    MoveOfBegin(s, h, sinceNs, nowNs, io, gated);
    BeginStep(s.ledger, s.handlers[h].request, sinceNs, Ms(nowNs));
  }

  lemma UpdateEvolves(s: System, h: nat, id: Id, call: Option<nat>, c: Completion, notBeforeNs: int, nowNs: int, io: Io)
    requires LedgerInv(s) && h in s.handlers && s.clockNs <= nowNs
    ensures Evolves(s, DoUpdate(s, h, id, call, c, notBeforeNs, nowNs, io))
  {
    MoveOfUpdate(s, h, id, call, c, notBeforeNs, nowNs, io);
    UpdateStep(s.ledger, id, LogicalDigest(s.handlers[h].request), c, Ms(nowNs));
  }

  lemma BeginStep(L: Ledger, r: DeliveryRequest, sinceNs: int, nowMs: int)
    requires Consistent(L) && Coherent(L)
    ensures var M := Begin(L, KeysOf(r), true, sinceNs, nowMs).0; Consistent(M) && Coherent(M) && Grows(L, M)
  {
    BeginKeeps(L, KeysOf(r), true, sinceNs, nowMs);
    BeginKeepsCoherent(L, r, true, sinceNs, nowMs);
  }

  lemma UpdateStep(L: Ledger, id: Id, digest: Digest, c: Completion, nowMs: int)
    requires Consistent(L) && Coherent(L)
    ensures var M := Update(L, id, digest, c, nowMs).0; Consistent(M) && Coherent(M) && Grows(L, M)
  {
    UpdateKeeps(L, id, digest, c, nowMs);
    var M := Update(L, id, digest, c, nowMs).0;
    forall j | j in M.entries ensures CoherentEntry(j, M.entries[j]) {
      UpdateKeepsIdentity(L, id, digest, c, nowMs, j);
    }
  }

  lemma UpdateKeepsIdentity(L: Ledger, id: Id, digest: Digest, c: Completion, nowMs: int, j: Id)
    ensures var M := Update(L, id, digest, c, nowMs).0;
      && M.owner == L.owner && (j in M.entries <==> j in L.entries)
      && (j in L.entries ==>
            && M.entries[j].registered == L.entries[j].registered
            && M.entries[j].row.legacyDigest == L.entries[j].row.legacyDigest
            && (j != id ==> M.entries[j] == L.entries[j]))
  {
    match Normalize(c)
    case None =>
    case Some(o) => CompleteKeepsIdentity(L, id, digest, o, nowMs, j);
  }

  lemma CompleteKeepsIdentity(L: Ledger, id: Id, digest: Digest, o: Outcome, nowMs: int, j: Id)
    ensures var M := Complete(L, id, digest, o, nowMs).0;
      && M.owner == L.owner && (j in M.entries <==> j in L.entries)
      && (j in L.entries ==>
            && M.entries[j].registered == L.entries[j].registered
            && M.entries[j].row.legacyDigest == L.entries[j].row.legacyDigest
            && (j != id ==> M.entries[j] == L.entries[j]))
  {
  }

  // ---------------------------------------------------------------- the gate

  /** A handler that moves without crossing the gate. */
  lemma GateAfterMove(s: System, t: System, h: nat)
    requires GateInv(s) && At(s, h) && t.up && t.gate == s.gate
    requires h in t.handlers && t.handlers == s.handlers[h := t.handlers[h]]
    requires HoldsGate(t.handlers[h].pc) <==> HoldsGate(s.handlers[h].pc)
    ensures GateInv(t)
  {
  }

  /** At most one handler is between claiming and answering, whatever happens. */
  lemma GateStep(s: System, a: Action)
    requires LedgerInv(s) && GateInv(s)
    ensures GateInv(Step(s, a))
  {
    if Enabled(s, a) && a.Handle? {
      GateMove(s, a.h, a.move);
    }
  }

  lemma GateMove(s: System, h: nat, move: Move)
    requires LedgerInv(s) && GateInv(s) && CanMove(s, h, move)
    ensures GateInv(DoMove(s, h, move))
  {
    var t := DoMove(s, h, move);
    var pc := s.handlers[h].pc;
    match move
    case EnterGate =>
    case Respond =>
    case ReplayBegin(sinceNs, nowNs, io) =>
      MoveOfBegin(s, h, sinceNs, nowNs, io, false);
      GateAfterMove(s, t, h);
    case GatedBegin(sinceNs, nowNs, io) =>
      MoveOfBegin(s, h, sinceNs, nowNs, io, true);
      GateAfterMove(s, t, h);
    case PersistRefusal(nowNs, io) =>
      MoveOfUpdate(s, h, pc.id, None, ROUTING_MISMATCH, 0, nowNs, io);
      GateAfterMove(s, t, h);
    case Persist(nowNs, io) =>
      MoveOfUpdate(s, h, pc.id, Some(pc.call), CompletionOf(pc.result, Ms(pc.notBeforeNs)), pc.notBeforeNs, nowNs, io);
      GateAfterMove(s, t, h);
    case _ => GateAfterMove(s, t, h);
  }

  // ---------------------------------------------------------------- handlers that only watch

  ghost predicate CallsGrow(calls: seq<Call>, later: seq<Call>) {
    && |calls| <= |later|
    && forall k :: 0 <= k < |calls| ==>
         && later[k].id == calls[k].id && later[k].request == calls[k].request
         && later[k].target == calls[k].target
         && (calls[k].status.Accepted? ==> later[k].status == calls[k].status)
  }

  lemma SettledStays(L: Ledger, M: Ledger, r: DeliveryRequest, id: Id)
    requires Settled(L, r, id) && Grows(L, M)
    ensures Settled(M, r, id) && EntryGrows(L.entries[id], M.entries[id])
  {
  }

  lemma OutgoingStays(L: Ledger, M: Ledger, r: DeliveryRequest, out: Outgoing, gated: bool)
    requires Consistent(L) && Coherent(L) && Consistent(M) && Coherent(M) && Grows(L, M)
    requires OutgoingOk(L, r, out, gated) && (gated ==> RowsKept(L, M))
    ensures OutgoingOk(M, r, out, gated)
  {
    match out.basis
    case StoredOutcome(id) => SettledStays(L, M, r, id);
    case InProgress(id) => SettledStays(L, M, r, id);
    case ConflictVerdict => RefusalIsPermanent(L, M, r);
    case NoAnswer =>
  }

  lemma ReadsStay(L: Ledger, M: Ledger, r: DeliveryRequest, seen: seq<Option<Sighting>>)
    requires ReadsOk(L, r, seen) && Grows(L, M)
    ensures ReadsOk(M, r, seen)
  {
    if |seen| > 0 { HoldsLater(L, M, r.deliveryId, seen[0]); }
    if |seen| > 1 { HoldsLater(L, M, r.deliveryId, seen[1]); }
    if |seen| > 2 { HoldsLater(L, M, r.idempotencyId, seen[2]); }
    if |seen| > 3 { HoldsLater(L, M, r.idempotencyId, seen[3]); }
  }

  /** A verdict on a known delivery can only turn into a refusal. */
  lemma ReplayableStays(L: Ledger, M: Ledger, r: DeliveryRequest, id: Id)
    requires Consistent(L) && Coherent(L) && Consistent(M) && Coherent(M) && Grows(L, M)
    requires id in L.entries && Judge(L, KeysOf(r)) in {Canonical(id), Refused}
    ensures Judge(M, KeysOf(r)) in {Canonical(id), Refused}
  {
    if Judge(L, KeysOf(r)) == Refused {
      RefusalIsPermanent(L, M, r);
    } else {
      JudgeMeaning(L, r);
      JudgeMeaning(M, r);
      assert EntryGrows(L.entries[id], M.entries[id]);
    }
  }

  /** Whoever does not act keeps what it relies on, as long as the gate holder's row is left alone. */
  lemma WatcherStays(L: Ledger, M: Ledger, calls: seq<Call>, later: seq<Call>, clockNs: int, laterNs: int, m: Handler)
    requires Consistent(L) && Coherent(L) && Consistent(M) && Coherent(M) && Grows(L, M)
    requires CallsGrow(calls, later) && clockNs <= laterNs
    requires HandlerOk(L, calls, clockNs, m) && (HoldsGate(m.pc) ==> RowsKept(L, M))
    ensures HandlerOk(M, later, laterNs, m)
  {
    var r := m.request;
    match m.pc
    case Inspecting(seen) => ReadsStay(L, M, r, seen);
    case ReplayingTerminal(id) =>
      ReplayableStays(L, M, r, id);
      assert EntryGrows(L.entries[id], M.entries[id]);
    case AtGate =>
    case AtBegin =>
    case Claimed(id) => SettledStays(L, M, r, id);
    case Refusing(id) => SettledStays(L, M, r, id);
    case Calling(id, target, call) => SettledStays(L, M, r, id);
    case Persisting(id, call, result, notBeforeNs) => SettledStays(L, M, r, id);
    case Replying(out, gated) => OutgoingStays(L, M, r, out, gated);
  }

  // ---------------------------------------------------------------- the handler that acts

  lemma ReadKeeps(L: Ledger, r: DeliveryRequest, seen: seq<Option<Sighting>>)
    requires Consistent(L) && Coherent(L) && ReadsOk(L, r, seen) && |seen| < 4
    ensures ReadsOk(L, r, seen + [ReadNext(L, r, seen)])
  {
    ReadsHoldLater(L, L, r.deliveryId);
    ReadsHoldLater(L, L, r.idempotencyId);
  }

  lemma ConclusionKeeps(L: Ledger, calls: seq<Call>, clockNs: int, r: DeliveryRequest, seen: seq<Option<Sighting>>)
    requires Consistent(L) && Coherent(L) && ReadsOk(L, r, seen) && |seen| == 4
    ensures HandlerOk(L, calls, clockNs, Handler(r, AfterInspection(r, seen)))
    ensures !HoldsGate(AfterInspection(r, seen))
  {
    ConclusionIsCurrent(L, r, seen[0], seen[1], seen[2], seen[3]);
  }

  lemma ResumeOutcome(L: Ledger, id: Id, sinceNs: int, nowMs: int)
    requires id in L.entries && RowOk(L.entries[id].row, L.cooldownMs) && 0 <= L.cooldownMs && 0 <= nowMs
    ensures var (M, result) := Resume(L, id, true, sinceNs, nowMs);
      && M.owner == L.owner && M.cooldownMs == L.cooldownMs && id in M.entries
      && M.entries[id].registered == L.entries[id].registered
      && result.Answer? && result.record.deliveryId == id
      && result.record.row.state == M.entries[id].row.state
      && (result.record.row.state.Terminal() ==> result.record.row == M.entries[id].row)
      && (result.shouldSend ==>
            && L.entries[id].row.state == Retryable && M.entries[id].row.state == Sending && M.cooldownMs <= nowMs)
      && (M.entries[id].row.state != Sending ==> !result.shouldSend)
  {
  }

  lemma InsertOutcome(L: Ledger, k: Keys, nowMs: int)
    requires 0 <= L.cooldownMs && 0 <= nowMs
    ensures var (M, result) := Insert(L, k, true, nowMs);
      && M.cooldownMs == L.cooldownMs && k.deliveryId in M.entries
      && M.owner == L.owner[k.deliveryId := k.deliveryId][k.idempotencyId := k.deliveryId]
      && M.entries[k.deliveryId].registered == Some(Registration(k.idempotencyId, k.requestDigest))
      && result.Answer? && result.record.deliveryId == k.deliveryId
      && result.record.row == M.entries[k.deliveryId].row
      && !result.record.row.state.Terminal()
      && (result.shouldSend <==> M.entries[k.deliveryId].row.state == Sending)
      && (result.shouldSend ==> M.cooldownMs <= nowMs)
  {
  }

  /** What Begin leaves behind for the request it answered. */
  lemma SettledAfterBegin(L: Ledger, r: DeliveryRequest, sinceNs: int, nowMs: int)
    requires Consistent(L) && Coherent(L) && 0 <= nowMs
    ensures var (M, result) := Begin(L, KeysOf(r), true, sinceNs, nowMs);
      match result
      case Conflict => M == L && Judge(L, KeysOf(r)) == Refused
      case Answer(record, shouldSend) =>
        && Settled(M, r, record.deliveryId)
        && M.cooldownMs == L.cooldownMs
        && (shouldSend ==>
              && M.entries[record.deliveryId].row.state == Sending && M.cooldownMs <= nowMs
              && (record.deliveryId in L.entries ==> L.entries[record.deliveryId].row.state == Retryable))
        && record.row.state == M.entries[record.deliveryId].row.state
        && (record.row.state.Terminal() ==> record.row == M.entries[record.deliveryId].row)
  {
    var k := KeysOf(r);
    match Judge(L, k)
    case Refused =>
    case Absent =>
      InsertKeeps(L, k, true, nowMs);
      InsertOutcome(L, k, nowMs);
    case Canonical(id) =>
      AdoptKeeps(L, id, k);
      assert EntryOk(Adopt(L, id, k), id);
      ResumeOutcome(Adopt(L, id, k), id, sinceNs, nowMs);
  }

  /** The terminal-replay path changes no row and no cooldown. */
  lemma ReplayKeepsRows(L: Ledger, r: DeliveryRequest, id: Id, sinceNs: int, nowMs: int)
    requires Consistent(L) && id in L.entries && L.entries[id].row.state.Terminal()
    requires Judge(L, KeysOf(r)) in {Canonical(id), Refused}
    ensures RowsKept(L, Begin(L, KeysOf(r), true, sinceNs, nowMs).0)
  {
    TerminalIsReplayed(L, KeysOf(r), id, true, sinceNs, nowMs);
  }

  /** A result is persisted for the delivery it was claimed for: it meets neither conflict nor transition error. */
  lemma UpdateOutcome(L: Ledger, r: DeliveryRequest, id: Id, c: Completion, nowMs: int)
    requires Holds(L, r, id) && Normalize(c).Some?
    ensures var (M, result) := Update(L, id, LogicalDigest(r), c, nowMs);
      var o := Normalize(c).value;
      && result.Recorded? && result.record.deliveryId == id
      && Settled(M, r, id)
      && M.entries[id].row == result.record.row && result.record.row == WithOutcome(L.entries[id].row, o, nowMs)
      && M.cooldownMs == Max(L.cooldownMs, o.retryNotBeforeMs)
  {
    CompletionOutcome(L, r, id, Normalize(c).value, nowMs);
  }

  lemma CompletionOutcome(L: Ledger, r: DeliveryRequest, id: Id, o: Outcome, nowMs: int)
    requires Holds(L, r, id)
    ensures var (M, result) := Complete(L, id, LogicalDigest(r), o, nowMs);
      && result.Recorded? && result.record.deliveryId == id
      && Settled(M, r, id)
      && M.entries[id].row == result.record.row && result.record.row == WithOutcome(L.entries[id].row, o, nowMs)
      && M.cooldownMs == Max(L.cooldownMs, o.retryNotBeforeMs)
  {
  }

  lemma WatchersStay(s: System, t: System, h: nat)
    requires CoreInv(s) && Evolves(s, t) && CallsGrow(s.calls, t.calls)
    requires s.gate == Some(h) || RowsKept(s.ledger, t.ledger)
    ensures forall w :: w in s.handlers && w != h ==> HandlerOk(t.ledger, t.calls, t.clockNs, s.handlers[w])
  {
    forall w | w in s.handlers && w != h ensures HandlerOk(t.ledger, t.calls, t.clockNs, s.handlers[w]) {
      WatcherStays(s.ledger, t.ledger, s.calls, t.calls, s.clockNs, t.clockNs, s.handlers[w]);
    }
  }

  lemma HandlersAfterMove(s: System, t: System, h: nat)
    requires CoreInv(s) && Evolves(s, t) && CallsGrow(s.calls, t.calls)
    requires s.gate == Some(h) || RowsKept(s.ledger, t.ledger)
    requires h in t.handlers && t.handlers == s.handlers[h := t.handlers[h]]
    requires HandlerOk(t.ledger, t.calls, t.clockNs, t.handlers[h])
    ensures HandlersInv(t)
  {
    WatchersStay(s, t, h);
  }

  lemma HandlersAfterBegin(s: System, h: nat, sinceNs: int, nowNs: int, io: Io, gated: bool)
    requires CoreInv(s) && At(s, h) && s.clockNs <= nowNs && (HoldsGate(s.handlers[h].pc) <==> gated)
    requires !gated ==> s.handlers[h].pc.ReplayingTerminal?
    ensures var t := DoBegin(s, h, sinceNs, nowNs, io, gated); LedgerInv(t) && HandlersInv(t)
  {
    var t := DoBegin(s, h, sinceNs, nowNs, io, gated);
    var r := s.handlers[h].request;
    MoveOfBegin(s, h, sinceNs, nowNs, io, gated);
    BeginEvolves(s, h, sinceNs, nowNs, io, gated);
    assert HandlerOk(s.ledger, s.calls, s.clockNs, s.handlers[h]);
    SettledAfterBegin(s.ledger, r, sinceNs, Ms(nowNs));
    if !gated {
      ReplayKeepsRows(s.ledger, r, s.handlers[h].pc.id, sinceNs, Ms(nowNs));
      TerminalIsReplayed(s.ledger, KeysOf(r), s.handlers[h].pc.id, true, sinceNs, Ms(nowNs));
    }
    HandlersAfterMove(s, t, h);
  }

  lemma HandlersAfterUpdate(s: System, h: nat, id: Id, call: Option<nat>, c: Completion, notBeforeNs: int,
                            nowNs: int, io: Io)
    requires CoreInv(s) && At(s, h) && s.clockNs <= nowNs && s.gate == Some(h)
    requires Holds(s.ledger, s.handlers[h].request, id) && Normalize(c).Some?
    ensures var t := DoUpdate(s, h, id, call, c, notBeforeNs, nowNs, io); LedgerInv(t) && HandlersInv(t)
  {
    var t := DoUpdate(s, h, id, call, c, notBeforeNs, nowNs, io);
    MoveOfUpdate(s, h, id, call, c, notBeforeNs, nowNs, io);
    UpdateEvolves(s, h, id, call, c, notBeforeNs, nowNs, io);
    UpdateOutcome(s.ledger, s.handlers[h].request, id, c, Ms(nowNs));
    HandlersAfterMove(s, t, h);
  }

  lemma RefusalIsStorable()
    ensures Normalize(ROUTING_MISMATCH).Some? && Normalize(ROUTING_MISMATCH).value.state == Permanent
    ensures Normalize(ROUTING_MISMATCH).value.retryNotBeforeMs == 0
  {
    assert NormalizeProviderMessageId("") == Some("");
  }

  lemma DestinationIsValid(config: Config, route: Route)
    ensures var t := Destination(config, route); t.Some? ==> t.value.Valid()
  {
  }

  lemma ReturnedIsStorable(target: Target, x: Exchange, nowNs: int)
    requires target.Valid() && NS_PER_MS <= nowNs
    requires x.Replied? && x.message.Some? ==> IsInt64(x.message.value.messageId)
    ensures var result := ResultOf(target, x);
      Storable(result, nowNs + (if result.retryAfterNs > 0 then result.retryAfterNs else 0))
  {
    var result := ResultOf(target, x);
    CompletionIsStorable(target, x, Ms(nowNs + (if result.retryAfterNs > 0 then result.retryAfterNs else 0)));
  }

  /** What the request holds after its exchange is worth storing. */
  lemma ReturnedResultIsOk(L: Ledger, calls: seq<Call>, clockNs: int, m: Handler, x: Exchange, nowNs: int, n: Handler)
    requires Consistent(L) && m.pc.Calling? && HandlerOk(L, calls, clockNs, m) && NS_PER_MS <= nowNs
    requires m.pc.call < |calls| && Observable(x, calls[m.pc.call].status)
    requires x.Replied? && x.message.Some? ==> IsInt64(x.message.value.messageId)
    requires var result := ResultOf(m.pc.target, x);
      && n.request == m.request
      && n.pc == Persisting(m.pc.id, m.pc.call, result, nowNs + (if result.retryAfterNs > 0 then result.retryAfterNs else 0))
    ensures HandlerOk(L, calls, nowNs, n)
  {
    ReturnedIsStorable(m.pc.target, x, nowNs);
    ClassificationIsSafe(m.pc.target, x, calls[m.pc.call].status);
  }

  lemma ReturnerIsOk(s: System, h: nat, x: Exchange, nowNs: int)
    requires CoreInv(s) && CanMove(s, h, Return(x, nowNs))
    ensures var t := DoMove(s, h, Return(x, nowNs));
      h in t.handlers && HandlerOk(s.ledger, s.calls, nowNs, t.handlers[h])
  {
    assert HandlerOk(s.ledger, s.calls, s.clockNs, s.handlers[h]);
    MoveOfReturn(s, h, x, nowNs);
    ReturnedResultIsOk(s.ledger, s.calls, s.clockNs, s.handlers[h], x, nowNs, DoMove(s, h, Return(x, nowNs)).handlers[h]);
  }

  lemma MoveOutsideGate(s: System, h: nat, move: Move)
    requires CoreInv(s) && CanMove(s, h, move)
    requires move.Read? || move.ReadFails? || move.Conclude? || move.EnterGate? || move.Cancel?
    ensures var t := DoMove(s, h, move); LedgerInv(t) && HandlersInv(t)
  {
    var m := s.handlers[h];
    assert HandlerOk(s.ledger, s.calls, s.clockNs, m);
    if move.Read? {
      ReadKeeps(s.ledger, m.request, m.pc.seen);
    } else if move.Conclude? {
      ConclusionKeeps(s.ledger, s.calls, s.clockNs, m.request, m.pc.seen);
    }
    HandlersAfterMove(s, DoMove(s, h, move), h);
  }

  lemma MoveAroundCall(s: System, h: nat, move: Move)
    requires CoreInv(s) && CanMove(s, h, move) && (move.Dispatch? || move.Return?)
    ensures var t := DoMove(s, h, move); LedgerInv(t) && HandlersInv(t)
  {
    assert HandlerOk(s.ledger, s.calls, s.clockNs, s.handlers[h]);
    if move.Dispatch? {
      DestinationIsValid(s.config, RouteOfRequest(s.handlers[h].request));
    } else {
      ReturnerIsOk(s, h, move.x, move.nowNs);
    }
    HandlersAfterMove(s, DoMove(s, h, move), h);
  }

  lemma MoveToPersist(s: System, h: nat, nowNs: int, io: Io)
    requires CoreInv(s) && CanMove(s, h, Persist(nowNs, io))
    ensures var t := DoMove(s, h, Persist(nowNs, io)); LedgerInv(t) && HandlersInv(t)
  {
    var pc := s.handlers[h].pc;
    assert HandlerOk(s.ledger, s.calls, s.clockNs, s.handlers[h]);
    HandlersAfterUpdate(s, h, pc.id, Some(pc.call), CompletionOf(pc.result, Ms(pc.notBeforeNs)), pc.notBeforeNs, nowNs, io);
  }

  lemma RefuserHolds(s: System, h: nat)
    requires CoreInv(s) && At(s, h) && s.handlers[h].pc.Refusing?
    ensures Holds(s.ledger, s.handlers[h].request, s.handlers[h].pc.id) && s.gate == Some(h)
  {
    assert HandlerOk(s.ledger, s.calls, s.clockNs, s.handlers[h]);
  }

  /** Giving up a delivery is an update like any other, with a completion the store takes. */
  lemma MoveOfRefusal(s: System, h: nat, nowNs: int, io: Io) returns (c: Completion)
    requires CoreInv(s) && CanMove(s, h, PersistRefusal(nowNs, io))
    ensures DoMove(s, h, PersistRefusal(nowNs, io)) == DoUpdate(s, h, s.handlers[h].pc.id, None, c, 0, nowNs, io)
    ensures Normalize(c).Some? && c.state == Permanent && Normalize(c).value.retryNotBeforeMs == 0
    ensures c.safeMessage == "delivery routing mismatch"
    ensures Holds(s.ledger, s.handlers[h].request, s.handlers[h].pc.id) && s.gate == Some(h)
  {
    RefuserHolds(s, h);
    RefusalIsStorable();
    c := ROUTING_MISMATCH;
  }

  lemma MoveToRefuse(s: System, h: nat, nowNs: int, io: Io)
    requires CoreInv(s) && CanMove(s, h, PersistRefusal(nowNs, io))
    ensures var t := DoMove(s, h, PersistRefusal(nowNs, io)); LedgerInv(t) && HandlersInv(t)
  {
    var c := MoveOfRefusal(s, h, nowNs, io);
    HandlersAfterUpdate(s, h, s.handlers[h].pc.id, None, c, 0, nowNs, io);
  }

  lemma HandlersMove(s: System, h: nat, move: Move)
    requires CoreInv(s) && CanMove(s, h, move)
    ensures var t := DoMove(s, h, move); LedgerInv(t) && HandlersInv(t)
  {
    match move
    case ReplayBegin(sinceNs, nowNs, io) => HandlersAfterBegin(s, h, sinceNs, nowNs, io, false);
    case GatedBegin(sinceNs, nowNs, io) => HandlersAfterBegin(s, h, sinceNs, nowNs, io, true);
    case Dispatch | Return(_, _) => MoveAroundCall(s, h, move);
    case PersistRefusal(nowNs, io) => MoveToRefuse(s, h, nowNs, io);
    case Persist(nowNs, io) => MoveToPersist(s, h, nowNs, io);
    case Respond => WatchersOnly(s, DoMove(s, h, move));
    case _ => MoveOutsideGate(s, h, move);
  }

  /** Every handler's knowledge stays good, whoever steps. */
  lemma HandlersStep(s: System, a: Action)
    requires CoreInv(s)
    ensures LedgerInv(Step(s, a)) && HandlersInv(Step(s, a))
  {
    LedgerStep(s, a);
    if Enabled(s, a) {
      match a
      case Handle(h, move) => HandlersMove(s, h, move);
      case Crash =>
      case Open(nowNs) =>
      case _ => WatchersOnly(s, Do(s, a));
    }
  }

  /** Ledger, gate and handlers together. */
  lemma CoreStep(s: System, a: Action)
    requires CoreInv(s)
    ensures CoreInv(Step(s, a))
  {
    LedgerStep(s, a);
    GateStep(s, a);
    HandlersStep(s, a);
  }

  /** Steps of the clock, the network and the callers. */
  lemma WatchersOnly(s: System, t: System)
    requires CoreInv(s) && Evolves(s, t) && t.ledger == s.ledger && CallsGrow(s.calls, t.calls)
    requires forall h :: h in t.handlers ==>
               (h in s.handlers && t.handlers[h] == s.handlers[h]) || t.handlers[h].pc == Inspecting([])
    ensures HandlersInv(t)
  {
    forall h | h in t.handlers ensures HandlerOk(t.ledger, t.calls, t.clockNs, t.handlers[h]) {
      if h in s.handlers && t.handlers[h] == s.handlers[h] {
        WatcherStays(s.ledger, t.ledger, s.calls, t.calls, s.clockNs, t.clockNs, s.handlers[h]);
      }
    }
  }

  lemma ResumeTransitions(L: Ledger, id: Id, sinceNs: int, nowMs: int, j: Id)
    requires id in L.entries && j in L.entries
    ensures var (M, result) := Resume(L, id, true, sinceNs, nowMs);
      && result.Answer? && result.record.deliveryId == id
      && M.entries.Keys == L.entries.Keys
      && var (x, y) := (L.entries[j].row.state, M.entries[j].row.state);
         if result.shouldSend && j == id then x == Retryable && y == Sending
         else y == x || (x == Sending && y == Unknown)
  {
  }

  /** Every row's state change in a Begin, and which of them is a claim. */
  lemma BeginTransitions(L: Ledger, r: DeliveryRequest, sinceNs: int, nowMs: int, j: Id)
    requires Consistent(L) && Coherent(L)
    ensures var (M, result) := Begin(L, KeysOf(r), true, sinceNs, nowMs);
      var isNew := Judge(L, KeysOf(r)) == Absent && j == r.deliveryId;
      var claimed := result.Answer? && result.shouldSend && result.record.deliveryId == j;
      && (j in M.entries <==> j in L.entries || isNew)
      && (isNew ==> j !in L.entries && M.entries[j].row.state == if claimed then Sending else Retryable)
      && (claimed ==> j in M.entries)
      && (j in L.entries ==>
            var (x, y) := (L.entries[j].row.state, M.entries[j].row.state);
            if claimed then x == Retryable && y == Sending else y == x || (x == Sending && y == Unknown))
  {
    var k := KeysOf(r);
    match Judge(L, k)
    case Refused =>
    case Absent => InsertKeeps(L, k, true, nowMs);
    case Canonical(id) =>
      AdoptKeeps(L, id, k);
      var A := Adopt(L, id, k);
      assert A.entries.Keys == L.entries.Keys;
      if j in L.entries {
        assert A.entries[j].row == L.entries[j].row;
        ResumeTransitions(A, id, sinceNs, nowMs, j);
      } else {
        ResumeTransitions(A, id, sinceNs, nowMs, id);
      }
  }
}
