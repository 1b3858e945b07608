/** What an answer claims, and what stands behind a delivered row. */
module AdapterAnswers {
  import opened Prelude
  import opened Wire
  import opened DeliveryLedger
  import opened LedgerLaws
  import opened TelegramClient
  import opened Adapter
  import opened AdapterInvariants

  // ---------------------------------------------------------------- answers fit what they rest on

  /** Only a terminal row yields a final status, other than the refusal of an identity. */
  predicate Fitting(out: Outgoing) {
    match out.basis
    case StoredOutcome(_) => out.response.status != StatusRetryableError
    case InProgress(_) => out.response.status == StatusRetryableError && out.response.providerMessageId == ""
    case ConflictVerdict => out.response == IDENTITY_CONFLICT || out.response == STORE_UNAVAILABLE
    case NoAnswer => out.response == STORE_UNAVAILABLE || out.response == REQUEST_CANCELED
  }

  ghost predicate FittingInv(s: System) {
    && (forall h :: h in s.handlers && s.handlers[h].pc.Replying? ==> Fitting(s.handlers[h].pc.out))
    && (forall j: nat :: j < |s.log| && s.log[j].Responded? ==> Fitting(s.log[j].out))
  }

  /** A step of one handler that adds no answer to the history. */
  lemma FittingAfter(s: System, t: System, h: nat, more: seq<Event>)
    requires FittingInv(s) && t.log == s.log + more
    requires forall j: nat :: j < |more| ==> !more[j].Responded?
    requires h in t.handlers && h in s.handlers && t.handlers == s.handlers[h := t.handlers[h]]
    requires t.handlers[h].pc.Replying? ==> Fitting(t.handlers[h].pc.out)
    ensures FittingInv(t)
  {
    forall j: nat | j < |t.log| && t.log[j].Responded? ensures Fitting(t.log[j].out) {
      assert j < |s.log| ==> t.log[j] == s.log[j];
    }
  }

  lemma FittingBegun(io: Io, result: BeginResult)
    ensures AfterGatedBegin(io, result).Replying? ==> Fitting(AfterGatedBegin(io, result).out)
    ensures AfterReplayBegin(io, result).Replying? && Fitting(AfterReplayBegin(io, result).out)
  {
  }

  lemma NoResponseInBegin(L: Ledger, k: Keys, result: BeginResult)
    requires Consistent(L)
    ensures forall j: nat :: j < |BeginEvents(L, k, result)| ==> !BeginEvents(L, k, result)[j].Responded?
  {
  }

  lemma FittingAfterBegin(s: System, h: nat, sinceNs: int, nowNs: int, io: Io, gated: bool)
    requires Consistent(s.ledger) && FittingInv(s) && h in s.handlers
    ensures FittingInv(DoBegin(s, h, sinceNs, nowNs, io, gated))
  {
    var t := DoBegin(s, h, sinceNs, nowNs, io, gated);
    var k := KeysOf(s.handlers[h].request);
    MoveOfBegin(s, h, sinceNs, nowNs, io, gated);
    var result := Begin(s.ledger, k, true, sinceNs, Ms(nowNs)).1;
    FittingBegun(io, result);
    NoResponseInBegin(s.ledger, k, result);
    if io == FailsBefore {
      FittingAfter(s, t, h, []);
    } else {
      FittingAfter(s, t, h, BeginEvents(s.ledger, k, result));
    }
  }

  lemma FittingUpdated(io: Io, id: Id, call: Option<nat>, notBeforeNs: int, result: UpdateResult)
    ensures AfterUpdate(io, result).Replying? && Fitting(AfterUpdate(io, result).out)
    ensures forall j: nat :: j < |UpdateEvents(id, call, notBeforeNs, result)| ==>
              !UpdateEvents(id, call, notBeforeNs, result)[j].Responded?
  {
  }

  lemma FittingAfterUpdate(s: System, h: nat, id: Id, call: Option<nat>, c: Completion, notBeforeNs: int, nowNs: int, io: Io)
    requires FittingInv(s) && h in s.handlers
    ensures FittingInv(DoUpdate(s, h, id, call, c, notBeforeNs, nowNs, io))
  {
    var t := DoUpdate(s, h, id, call, c, notBeforeNs, nowNs, io);
    MoveOfUpdate(s, h, id, call, c, notBeforeNs, nowNs, io);
    var result := Update(s.ledger, id, LogicalDigest(s.handlers[h].request), c, Ms(nowNs)).1;
    assert t.handlers[h].pc == AfterUpdate(io, result);
    FittingUpdated(io, id, call, notBeforeNs, result);
    FittingAfter(s, t, h, if io == FailsBefore then [] else UpdateEvents(id, call, notBeforeNs, result));
  }

  lemma FittingAfterSilent(s: System, h: nat, move: Move)
    requires LedgerInv(s) && FittingInv(s) && CanMove(s, h, move) && Silent(move)
    ensures FittingInv(DoMove(s, h, move))
  {
    MoveOfSilent(s, h, move);
    assert DoMove(s, h, move).log == s.log + [];
    FittingAfter(s, DoMove(s, h, move), h, []);
  }

  lemma FittingMove(s: System, h: nat, move: Move)
    requires LedgerInv(s) && FittingInv(s) && CanMove(s, h, move)
    ensures FittingInv(DoMove(s, h, move))
  {
    var pc := s.handlers[h].pc;
    match move
    case ReplayBegin(sinceNs, nowNs, io) => FittingAfterBegin(s, h, sinceNs, nowNs, io, false);
    case GatedBegin(sinceNs, nowNs, io) => FittingAfterBegin(s, h, sinceNs, nowNs, io, true);
    case PersistRefusal(nowNs, io) => FittingAfterUpdate(s, h, pc.id, None, ROUTING_MISMATCH, 0, nowNs, io);
    case Persist(nowNs, io) =>
      FittingAfterUpdate(s, h, pc.id, Some(pc.call), CompletionOf(pc.result, Ms(pc.notBeforeNs)), pc.notBeforeNs, nowNs, io);
    case Dispatch => MoveOfDispatch(s, h);
    case Respond =>
    case _ => FittingAfterSilent(s, h, move);
  }

  lemma FittingStep(s: System, a: Action)
    requires CoreInv(s) && FittingInv(s)
    ensures FittingInv(Step(s, a))
  {
    if Enabled(s, a) && a.Handle? {
      FittingMove(s, a.h, a.move);
    }
  }

  // ---------------------------------------------------------------- delivered rows are backed

  ghost predicate DeliveredAs(L: Ledger, id: Id, messageId: string) {
    id in L.entries && L.entries[id].row.state == Delivered && L.entries[id].row.providerMessageId == messageId
  }

  ghost predicate HasAcceptedCall(calls: seq<Call>, id: Id, messageId: string) {
    exists k: nat :: k < |calls| && calls[k].id == id && SentAs(calls[k], messageId)
  }

  /** A delivered row was one before the run, or Telegram accepted a call made for it as the message it names. */
  ghost predicate DeliveredInv(first: Ledger, s: System) {
    forall id, messageId :: DeliveredAs(s.ledger, id, messageId) ==>
      DeliveredAs(first, id, messageId) || HasAcceptedCall(s.calls, id, messageId)
  }

  lemma AcceptedCallStays(calls: seq<Call>, later: seq<Call>, id: Id, messageId: string)
    requires HasAcceptedCall(calls, id, messageId) && CallsGrow(calls, later)
    ensures HasAcceptedCall(later, id, messageId)
  {
    var k: nat :| k < |calls| && calls[k].id == id && SentAs(calls[k], messageId);
    assert later[k].id == id && SentAs(later[k], messageId);
  }

  lemma DeliveredStays(first: Ledger, s: System, t: System)
    requires DeliveredInv(first, s) && CallsGrow(s.calls, t.calls)
    requires forall id, messageId :: DeliveredAs(t.ledger, id, messageId) ==>
               DeliveredAs(s.ledger, id, messageId) || HasAcceptedCall(t.calls, id, messageId)
    ensures DeliveredInv(first, t)
  {
    forall id, messageId | DeliveredAs(t.ledger, id, messageId) && !DeliveredAs(first, id, messageId)
      ensures HasAcceptedCall(t.calls, id, messageId)
    {
      if !HasAcceptedCall(t.calls, id, messageId) {
        AcceptedCallStays(s.calls, t.calls, id, messageId);
      }
    }
  }

  lemma DeliveredAfterBegin(first: Ledger, s: System, h: nat, sinceNs: int, nowNs: int, io: Io, gated: bool)
    requires LedgerInv(s) && DeliveredInv(first, s) && h in s.handlers && s.clockNs <= nowNs
    ensures DeliveredInv(first, DoBegin(s, h, sinceNs, nowNs, io, gated))
  {
    var t := DoBegin(s, h, sinceNs, nowNs, io, gated);
    MoveOfBegin(s, h, sinceNs, nowNs, io, gated);
    BeginEvolves(s, h, sinceNs, nowNs, io, gated);
    forall id, messageId | DeliveredAs(t.ledger, id, messageId) ensures DeliveredAs(s.ledger, id, messageId) {
      BeginTransitions(s.ledger, s.handlers[h].request, sinceNs, Ms(nowNs), id);
      assert id in s.ledger.entries && EntryGrows(s.ledger.entries[id], t.ledger.entries[id]);
    }
    DeliveredStays(first, s, t);
  }

  lemma DeliveredAfterUpdate(first: Ledger, s: System, h: nat, id: Id, call: Option<nat>, c: Completion,
                             notBeforeNs: int, nowNs: int, io: Io)
    requires LedgerInv(s) && DeliveredInv(first, s) && At(s, h)
    requires Holds(s.ledger, s.handlers[h].request, id) && Normalize(c).Some?
    requires c.state == Delivered ==> HasAcceptedCall(s.calls, id, Normalize(c).value.providerMessageId)
    ensures DeliveredInv(first, DoUpdate(s, h, id, call, c, notBeforeNs, nowNs, io))
  {
    var t := DoUpdate(s, h, id, call, c, notBeforeNs, nowNs, io);
    var r := s.handlers[h].request;
    MoveOfUpdate(s, h, id, call, c, notBeforeNs, nowNs, io);
    UpdateOutcome(s.ledger, r, id, c, Ms(nowNs));
    forall j, messageId | DeliveredAs(t.ledger, j, messageId) && !DeliveredAs(s.ledger, j, messageId)
      ensures HasAcceptedCall(t.calls, j, messageId)
    {
      UpdateKeepsIdentity(s.ledger, id, LogicalDigest(r), c, Ms(nowNs), j);
    }
    DeliveredStays(first, s, t);
  }

  lemma DeliveredAfterPersist(first: Ledger, s: System, h: nat, nowNs: int, io: Io)
    requires CoreInv(s) && DeliveredInv(first, s) && CanMove(s, h, Persist(nowNs, io))
    ensures DeliveredInv(first, DoMove(s, h, Persist(nowNs, io)))
  {
    var pc := s.handlers[h].pc;
    assert HandlerOk(s.ledger, s.calls, s.clockNs, s.handlers[h]);
    DeliveredAfterUpdate(first, s, h, pc.id, Some(pc.call), CompletionOf(pc.result, Ms(pc.notBeforeNs)),
                         pc.notBeforeNs, nowNs, io);
  }

  lemma DeliveredAfterRefusal(first: Ledger, s: System, h: nat, nowNs: int, io: Io)
    requires CoreInv(s) && DeliveredInv(first, s) && CanMove(s, h, PersistRefusal(nowNs, io))
    ensures DeliveredInv(first, DoMove(s, h, PersistRefusal(nowNs, io)))
  {
    var c := MoveOfRefusal(s, h, nowNs, io);
    DeliveredAfterUpdate(first, s, h, s.handlers[h].pc.id, None, c, 0, nowNs, io);
  }

  lemma DeliveredMove(first: Ledger, s: System, h: nat, move: Move)
    requires CoreInv(s) && DeliveredInv(first, s) && CanMove(s, h, move)
    ensures DeliveredInv(first, DoMove(s, h, move))
  {
    match move
    case ReplayBegin(sinceNs, nowNs, io) => DeliveredAfterBegin(first, s, h, sinceNs, nowNs, io, false);
    case GatedBegin(sinceNs, nowNs, io) => DeliveredAfterBegin(first, s, h, sinceNs, nowNs, io, true);
    case PersistRefusal(nowNs, io) => DeliveredAfterRefusal(first, s, h, nowNs, io);
    case Persist(nowNs, io) => DeliveredAfterPersist(first, s, h, nowNs, io);
    case Dispatch =>
      MoveOfDispatch(s, h);
      DeliveredStays(first, s, DoMove(s, h, move));
    case Respond =>
    case _ => MoveOfSilent(s, h, move);
  }

  lemma DeliveredStep(first: Ledger, s: System, a: Action)
    requires CoreInv(s) && DeliveredInv(first, s)
    ensures DeliveredInv(first, Step(s, a))
  {
    if Enabled(s, a) {
      match a
      case Handle(h, move) => DeliveredMove(first, s, h, move);
      case _ => DeliveredStays(first, s, Do(s, a));
    }
  }
}
