/** What a request is told, or goes on to do, when it has entered the store inside the gate: every case. */
module GateTheorems {
  import opened Prelude
  import opened Wire
  import opened DeliveryLedger
  import opened LedgerLaws
  import opened TransactionLaws
  import opened Adapter
  import opened AdapterInvariants

  const UNAVAILABLE := DeliveryResponse(StatusRetryableError, "", "delivery store unavailable")

  const IN_CONFLICT := DeliveryResponse(StatusNonRetryableError, "", "delivery identity conflict")

  /** An attempt may start: for a delivery that is new or up for retry, outside the cooldown. */
  predicate MaySend(L: Ledger, k: Keys, nowMs: int)
    requires Consistent(L)
  {
    var verdict := Judge(L, k);
    && L.cooldownMs <= nowMs
    && (verdict.Absent? || (verdict.Canonical? && verdict.id in L.entries && L.entries[verdict.id].row.state == Retryable))
  }

  /** The delivery a request that is not refused is about. */
  function Subject(L: Ledger, r: DeliveryRequest): Id
    requires Consistent(L)
  {
    match Judge(L, KeysOf(r))
    case Canonical(id) => id
    case _ => r.deliveryId
  }

  lemma SubjectOfBegin(L: Ledger, r: DeliveryRequest, sinceNs: int, nowMs: int)
    requires Consistent(L) && 0 <= nowMs
    ensures var (M, result) := Begin(L, KeysOf(r), true, sinceNs, nowMs);
      && (result.Conflict? <==> Judge(L, KeysOf(r)) == Refused)
      && (result.Answer? ==>
            && result.record.deliveryId == Subject(L, r) && result.record.deliveryId in M.entries
            && (result.shouldSend <==> MaySend(L, KeysOf(r), nowMs)))
  {
    BeginAnswersItsOwn(L, KeysOf(r), true, sinceNs, nowMs);
    WhenBeginSends(L, KeysOf(r), true, sinceNs, nowMs);
    match Judge(L, KeysOf(r))
    case Canonical(id) => ResumeKeepsOwners(Adopt(L, id, KeysOf(r)), id, true, sinceNs, nowMs);
    case _ =>
  }

  /**
   A request in the gate is told that the store is unavailable exactly when it is, is
   refused exactly when it conflicts, claims its delivery exactly when an attempt may
   start, and is otherwise answered with the record Begin reports.
   */
  lemma GatedBeginIsExact(s: System, h: nat, sinceNs: int, nowNs: int, io: Io)
    requires CoreInv(s) && CanMove(s, h, GatedBegin(sinceNs, nowNs, io))
    ensures var (t, r) := (DoMove(s, h, GatedBegin(sinceNs, nowNs, io)), s.handlers[h].request);
      var (M, result) := Begin(s.ledger, KeysOf(r), true, sinceNs, Ms(nowNs));
      && h in t.handlers && t.ledger == (if io == FailsBefore then s.ledger else M)
      && t.handlers[h].pc ==
         (if io == FailsBefore then Replying(Outgoing(UNAVAILABLE, NoAnswer), true)
          else if Judge(s.ledger, KeysOf(r)) == Refused then Replying(Outgoing(IN_CONFLICT, ConflictVerdict), true)
          else if io == FailsAfter then Replying(Outgoing(UNAVAILABLE, NoAnswer), true)
          else if MaySend(s.ledger, KeysOf(r), Ms(nowNs)) then Claimed(Subject(s.ledger, r))
          else if result.Answer? then Replying(FromRecord(result.record), true)
          else AtBegin)
  {
    MoveOfBegin(s, h, sinceNs, nowNs, io, true);
    SubjectOfBegin(s.ledger, s.handlers[h].request, sinceNs, Ms(nowNs));
  }

  /** The other ways a request comes to an answer, or to the gate. */
  lemma WaysOutAreExact(s: System, h: nat)
    requires Consistent(s.ledger)
    ensures CanMove(s, h, ReadFails) ==> DoMove(s, h, ReadFails) == Goto(s, h, Replying(Outgoing(UNAVAILABLE, NoAnswer), false))
    ensures CanMove(s, h, Cancel) ==>
              DoMove(s, h, Cancel) ==
              Goto(s, h, Replying(Outgoing(DeliveryResponse(StatusRetryableError, "", "delivery request canceled"), NoAnswer), false))
    ensures CanMove(s, h, EnterGate) ==>
              s.gate.None? && DoMove(s, h, EnterGate) == Goto(s, h, AtBegin).(gate := Some(h))
  {
  }

  /** An answer is what the request came to, it ends the request, and it opens the gate if the request held it. */
  lemma RespondIsExact(s: System, h: nat)
    requires CoreInv(s) && CanMove(s, h, Respond)
    ensures var t := DoMove(s, h, Respond);
      && t.log == s.log + [Responded(s.handlers[h].request, s.handlers[h].pc.out)]
      && t.handlers == s.handlers - {h} && t.ledger == s.ledger && t.calls == s.calls
      && t.gate == (if s.gate == Some(h) then None else s.gate)
  {
    assert GateInv(s);
  }
}
