/** What holds in every run of the adapter: concurrent requests, failed commits, crashes and reopenings included. */
module AdapterTheorems {
  import opened Prelude
  import opened Wire
  import opened DeliveryLedger
  import opened LedgerLaws
  import opened InspectionLaws
  import opened TelegramClient
  import opened Adapter
  import opened AdapterInvariants
  import opened AdapterSafety
  import opened AdapterHistory
  import opened AdapterAnswers
  import opened AdapterRuns

  // ---------------------------------------------------------------- at most once

  predicate AcceptedCall(s: System, k: nat) {
    k < |s.calls| && s.calls[k].status.Accepted?
  }

  /** A delivery that is settled gets no further call, whatever happens. */
  lemma {:induction false} NoCallForTheSettled(s: System, acts: seq<Action>, id: Id, k: nat)
    requires CoreInv(s) && id in s.ledger.entries && s.ledger.entries[id].row.state.Terminal()
    requires |s.calls| <= k < |Run(s, acts).calls|
    ensures Run(s, acts).calls[k].id != id
    decreases |acts|
  {
    if acts == [] {
    } else {
      var t := Step(s, acts[0]);
      CoreStep(s, acts[0]);
      LedgerStep(s, acts[0]);
      StartsOfStep(s, acts[0]);
      assert EntryGrows(s.ledger.entries[id], t.ledger.entries[id]);
      if k < |t.calls| {
        RunGrows(t, acts[1..]);
      } else {
        NoCallForTheSettled(t, acts[1..], id, k);
      }
    }
  }

  lemma BeforeOpening(s: System, a: Action, id: Id)
    requires CoreInv(s) && !s.up && id in s.ledger.entries && s.ledger.entries[id].row.state != Retryable
    ensures var t := Step(s, a);
      && |t.calls| == |s.calls| && id in t.ledger.entries
      && (t.ledger.entries[id].row.state.Terminal() || (!t.up && t.ledger.entries[id].row.state != Retryable))
  {
    StartsOfStep(s, a);
  }

  /** Of the deliveries a database held when it was opened, only the retryable ones are ever sent. */
  lemma {:induction false} OnlyRetryableRowsAreSent(s: System, acts: seq<Action>, id: Id, k: nat)
    requires CoreInv(s) && !s.up && id in s.ledger.entries && s.ledger.entries[id].row.state != Retryable
    requires |s.calls| <= k < |Run(s, acts).calls|
    ensures Run(s, acts).calls[k].id != id
    decreases |acts|
  {
    if s.ledger.entries[id].row.state.Terminal() {
      NoCallForTheSettled(s, acts, id, k);
    } else if acts == [] {
    } else {
      var t := Step(s, acts[0]);
      CoreStep(s, acts[0]);
      BeforeOpening(s, acts[0], id);
      if t.ledger.entries[id].row.state.Terminal() {
        NoCallForTheSettled(t, acts[1..], id, k);
      } else {
        OnlyRetryableRowsAreSent(t, acts[1..], id, k);
      }
    }
  }

  /** Whatever the opened database knew of `x`, a delivery now owns it that was then up for retry. */
  ghost predicate WasRetryable(L: Ledger, x: Id, id: Id) {
    x in L.owner ==> L.owner[x] == id && id in L.entries && L.entries[id].row.state == Retryable
  }

  /**
   Telegram never accepts one delivery twice.  An accepted call is the only one of
   its record, and no other accepted call's request shares its stable ID or its
   delivery ID; and neither of these belonged to anything but a retryable delivery
   when the database was opened, so nothing that had settled by then is sent again.
   */
  lemma AtMostOnce(s: System, acts: seq<Action>, k: nat)
    requires Init(s) && AcceptedCall(Run(s, acts), k)
    ensures var t := Run(s, acts);
      var (id, r) := (t.calls[k].id, t.calls[k].request);
      && WasRetryable(s.ledger, id, id)
      && WasRetryable(s.ledger, r.idempotencyId, id) && WasRetryable(s.ledger, r.deliveryId, id)
      && forall j: nat :: j != k && AcceptedCall(t, j) ==>
           && t.calls[j].id != id
           && t.calls[j].request.idempotencyId != r.idempotencyId
           && t.calls[j].request.deliveryId != r.deliveryId
  {
    ReachableInv(s, acts);
    var t := Run(s, acts);
    var (id, r) := (t.calls[k].id, t.calls[k].request);
    assert Hot(t, k) && Settled(t.ledger, r, id);
    forall j: nat | j != k && AcceptedCall(t, j)
      ensures t.calls[j].id != id && t.calls[j].request.idempotencyId != r.idempotencyId
      ensures t.calls[j].request.deliveryId != r.deliveryId
    {
      assert Hot(t, j) && Settled(t.ledger, t.calls[j].request, t.calls[j].id);
    }
    OwnersWereRetryable(s, acts, k);
  }

  lemma OwnersWereRetryable(s: System, acts: seq<Action>, k: nat)
    requires Init(s) && AcceptedCall(Run(s, acts), k)
    ensures var (id, r) := (Run(s, acts).calls[k].id, Run(s, acts).calls[k].request);
      && WasRetryable(s.ledger, id, id)
      && WasRetryable(s.ledger, r.idempotencyId, id) && WasRetryable(s.ledger, r.deliveryId, id)
  {
    InitInv(s);
    ReachableInv(s, acts);
    var t := Run(s, acts);
    var (id, r) := (t.calls[k].id, t.calls[k].request);
    assert Settled(t.ledger, r, id) && EntryOk(t.ledger, id);
    if id in s.ledger.entries && s.ledger.entries[id].row.state != Retryable {
      OnlyRetryableRowsAreSent(s, acts, id, k);
    }
  }

  /** A delivery that is still up for retry, or was given up, was accepted by no call. */
  lemma RetryableWasNotAccepted(s: System, acts: seq<Action>, k: nat)
    requires Init(s) && AcceptedCall(Run(s, acts), k)
    ensures var t := Run(s, acts);
      && t.calls[k].id in t.ledger.entries
      && t.ledger.entries[t.calls[k].id].row.state in {Sending, Delivered, Unknown}
  {
    ReachableInv(s, acts);
    var t := Run(s, acts);
    assert Hot(t, k) && Settled(t.ledger, t.calls[k].request, t.calls[k].id);
  }

  /** A persisted result tells what became of its call: delivered means accepted, retryable or permanent that it never is. */
  lemma RecordedOutcomesAreTrue(s: System, acts: seq<Action>, more: seq<Action>, j: nat)
    requires Init(s)
    requires var t := Run(s, acts); j < |t.log| && t.log[j].Completed? && t.log[j].sent.Some?
    ensures var (t, u, call) := (Run(s, acts), Run(s, acts + more), Run(s, acts).log[j].sent.value);
      && t.log <= u.log
      && call < |u.calls| && u.calls[call].id == t.log[j].id
      && (t.log[j].state == Delivered ==> AcceptedCall(u, call))
      && (t.log[j].state == Retryable || t.log[j].state == Permanent ==> !AcceptedCall(u, call))
  {
    ReachableInv(s, acts);
    ReachableInv(s, acts + more);
    RunOfConcat(s, acts, more);
    RunGrows(Run(s, acts), more);
    assert OutcomeTrue(Run(s, acts + more), Run(s, acts + more).log[j]);
  }

  // ---------------------------------------------------------------- the gate

  /** Two handlers are never past the gate together. */
  lemma GateIsExclusive(s: System, acts: seq<Action>, g: nat, h: nat)
    requires Init(s)
    requires var t := Run(s, acts);
      g in t.handlers && h in t.handlers && HoldsGate(t.handlers[g].pc) && HoldsGate(t.handlers[h].pc)
    ensures g == h
  {
    ReachableInv(s, acts);
  }

  ghost predicate IsRecorded(L: Ledger, id: Id, r: DeliveryRequest, c: Completion, nowMs: int) {
    Update(L, id, LogicalDigest(r), c, nowMs).1.Recorded?
  }

  /** Whoever has a result to persist is still entitled to: only the store itself can fail it. */
  lemma PersistIsNeverRefused(s: System, acts: seq<Action>, h: nat, nowMs: int)
    requires Init(s) && h in Run(s, acts).handlers && Run(s, acts).handlers[h].pc.Persisting?
    ensures var t := Run(s, acts);
      var (r, pc) := (t.handlers[h].request, t.handlers[h].pc);
      IsRecorded(t.ledger, pc.id, r, CompletionOf(pc.result, Ms(pc.notBeforeNs)), nowMs)
  {
    ReachableInv(s, acts);
    var t := Run(s, acts);
    var (r, pc) := (t.handlers[h].request, t.handlers[h].pc);
    assert HandlerOk(t.ledger, t.calls, t.clockNs, t.handlers[h]);
    UpdateOutcome(t.ledger, r, pc.id, CompletionOf(pc.result, Ms(pc.notBeforeNs)), nowMs);
  }

  /** The same for whoever gives up a delivery because its route does not match. */
  lemma MismatchIsNeverRefused(s: System, acts: seq<Action>, h: nat, nowMs: int)
    requires Init(s) && h in Run(s, acts).handlers && Run(s, acts).handlers[h].pc.Refusing?
    ensures var t := Run(s, acts);
      IsRecorded(t.ledger, t.handlers[h].pc.id, t.handlers[h].request, ROUTING_MISMATCH, nowMs)
  {
    ReachableInv(s, acts);
    var t := Run(s, acts);
    assert HandlerOk(t.ledger, t.calls, t.clockNs, t.handlers[h]);
    RefusalIsStorable();
    UpdateOutcome(t.ledger, t.handlers[h].request, t.handlers[h].pc.id, ROUTING_MISMATCH, nowMs);
  }

  /** Replaying a terminal outcome, outside the gate, claims nothing and changes no outcome. */
  lemma ReplayClaimsNothing(s: System, acts: seq<Action>, h: nat, sinceNs: int, nowMs: int)
    requires Init(s) && h in Run(s, acts).handlers && Run(s, acts).handlers[h].pc.ReplayingTerminal?
    ensures var t := Run(s, acts);
      var (M, result) := Begin(t.ledger, KeysOf(t.handlers[h].request), true, sinceNs, nowMs);
      && RowsKept(t.ledger, M)
      && (result.Answer? ==> !result.shouldSend && result.record.deliveryId == t.handlers[h].pc.id)
  {
    ReachableInv(s, acts);
    var t := Run(s, acts);
    var (r, id) := (t.handlers[h].request, t.handlers[h].pc.id);
    assert HandlerOk(t.ledger, t.calls, t.clockNs, t.handlers[h]);
    TerminalIsReplayed(t.ledger, KeysOf(r), id, true, sinceNs, nowMs);
    ReplayKeepsRows(t.ledger, r, id, sinceNs, nowMs);
  }

  // ---------------------------------------------------------------- claims

  /** Provider calls of one delivery are covered by claims, and claims by one plus the retryable results. */
  lemma ClaimsAreAccountedFor(s: System, acts: seq<Action>, id: Id)
    requires Init(s)
    ensures var t := Run(s, acts);
      && CallsFor(t.calls, id) <= Claims(t.log, id) <= 1 + Retries(t.log, id)
      && (id in t.ledger.entries && t.ledger.entries[id].row.state == Retryable ==>
            Claims(t.log, id) == Retries(t.log, id))
      && (id in t.ledger.entries && IsCreated(t.log, id) && t.ledger.entries[id].row.state != Retryable ==>
            Claims(t.log, id) == Retries(t.log, id) + 1)
  {
    ReachableInv(s, acts);
    assert AccountOk(Run(s, acts), id);
  }

  // ---------------------------------------------------------------- answers

  /**
   After an answer from a terminal row, the same request is answered identically
   for ever, unless the store fails or its caller leaves; the same logical request
   under another delivery ID too, unless that ID is another delivery's.
   */
  lemma FinalAnswersAreFinal(s: System, acts: seq<Action>, a: nat, b: nat)
    requires Init(s)
    requires var log := Run(s, acts).log;
      && a < b < |log| && log[a].Responded? && log[b].Responded?
      && log[a].out.basis.StoredOutcome? && log[b].out.basis != NoAnswer
      && LogicalDigest(log[b].request) == LogicalDigest(log[a].request)
    ensures var t := Run(s, acts);
      var (first, later) := (t.log[a], t.log[b]);
      && (later.request == first.request ==> later.out.response == first.out.response)
      && (later.out.response != first.out.response ==> TakenElsewhere(t.ledger, later.request, first.out.basis.id))
  {
    ReachableInv(s, acts);
    var t := Run(s, acts);
    assert Agrees(t.ledger, t.log[a], t.log[b]);
    assert OutgoingOk(t.ledger, t.log[a].request, t.log[a].out, false);
  }

  lemma {:induction false} DeliveredRowsAreBacked(first: Ledger, s: System, acts: seq<Action>)
    requires Inv(s) && DeliveredInv(first, s)
    ensures DeliveredInv(first, Run(s, acts))
    decreases |acts|
  {
    if acts == [] {
    } else {
      StepKeepsInv(s, acts[0]);
      DeliveredStep(first, s, acts[0]);
      DeliveredRowsAreBacked(first, Step(s, acts[0]), acts[1..]);
    }
  }

  /** Telegram accepted a message for this very logical delivery, whatever delivery ID it came under. */
  ghost predicate AcceptedFor(t: System, r: DeliveryRequest) {
    exists k: nat :: AcceptedCall(t, k) && LogicalDigest(t.calls[k].request) == LogicalDigest(r)
  }

  /** The same, and this is the message it became. */
  ghost predicate AcceptedAs(t: System, r: DeliveryRequest, messageId: string) {
    exists k: nat ::
      && AcceptedCall(t, k) && LogicalDigest(t.calls[k].request) == LogicalDigest(r)
      && SentAs(t.calls[k], messageId)
  }

  /**
   Orka is told the truth.  "Delivered" means that Telegram accepted a message for
   the same logical delivery, and gives the ID of that very message, unless the
   database already recorded both when the run began; "not retryable" means that
   the identity conflicts, that the outcome is unknown, or that the delivery was
   given up, and then no call for it was accepted.
   */
  lemma AnswersAreTrue(s: System, acts: seq<Action>, j: nat)
    requires Init(s)
    requires var t := Run(s, acts); j < |t.log| && t.log[j].Responded?
    ensures var t := Run(s, acts);
      var (r, out) := (t.log[j].request, t.log[j].out);
      && (out.response.status == StatusDelivered ==>
            && out.basis.StoredOutcome?
            && (DeliveredAs(s.ledger, out.basis.id, out.response.providerMessageId)
                || AcceptedAs(t, r, out.response.providerMessageId)))
      && (out.response.status == StatusNonRetryableError ==>
            match out.basis
            case StoredOutcome(id) =>
              && id in t.ledger.entries && t.ledger.entries[id].row.state in {Permanent, Unknown}
              && (t.ledger.entries[id].row.state == Permanent ==> !AcceptedFor(t, r))
            case basis => basis == ConflictVerdict && out.response == IDENTITY_CONFLICT)
  {
    InitInv(s);
    ReachableInv(s, acts);
    DeliveredRowsAreBacked(s.ledger, s, acts);
    var t := Run(s, acts);
    var (r, out) := (t.log[j].request, t.log[j].out);
    if out.basis.StoredOutcome? {
      var id := out.basis.id;
      assert Settled(t.ledger, r, id) && out.response == Replay(t.ledger.entries[id].row);
      if out.response.status == StatusDelivered {
        assert DeliveredAs(t.ledger, id, out.response.providerMessageId);
        if HasAcceptedCall(t.calls, id, out.response.providerMessageId) {
          AcceptedCallIsForIt(t, r, id, out.response.providerMessageId);
        }
      } else if AcceptedFor(t, r) {
        AcceptedIsHot(t, r, id);
      }
    }
  }

  lemma AcceptedCallIsForIt(t: System, r: DeliveryRequest, id: Id, messageId: string)
    requires CallsInv(t) && Settled(t.ledger, r, id) && HasAcceptedCall(t.calls, id, messageId)
    ensures AcceptedAs(t, r, messageId)
  {
    var k: nat :| k < |t.calls| && t.calls[k].id == id && SentAs(t.calls[k], messageId);
    assert Settled(t.ledger, t.calls[k].request, id) && AcceptedCall(t, k);
  }

  lemma AcceptedIsHot(t: System, r: DeliveryRequest, id: Id)
    requires CallsInv(t) && Settled(t.ledger, r, id) && AcceptedFor(t, r)
    ensures HotState(t.ledger.entries[id].row.state)
  {
    var k: nat :| AcceptedCall(t, k) && LogicalDigest(t.calls[k].request) == LogicalDigest(r);
    assert Settled(t.ledger, t.calls[k].request, t.calls[k].id) && Hot(t, k);
    assert t.calls[k].request.idempotencyId == r.idempotencyId;
  }

  /** Verdicts survive any continuation of a run, restarts included. */
  lemma VerdictsArePermanent(s: System, acts: seq<Action>, more: seq<Action>, r: DeliveryRequest)
    requires Init(s)
    ensures var (t, u) := (Run(s, acts), Run(s, acts + more));
      && (Judge(t.ledger, KeysOf(r)) == Refused ==> Judge(u.ledger, KeysOf(r)) == Refused)
      && forall id :: Settled(t.ledger, r, id) ==> Judge(u.ledger, KeysOf(r)) == Canonical(id)
  {
    var (t, u) := (Run(s, acts), Run(s, acts + more));
    RunOfConcat(s, acts, more);
    if Judge(t.ledger, KeysOf(r)) == Refused {
      RefusalIsPermanent(t.ledger, u.ledger, r);
    }
  }

  // ---------------------------------------------------------------- the ledger, and progress

  /**
   In every reachable state the tables refine one map from identities to canonical
   deliveries, and every row keeps its promises: a retry time only on a retryable
   row and never past the cooldown, a provider message ID only on a delivered one,
   a message on every unknown one.
   */
  lemma RowsStayWellFormed(s: System, acts: seq<Action>, id: Id)
    requires Init(s) && id in Run(s, acts).ledger.entries
    ensures var L := Run(s, acts).ledger;
      && Consistent(L) && RowOk(L.entries[id].row, L.cooldownMs)
      && id in L.owner && L.owner[id] == id
      && (L.entries[id].registered.Some? ==>
            var key := L.entries[id].registered.value.idempotencyId;
            && key in L.owner && L.owner[key] == id
            && forall other :: other in L.entries && L.entries[other].registered.Some? ==>
                 L.entries[other].registered.value.idempotencyId == key ==> other == id)
  {
    ReachableInv(s, acts);
    var L := Run(s, acts).ledger;
    assert EntryOk(L, id);
    forall other | other in L.entries && L.entries[other].registered.Some? ensures EntryOk(L, other) {
    }
  }

  ghost predicate Movable(s: System, h: nat) {
    exists move :: CanMove(s, h, move)
  }

  lemma PastTheGateIsMovable(s: System, h: nat)
    requires CoreInv(s) && At(s, h) && HoldsGate(s.handlers[h].pc)
    ensures Movable(s, h)
  {
    var pc := s.handlers[h].pc;
    assert HandlerOk(s.ledger, s.calls, s.clockNs, s.handlers[h]);
    if pc.AtBegin? { assert CanMove(s, h, GatedBegin(s.clockNs, s.clockNs, Commits)); }
    if pc.Claimed? { assert CanMove(s, h, Dispatch); }
    if pc.Refusing? { assert CanMove(s, h, PersistRefusal(s.clockNs, Commits)); }
    if pc.Calling? { assert CanMove(s, h, Return(TransportFailed(true, ""), s.clockNs)); }
    if pc.Persisting? { assert CanMove(s, h, Persist(s.clockNs, Commits)); }
    if pc.Replying? { assert CanMove(s, h, Respond); }
  }

  /** No deadlock: a request can go on by itself, and one that waits at the gate waits for one that can. */
  lemma NoRequestIsStuck(s: System, acts: seq<Action>, h: nat)
    requires Init(s) && h in Run(s, acts).handlers
    ensures var t := Run(s, acts);
      && Movable(t, h)
      && (t.handlers[h].pc.AtGate? && !CanMove(t, h, EnterGate) ==>
            t.gate.Some? && t.gate.value != h && Movable(t, t.gate.value))
  {
    ReachableInv(s, acts);
    var t := Run(s, acts);
    var pc := t.handlers[h].pc;
    if HoldsGate(pc) {
      PastTheGateIsMovable(t, h);
    } else if pc.Inspecting? {
      assert CanMove(t, h, ReadFails);
    } else if pc.ReplayingTerminal? {
      assert CanMove(t, h, ReplayBegin(t.clockNs, t.clockNs, Commits));
    } else if pc.AtGate? {
      assert CanMove(t, h, Cancel);
      if t.gate.Some? { PastTheGateIsMovable(t, t.gate.value); }
    } else {
      assert CanMove(t, h, Respond);
    }
  }
}
