/**
 Attempts nobody is carrying out any more, because a result could not be persisted
 or the adapter crashed: what ends them, and that nothing else does.
 */
module LeaseTheorems {
  import opened Prelude
  import opened Wire
  import opened DeliveryLedger
  import opened LedgerLaws
  import opened TransactionLaws
  import opened TelegramClient
  import opened Adapter
  import opened AdapterInvariants
  import opened AdapterRuns

  /** The request is in the middle of an attempt for `id`. */
  predicate Attempts(pc: Pc, id: Id) {
    (pc.Claimed? || pc.Refusing? || pc.Calling? || pc.Persisting?) && pc.id == id
  }

  /** A delivery that is being sent, by no request. */
  ghost predicate Orphan(s: System, id: Id) {
    && id in s.ledger.entries && s.ledger.entries[id].row.state == Sending
    && forall h :: h in s.handlers ==> !Attempts(s.handlers[h].pc, id)
  }

  /** The same delivery, still in flight, still nobody's. */
  ghost predicate StillOrphan(s: System, t: System, id: Id)
    requires id in s.ledger.entries
  {
    Orphan(t, id) && t.ledger.entries[id].row == s.ledger.entries[id].row
  }

  /** A request for the delivery enters the store inside the gate, two minutes or more into the attempt. */
  ghost predicate EndsLease(s: System, a: Action, id: Id)
    requires Consistent(s.ledger) && id in s.ledger.entries
  {
    && a.Handle? && a.move.GatedBegin? && CanMove(s, a.h, a.move) && a.move.io != FailsBefore
    && Judge(s.ledger, KeysOf(s.handlers[a.h].request)) == Canonical(id)
    && Stale(s.ledger.entries[id].row, a.move.sinceNs)
  }

  // ---------------------------------------------------------------- one step

  lemma OneHandlerMoved(s: System, t: System, h: nat, id: Id)
    requires Orphan(s, id) && h in t.handlers && h in s.handlers && t.handlers == s.handlers[h := t.handlers[h]]
    requires id in t.ledger.entries && t.ledger.entries[id].row == s.ledger.entries[id].row
    requires !Attempts(t.handlers[h].pc, id)
    ensures StillOrphan(s, t, id)
  {
  }

  /** What a Begin does to the row of a delivery in flight, whichever delivery it is about. */
  lemma BeginSparesOrphan(L: Ledger, k: Keys, sinceNs: int, nowMs: int, id: Id)
    requires Consistent(L) && id in L.entries && L.entries[id].row.state == Sending
    ensures var (M, result) := Begin(L, k, true, sinceNs, nowMs);
      && id in M.entries
      && M.entries[id].row == (if Judge(L, k) == Canonical(id) && Stale(L.entries[id].row, sinceNs)
                               then UnknownRow(L.entries[id].row, nowMs) else L.entries[id].row)
      && (result.Answer? && result.shouldSend ==> result.record.deliveryId != id)
  {
    BeginAnswersItsOwn(L, k, true, sinceNs, nowMs);
    match Judge(L, k)
    case Refused =>
    case Absent => InsertIsNew(L, k);
    case Canonical(j) =>
      if j == id {
        BeginOnSending(L, k, true, sinceNs, nowMs, id);
      } else {
        OthersResume(L, k, sinceNs, nowMs, j);
      }
  }

  lemma OthersResume(L: Ledger, k: Keys, sinceNs: int, nowMs: int, id: Id)
    requires Consistent(L) && Judge(L, k) == Canonical(id) && id in L.entries
    ensures var result := Begin(L, k, true, sinceNs, nowMs).1; result.Answer? && result.record.deliveryId == id
  {
    ResumeKeepsOwners(Adopt(L, id, k), id, true, sinceNs, nowMs);
  }

  lemma OrphanAfterGatedBegin(s: System, h: nat, sinceNs: int, nowNs: int, io: Io, id: Id)
    requires CoreInv(s) && Orphan(s, id) && CanMove(s, h, GatedBegin(sinceNs, nowNs, io))
    ensures var t := DoBegin(s, h, sinceNs, nowNs, io, true);
      && id in t.ledger.entries
      && (if EndsLease(s, Handle(h, GatedBegin(sinceNs, nowNs, io)), id)
          then t.ledger.entries[id].row == UnknownRow(s.ledger.entries[id].row, Ms(nowNs))
          else StillOrphan(s, t, id))
  {
    var t := DoBegin(s, h, sinceNs, nowNs, io, true);
    var k := KeysOf(s.handlers[h].request);
    MoveOfBegin(s, h, sinceNs, nowNs, io, true);
    BeginSparesOrphan(s.ledger, k, sinceNs, Ms(nowNs), id);
    assert t.handlers[h].pc == AfterGatedBegin(io, Begin(s.ledger, k, true, sinceNs, Ms(nowNs)).1);
    if !EndsLease(s, Handle(h, GatedBegin(sinceNs, nowNs, io)), id) {
      OneHandlerMoved(s, t, h, id);
    }
  }

  lemma OrphanAfterReplay(s: System, h: nat, sinceNs: int, nowNs: int, io: Io, id: Id)
    requires CoreInv(s) && Orphan(s, id) && CanMove(s, h, ReplayBegin(sinceNs, nowNs, io))
    ensures StillOrphan(s, DoBegin(s, h, sinceNs, nowNs, io, false), id)
  {
    var t := DoBegin(s, h, sinceNs, nowNs, io, false);
    var k := KeysOf(s.handlers[h].request);
    assert Judge(s.ledger, k) != Canonical(id) by {
      assert HandlerOk(s.ledger, s.calls, s.clockNs, s.handlers[h]);
    }
    MoveOfBegin(s, h, sinceNs, nowNs, io, false);
    BeginSparesOrphan(s.ledger, k, sinceNs, Ms(nowNs), id);
    OneHandlerMoved(s, t, h, id);
  }

  lemma OrphanAfterUpdate(s: System, h: nat, other: Id, call: Option<nat>, c: Completion, notBeforeNs: int,
                          nowNs: int, io: Io, id: Id)
    requires Orphan(s, id) && h in s.handlers && other != id
    ensures StillOrphan(s, DoUpdate(s, h, other, call, c, notBeforeNs, nowNs, io), id)
  {
    MoveOfUpdate(s, h, other, call, c, notBeforeNs, nowNs, io);
    UpdateKeepsIdentity(s.ledger, other, LogicalDigest(s.handlers[h].request), c, Ms(nowNs), id);
    OneHandlerMoved(s, DoUpdate(s, h, other, call, c, notBeforeNs, nowNs, io), h, id);
  }

  lemma OrphanAfterSilent(s: System, h: nat, move: Move, id: Id)
    requires CoreInv(s) && Orphan(s, id) && CanMove(s, h, move) && Silent(move)
    ensures StillOrphan(s, DoMove(s, h, move), id)
  {
    MoveOfSilent(s, h, move);
    if move.Return? {
      MoveOfReturn(s, h, move.x, move.nowNs);
    }
    OneHandlerMoved(s, DoMove(s, h, move), h, id);
  }

  lemma OrphanAfterDispatch(s: System, h: nat, id: Id)
    requires CoreInv(s) && Orphan(s, id) && CanMove(s, h, Dispatch)
    ensures StillOrphan(s, DoDispatch(s, h), id)
  {
    MoveOfDispatch(s, h);
    OneHandlerMoved(s, DoDispatch(s, h), h, id);
  }

  lemma OrphanMove(s: System, h: nat, move: Move, id: Id)
    requires CoreInv(s) && Orphan(s, id) && CanMove(s, h, move) && !EndsLease(s, Handle(h, move), id)
    ensures StillOrphan(s, DoMove(s, h, move), id)
  {
    var pc := s.handlers[h].pc;
    match move
    case ReplayBegin(sinceNs, nowNs, io) => OrphanAfterReplay(s, h, sinceNs, nowNs, io, id);
    case GatedBegin(sinceNs, nowNs, io) => OrphanAfterGatedBegin(s, h, sinceNs, nowNs, io, id);
    case PersistRefusal(nowNs, io) => OrphanAfterUpdate(s, h, pc.id, None, ROUTING_MISMATCH, 0, nowNs, io, id);
    case Persist(nowNs, io) =>
      OrphanAfterUpdate(s, h, pc.id, Some(pc.call), CompletionOf(pc.result, Ms(pc.notBeforeNs)), pc.notBeforeNs, nowNs, io, id);
    case Dispatch => OrphanAfterDispatch(s, h, id);
    case Respond =>
    case _ => OrphanAfterSilent(s, h, move, id);
  }

  /**
   Exactly two things end an attempt that nobody carries out: the adapter is opened
   again, or a request for the delivery passes the gate two minutes or more after it
   was claimed.  Any other step leaves it, and its row, as they are.
   */
  lemma WhatEndsAnOrphan(s: System, a: Action, id: Id)
    requires CoreInv(s) && Orphan(s, id)
    ensures var t := Step(s, a);
      var row := s.ledger.entries[id].row;
      && id in t.ledger.entries
      && (if a.Open? && Enabled(s, a) then t.ledger.entries[id].row == UnknownRow(row, Ms(a.nowNs))
          else if EndsLease(s, a, id) then t.ledger.entries[id].row == UnknownRow(row, Ms(a.move.nowNs))
          else StillOrphan(s, t, id))
  {
    if Enabled(s, a) {
      match a
      case Handle(h, move) =>
        if EndsLease(s, a, id) {
          OrphanAfterGatedBegin(s, h, move.sinceNs, move.nowNs, move.io, id);
        } else {
          OrphanMove(s, h, move, id);
        }
      case _ =>
    }
  }

  // ---------------------------------------------------------------- a whole run

  /** So an orphaned attempt lasts through any run without a reopening in which no request passes the gate that late. */
  lemma {:induction false} OrphanLasts(s: System, acts: seq<Action>, id: Id)
    requires CoreInv(s) && Orphan(s, id)
    requires forall i :: 0 <= i < |acts| ==> !acts[i].Open?
    requires forall i :: 0 <= i < |acts| && acts[i].Handle? && acts[i].move.GatedBegin? ==>
               !Stale(s.ledger.entries[id].row, acts[i].move.sinceNs)
    ensures StillOrphan(s, Run(s, acts), id)
    decreases |acts|
  {
    if acts == [] {
    } else {
      CoreStep(s, acts[0]);
      WhatEndsAnOrphan(s, acts[0], id);
      OrphanLasts(Step(s, acts[0]), acts[1..], id);
    }
  }

  /** What the request that ends it is told, if the store works: that the outcome is unknown. */
  lemma LateRequestIsTold(s: System, h: nat, sinceNs: int, nowNs: int, id: Id)
    requires CoreInv(s) && Orphan(s, id) && EndsLease(s, Handle(h, GatedBegin(sinceNs, nowNs, Commits)), id)
    ensures var t := DoMove(s, h, GatedBegin(sinceNs, nowNs, Commits));
      h in t.handlers && t.handlers[h].pc ==
        Replying(Outgoing(DeliveryResponse(StatusNonRetryableError, "", "delivery outcome is unknown after adapter restart"),
                          StoredOutcome(id)), true)
  {
    var k := KeysOf(s.handlers[h].request);
    BeginOnSending(s.ledger, k, true, sinceNs, Ms(nowNs), id);
    RecordHasRow(id, Begin(s.ledger, k, true, sinceNs, Ms(nowNs)).0.entries[id]);
  }

  lemma RecordHasRow(id: Id, e: Entry)
    ensures RecordOf(id, e).row == e.row && RecordOf(id, e).deliveryId == id
  {
  }
}
