/**
 The terminal-replay path, where a request that was found to be settled runs Begin
 outside the gate, and every error of Begin is reported as a failure of the store:
 exactly when that error is a conflict, and a run in which it is.
 */
module ReplayTheorems {
  import opened Prelude
  import opened Wire
  import opened DeliveryLedger
  import opened LedgerLaws
  import opened InspectionLaws
  import opened Adapter
  import opened AdapterInvariants
  import opened AdapterRuns

  /** What a request is told when its replay conflicts. */
  const CONFLICT_AS_FAILURE := Replying(Outgoing(STORE_UNAVAILABLE, ConflictVerdict), false)

  // ---------------------------------------------------------------- exactly when

  lemma ReplayVerdict(L: Ledger, r: DeliveryRequest, id: Id, sinceNs: int, nowMs: int)
    requires Consistent(L) && Coherent(L) && Judge(L, KeysOf(r)) in {Canonical(id), Refused}
    requires id in L.entries && L.entries[id].row.state.Terminal() && SameDelivery(id, L.entries[id], r)
    ensures Begin(L, KeysOf(r), true, sinceNs, nowMs).1.Conflict? <==> OwnedElsewhere(L, r, id)
    ensures Begin(L, KeysOf(r), true, sinceNs, nowMs).1.Answer? ==>
              Begin(L, KeysOf(r), true, sinceNs, nowMs).1.record.row.state.Terminal()
  {
    RefusedWhenOwnedElsewhere(L, r, id);
    TerminalIsReplayed(L, KeysOf(r), id, true, sinceNs, nowMs);
  }

  lemma ReplayConflictsWhen(s: System, h: nat, sinceNs: int, nowNs: int, io: Io)
    requires CoreInv(s) && CanMove(s, h, ReplayBegin(sinceNs, nowNs, io))
    ensures var t := DoMove(s, h, ReplayBegin(sinceNs, nowNs, io));
      h in t.handlers &&
      (t.handlers[h].pc == CONFLICT_AS_FAILURE <==>
       io != FailsBefore && OwnedElsewhere(s.ledger, s.handlers[h].request, s.handlers[h].pc.id))
  {
    assert HandlerOk(s.ledger, s.calls, s.clockNs, s.handlers[h]);
    ReplayVerdict(s.ledger, s.handlers[h].request, s.handlers[h].pc.id, sinceNs, Ms(nowNs));
  }

  /**
   In every reachable state, a request that is about to replay delivery `id` is told
   that the store is unavailable because it conflicts, exactly when the store works
   and one of the request's identities belongs to another delivery by now.
   */
  lemma ReplayConflictsExactly(s: System, acts: seq<Action>, h: nat, sinceNs: int, nowNs: int, io: Io)
    requires Init(s) && CanMove(Run(s, acts), h, ReplayBegin(sinceNs, nowNs, io))
    ensures var t := Run(s, acts);
      var u := DoMove(t, h, ReplayBegin(sinceNs, nowNs, io));
      h in u.handlers &&
      (u.handlers[h].pc == CONFLICT_AS_FAILURE <==>
       io != FailsBefore && OwnedElsewhere(t.ledger, t.handlers[h].request, t.handlers[h].pc.id))
  {
    ReachableInv(s, acts);
    ReplayConflictsWhen(Run(s, acts), h, sinceNs, nowNs, io);
  }

  /**
   And every other case: with a store that fails it is told so, and otherwise it is
   answered from the row that the inspection saw, which is still the stored one.
   */
  lemma ReplayIsExact(s: System, h: nat, sinceNs: int, nowNs: int, io: Io)
    requires CoreInv(s) && CanMove(s, h, ReplayBegin(sinceNs, nowNs, io))
    ensures var (t, r, id) := (DoMove(s, h, ReplayBegin(sinceNs, nowNs, io)), s.handlers[h].request, s.handlers[h].pc.id);
      && h in t.handlers && id in s.ledger.entries
      && t.handlers[h].pc ==
         (if io == FailsBefore then Replying(Outgoing(STORE_UNAVAILABLE, NoAnswer), false)
          else if OwnedElsewhere(s.ledger, r, id) then CONFLICT_AS_FAILURE
          else if io == FailsAfter then Replying(Outgoing(STORE_UNAVAILABLE, NoAnswer), false)
          else Replying(Outgoing(Replay(s.ledger.entries[id].row), StoredOutcome(id)), false))
  {
    var (r, id) := (s.handlers[h].request, s.handlers[h].pc.id);
    assert HandlerOk(s.ledger, s.calls, s.clockNs, s.handlers[h]);
    ReplayVerdict(s.ledger, r, id, sinceNs, Ms(nowNs));
    TerminalIsReplayed(s.ledger, KeysOf(r), id, true, sinceNs, Ms(nowNs));
  }

  // ---------------------------------------------------------------- when never

  ghost predicate BothOwned(L: Ledger, r: DeliveryRequest) {
    r.deliveryId in L.owner && r.idempotencyId in L.owner
  }

  /** What such a request has seen of the owners of its identities, while it is still looking or replaying. */
  ghost predicate PcSawOwners(L: Ledger, r: DeliveryRequest, pc: Pc) {
    match pc
    case Inspecting(seen) => (|seen| > 0 ==> seen[0].Some?) && (|seen| > 2 ==> seen[2].Some?)
    case ReplayingTerminal(id) => !OwnedElsewhere(L, r, id)
    case _ => true
  }

  ghost predicate SawOwners(s: System, h: nat, r: DeliveryRequest) {
    && BothOwned(s.ledger, r)
    && (At(s, h) ==> s.handlers[h].request == r && PcSawOwners(s.ledger, r, s.handlers[h].pc))
  }

  lemma OwnersStay(L: Ledger, M: Ledger, r: DeliveryRequest, pc: Pc)
    requires BothOwned(L, r) && Grows(L, M) && PcSawOwners(L, r, pc)
    ensures BothOwned(M, r) && PcSawOwners(M, r, pc)
  {
  }

  lemma ReadSawOwners(L: Ledger, r: DeliveryRequest, seen: seq<Option<Sighting>>)
    requires Consistent(L) && BothOwned(L, r) && PcSawOwners(L, r, Inspecting(seen)) && |seen| < 4
    ensures PcSawOwners(L, r, Inspecting(seen + [ReadNext(L, r, seen)]))
  {
  }

  lemma ConclusionSawOwners(L: Ledger, r: DeliveryRequest, seen: seq<Option<Sighting>>)
    requires Consistent(L) && Coherent(L) && ReadsOk(L, r, seen) && |seen| == 4 && PcSawOwners(L, r, Inspecting(seen))
    ensures PcSawOwners(L, r, AfterInspection(r, seen))
  {
    if Inspect(seen[0], seen[1], seen[2], seen[3], KeysOf(r)).Found? {
      ConclusionIsCurrent(L, r, seen[0], seen[1], seen[2], seen[3]);
      FoundByBothIsAccepted(L, r, seen[0], seen[1], seen[2], seen[3]);
      RefusedWhenOwnedElsewhere(L, r, seen[0].value.id);
    }
  }

  lemma LookingSawOwners(s: System, h: nat, move: Move, r: DeliveryRequest)
    requires CoreInv(s) && SawOwners(s, h, r) && CanMove(s, h, move) && (move.Read? || move.Conclude?)
    ensures SawOwners(DoMove(s, h, move), h, r)
  {
    var seen := s.handlers[h].pc.seen;
    assert HandlerOk(s.ledger, s.calls, s.clockNs, s.handlers[h]);
    if move.Read? {
      ReadSawOwners(s.ledger, r, seen);
    } else {
      ConclusionSawOwners(s.ledger, r, seen);
    }
  }

  /** After any other move the request is past looking and replaying, or gone. */
  lemma PastReplaying(s: System, h: nat, move: Move)
    requires Consistent(s.ledger) && CanMove(s, h, move) && !move.Read? && !move.Conclude?
    ensures var t := DoMove(s, h, move);
      h in t.handlers ==>
        && t.handlers[h].request == s.handlers[h].request
        && !t.handlers[h].pc.Inspecting? && !t.handlers[h].pc.ReplayingTerminal?
  {
  }

  lemma MoveSawOwners(s: System, h: nat, move: Move, r: DeliveryRequest)
    requires CoreInv(s) && SawOwners(s, h, r) && CanMove(s, h, move)
    ensures SawOwners(DoMove(s, h, move), h, r)
  {
    if move.Read? || move.Conclude? {
      LookingSawOwners(s, h, move, r);
    } else {
      LedgerMove(s, h, move);
      PastReplaying(s, h, move);
    }
  }

  lemma OthersSawOwners(s: System, a: Action, h: nat, r: DeliveryRequest)
    requires CoreInv(s) && SawOwners(s, h, r) && (a.Arrive? || a.Handle? ==> a.h != h)
    ensures SawOwners(Step(s, a), h, r)
  {
    LedgerStep(s, a);
    if At(s, h) && a != Crash {
      StepsLeaveOthers(s, a, h);
      OwnersStay(s.ledger, Step(s, a).ledger, r, s.handlers[h].pc);
    } else {
      NobodyAppears(s, a, h);
    }
  }

  lemma NobodyAppears(s: System, a: Action, h: nat)
    requires Consistent(s.ledger) && (s.up || s.handlers == map[]) && (!At(s, h) || a == Crash) && (a.Arrive? || a.Handle? ==> a.h != h)
    ensures !At(Step(s, a), h)
  {
    if a.Handle? && Enabled(s, a) {
      MoveKeepsNames(s, a.h, a.move, h);
    }
  }

  lemma MoveKeepsNames(s: System, h: nat, move: Move, g: nat)
    requires Consistent(s.ledger) && CanMove(s, h, move) && g !in s.handlers
    ensures g !in DoMove(s, h, move).handlers
  {
  }

  lemma StepSawOwners(s: System, a: Action, h: nat, r: DeliveryRequest)
    requires CoreInv(s) && SawOwners(s, h, r) && (a.Arrive? ==> a.h != h)
    ensures SawOwners(Step(s, a), h, r)
  {
    if !a.Handle? || a.h != h {
      OthersSawOwners(s, a, h, r);
    } else if Enabled(s, a) {
      MoveSawOwners(s, h, a.move, r);
    }
  }

  lemma {:induction false} RunSawOwners(s: System, acts: seq<Action>, h: nat, r: DeliveryRequest)
    requires CoreInv(s) && SawOwners(s, h, r)
    requires forall i :: 0 <= i < |acts| && acts[i].Arrive? ==> acts[i].h != h
    ensures CoreInv(Run(s, acts)) && SawOwners(Run(s, acts), h, r)
    decreases |acts|
  {
    if acts == [] {
    } else {
      CoreStep(s, acts[0]);
      StepSawOwners(s, acts[0], h, r);
      RunSawOwners(Step(s, acts[0]), acts[1..], h, r);
    }
  }

  /** A request both of whose identities are owned when it arrives is never answered that way. */
  lemma OwnedOnArrivalNeverConflicts(s: System, acts: seq<Action>, h: nat, sinceNs: int, nowNs: int, io: Io)
    requires CoreInv(s) && At(s, h) && s.handlers[h].pc == Inspecting([]) && BothOwned(s.ledger, s.handlers[h].request)
    requires forall i :: 0 <= i < |acts| && acts[i].Arrive? ==> acts[i].h != h
    requires CanMove(Run(s, acts), h, ReplayBegin(sinceNs, nowNs, io))
    ensures Consistent(Run(s, acts).ledger)
    ensures var u := DoMove(Run(s, acts), h, ReplayBegin(sinceNs, nowNs, io));
      h in u.handlers && u.handlers[h].pc != CONFLICT_AS_FAILURE
  {
    RunSawOwners(s, acts, h, s.handlers[h].request);
    ReplayConflictsWhen(Run(s, acts), h, sinceNs, nowNs, io);
  }
}
