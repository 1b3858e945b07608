/** An inspection with no commits between its reads, as a run of the machine. */
module InspectionRuns {
  import opened Prelude
  import opened Wire
  import opened DeliveryLedger
  import opened InspectionLaws
  import opened Adapter
  import opened AdapterInvariants
  import opened AdapterRuns

  function FourReads(L: Ledger, r: DeliveryRequest): seq<Option<Sighting>>
    requires Consistent(L)
  {
    [ReadAlias(L, r.deliveryId), ReadPrimary(L, r.deliveryId), ReadAlias(L, r.idempotencyId), ReadPrimary(L, r.idempotencyId)]
  }

  lemma ReadStep(s: System, h: nat)
    requires LedgerInv(s) && CanMove(s, h, Read)
    ensures var (r, seen) := (s.handlers[h].request, s.handlers[h].pc.seen);
      Step(s, Handle(h, Read)) == Goto(s, h, Inspecting(seen + [ReadNext(s.ledger, r, seen)]))
  {
  }

  lemma GotoTwice(s: System, h: nat, p: Pc, q: Pc)
    requires h in s.handlers
    ensures Goto(Goto(s, h, p), h, q) == Goto(s, h, q)
  {
    assert s.handlers[h := s.handlers[h].(pc := p)][h := s.handlers[h].(pc := q)]
           == s.handlers[h := s.handlers[h].(pc := q)];
  }

  lemma NextRead(s: System, h: nat, n: nat)
    requires LedgerInv(s) && At(s, h) && s.handlers[h].pc == Inspecting([]) && 0 < n <= 4
    ensures var looks := FourReads(s.ledger, s.handlers[h].request);
      Step(Goto(s, h, Inspecting(looks[..n - 1])), Handle(h, Read)) == Goto(s, h, Inspecting(looks[..n]))
  {
    var looks := FourReads(s.ledger, s.handlers[h].request);
    ReadStep(Goto(s, h, Inspecting(looks[..n - 1])), h);
    assert looks[..n] == looks[..n - 1] + [looks[n - 1]];
    GotoTwice(s, h, Inspecting(looks[..n - 1]), Inspecting(looks[..n]));
  }

  lemma {:induction false} ReadsRun(s: System, h: nat, n: nat) returns (acts: seq<Action>)
    requires LedgerInv(s) && At(s, h) && s.handlers[h].pc == Inspecting([]) && n <= 4
    ensures Run(s, acts) == Goto(s, h, Inspecting(FourReads(s.ledger, s.handlers[h].request)[..n]))
  {
    if n == 0 {
      acts := [];
    } else {
      var front := ReadsRun(s, h, n - 1);
      acts := front + [Handle(h, Read)];
      RunOneMore(s, front, Handle(h, Read));
      NextRead(s, h, n);
    }
  }

  lemma InspectionIsRun(s: System, h: nat) returns (acts: seq<Action>)
    requires LedgerInv(s) && At(s, h) && s.handlers[h].pc == Inspecting([])
    ensures Run(s, acts) ==
      Goto(s, h, AfterInspection(s.handlers[h].request, FourReads(s.ledger, s.handlers[h].request)))
  {
    var looks := FourReads(s.ledger, s.handlers[h].request);
    var front := ReadsRun(s, h, 4);
    assert looks[..4] == looks;
    acts := front + [Handle(h, Conclude)];
    RunOneMore(s, front, Handle(h, Conclude));
    GotoTwice(s, h, Inspecting(looks), AfterInspection(s.handlers[h].request, looks));
  }

  /**
   What it decides, in terms of what the ledger says of the request: one that
   conflicts is refused, one whose delivery is settled goes on to replay it, and any
   other queues at the gate.
   */
  lemma InspectionDecides(s: System, h: nat) returns (acts: seq<Action>)
    requires CoreInv(s) && At(s, h) && s.handlers[h].pc == Inspecting([])
    ensures var (t, r) := (Run(s, acts), s.handlers[h].request);
      && t.ledger == s.ledger && At(t, h) && t.handlers[h].request == r
      && match Judge(s.ledger, KeysOf(r))
         case Refused =>
           t.handlers[h].pc == Replying(
             Outgoing(DeliveryResponse(StatusNonRetryableError, "", "delivery identity conflict"), ConflictVerdict), false)
         case Absent => t.handlers[h].pc == AtGate
         case Canonical(id) =>
           && id in s.ledger.entries
           && t.handlers[h].pc == if s.ledger.entries[id].row.state.Terminal() then ReplayingTerminal(id) else AtGate
  {
    acts := InspectionIsRun(s, h);
    InspectAgreesWithBegin(s.ledger, KeysOf(s.handlers[h].request));
  }
}
