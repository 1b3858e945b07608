/** A run in which a replay conflicts, so that Orka is told of a failing store by one that works. */
module ReplayRace {
  import opened Prelude
  import opened Wire
  import opened DeliveryLedger
  import opened LedgerLaws
  import opened InspectionLaws
  import opened Routing
  import opened Adapter
  import opened AdapterInvariants
  import opened AdapterRuns
  import opened ReplayTheorems
  import opened InspectionRuns

  lemma RunTwo(s: System, acts: seq<Action>, more: seq<Action>, t: System)
    requires LedgerInv(s) && t == Run(s, acts)
    ensures Run(s, acts + more) == Run(t, more)
  {
    RunOfConcat(s, acts, more);
  }

  /** A request arrives and is inspected while nothing else happens. */
  lemma ArrivesAndLooks(s: System, h: nat, r: DeliveryRequest) returns (acts: seq<Action>)
    requires CoreInv(s) && s.up && h !in s.handlers
    ensures Run(s, acts) == s.(handlers := s.handlers[h := Handler(r, AfterInspection(r, FourReads(s.ledger, r)))])
  {
    var t := Step(s, Arrive(h, r));
    RunOneMore(s, [], Arrive(h, r));
    var more := InspectionIsRun(t, h);
    RunTwo(s, [Arrive(h, r)], more, t);
    acts := [Arrive(h, r)] + more;
    assert [] + [Arrive(h, r)] == [Arrive(h, r)];
    assert t.handlers[h := Handler(r, AfterInspection(r, FourReads(s.ledger, r)))]
           == s.handlers[h := Handler(r, AfterInspection(r, FourReads(s.ledger, r)))];
  }

  // ---------------------------------------------------------------- the race

  /** `late` names the settled delivery `id` by its stable ID alone, and `other` is new under the same delivery ID. */
  ghost predicate Race(L: Ledger, late: DeliveryRequest, other: DeliveryRequest, id: Id) {
    && late.idempotencyId in L.owner && L.owner[late.idempotencyId] == id
    && id in L.entries && L.entries[id].row.state.Terminal() && SameDelivery(id, L.entries[id], late)
    && late.deliveryId !in L.owner && other.deliveryId == late.deliveryId && other.idempotencyId !in L.owner
  }

  lemma LateLooks(L: Ledger, late: DeliveryRequest, other: DeliveryRequest, id: Id)
    requires Consistent(L) && Coherent(L) && Race(L, late, other, id)
    ensures AfterInspection(late, FourReads(L, late)) == ReplayingTerminal(id)
    ensures AfterInspection(other, FourReads(L, other)) == AtGate
    ensures Judge(L, KeysOf(other)) == Absent
  {
    JudgeMeaning(L, late);
    JudgeMeaning(L, other);
    InspectAgreesWithBegin(L, KeysOf(late));
    InspectAgreesWithBegin(L, KeysOf(other));
    assert Judge(L, KeysOf(late)) == Canonical(id);
  }

  lemma OtherTakesId(L: Ledger, late: DeliveryRequest, other: DeliveryRequest, id: Id, sinceNs: int, nowMs: int)
    requires Consistent(L) && Coherent(L) && Race(L, late, other, id) && 0 <= nowMs
    ensures OwnedElsewhere(Begin(L, KeysOf(other), true, sinceNs, nowMs).0, late, id)
  {
    LateLooks(L, late, other, id);
    assert EntryOk(L, id);
    InsertOutcome(L, KeysOf(other), nowMs);
  }

  lemma OtherInserts(s: System, h: nat, late: DeliveryRequest, id: Id)
    requires CoreInv(s) && At(s, h) && s.handlers[h].pc == AtBegin
    requires Race(s.ledger, late, s.handlers[h].request, id)
    ensures var t := Step(s, Handle(h, GatedBegin(s.clockNs, s.clockNs, Commits)));
      && OwnedElsewhere(t.ledger, late, id) && t.up && t.clockNs == s.clockNs
      && forall g :: g in s.handlers && g != h ==> g in t.handlers && t.handlers[g] == s.handlers[g]
  {
    OtherTakesId(s.ledger, late, s.handlers[h].request, id, s.clockNs, Ms(s.clockNs));
    MoveOfBegin(s, h, s.clockNs, s.clockNs, Commits, true);
  }

  /** Both requests have looked: the late one is about to replay, the other one is at the gate. */
  ghost predicate Looked(s: System, late: DeliveryRequest, other: DeliveryRequest, id: Id) {
    && CoreInv(s) && s.up && s.gate.None? && Race(s.ledger, late, other, id)
    && s.handlers == map[0 := Handler(late, ReplayingTerminal(id)), 1 := Handler(other, AtGate)]
  }

  lemma BothLook(s: System, late: DeliveryRequest, other: DeliveryRequest, id: Id) returns (acts: seq<Action>)
    requires CoreInv(s) && s.up && s.handlers == map[] && s.gate.None? && Race(s.ledger, late, other, id)
    ensures Looked(Run(s, acts), late, other, id)
  {
    LateLooks(s.ledger, late, other, id);
    var first := ArrivesAndLooks(s, 0, late);
    var t := Run(s, first);
    RunGrows(s, first);
    var second := ArrivesAndLooks(t, 1, other);
    RunGrows(t, second);
    RunTwo(s, first, second, t);
    acts := first + second;
  }

  lemma OtherEnters(s: System, late: DeliveryRequest, other: DeliveryRequest, id: Id)
    requires Looked(s, late, other, id)
    ensures var t := Step(s, Handle(1, EnterGate));
      && CoreInv(t) && At(t, 1) && t.handlers[1] == Handler(other, AtBegin) && t.ledger == s.ledger
      && At(t, 0) && t.handlers[0] == s.handlers[0]
  {
    CoreStep(s, Handle(1, EnterGate));
  }

  /** The other request takes the late one's delivery ID before it replays. */
  lemma OtherWins(s: System, late: DeliveryRequest, other: DeliveryRequest, id: Id) returns (acts: seq<Action>)
    requires Looked(s, late, other, id)
    ensures var t := Run(s, acts);
      CoreInv(t) && At(t, 0) && t.handlers[0] == Handler(late, ReplayingTerminal(id)) && OwnedElsewhere(t.ledger, late, id)
  {
    var t := Step(s, Handle(1, EnterGate));
    OtherEnters(s, late, other, id);
    OtherInserts(t, 1, late, id);
    RunOneMore(s, [], Handle(1, EnterGate));
    RunOneMore(s, [Handle(1, EnterGate)], Handle(1, GatedBegin(t.clockNs, t.clockNs, Commits)));
    assert [] + [Handle(1, EnterGate)] == [Handle(1, EnterGate)];
    acts := [Handle(1, EnterGate)] + [Handle(1, GatedBegin(t.clockNs, t.clockNs, Commits))];
    RunGrows(s, acts);
  }

  lemma LateConflicts(s: System, late: DeliveryRequest, id: Id) returns (a: Action)
    requires CoreInv(s) && At(s, 0) && s.handlers[0] == Handler(late, ReplayingTerminal(id)) && OwnedElsewhere(s.ledger, late, id)
    ensures var t := Step(s, a); 0 in t.handlers && t.handlers[0] == Handler(late, CONFLICT_AS_FAILURE)
  {
    a := Handle(0, ReplayBegin(s.clockNs, s.clockNs, Commits));
    ReplayConflictsWhen(s, 0, s.clockNs, s.clockNs, Commits);
    MoveOfBegin(s, 0, s.clockNs, s.clockNs, Commits, false);
  }

  /**
   A request that comes late under a new delivery ID, for a delivery that is settled,
   and that loses its delivery ID to another request before it replays, is told that
   the store is unavailable though no transaction failed.
   */
  lemma ReplayCanConflict(s: System, late: DeliveryRequest, other: DeliveryRequest, id: Id) returns (acts: seq<Action>)
    requires CoreInv(s) && s.up && s.handlers == map[] && s.gate.None? && Race(s.ledger, late, other, id)
    ensures var t := Run(s, acts); 0 in t.handlers && t.handlers[0] == Handler(late, CONFLICT_AS_FAILURE)
  {
    var looking := BothLook(s, late, other, id);
    var t := Run(s, looking);
    var winning := OtherWins(t, late, other, id);
    var u := Run(t, winning);
    var a := LateConflicts(u, late, id);
    RunOneMore(t, winning, a);
    acts := looking + (winning + [a]);
    RunTwo(s, looking, winning + [a], t);
  }

  // ---------------------------------------------------------------- one such run, from a database as it is opened

  function Example(deliveryId: Id, idempotencyId: Id): DeliveryRequest {
    DeliveryRequest("orka.gateway.v1", deliveryId, idempotencyId, "event", None, None, "final", "1", "7", "", "tg:v1:7:0:0", "hi", map[])
  }

  /** Delivery "A" was delivered under the stable ID "I". */
  function OpenedDatabase(): System {
    var row := Row(LegacyDigest(Example("A", "I")), Delivered, "telegram:7:9", "", 0, 1, 1);
    var entry := Entry(row, Some(Registration("I", LogicalDigest(Example("A", "I")))));
    System(Config(1, 0), false, Ledger(map["A" := "A", "I" := "A"], map["A" := entry], 0), NS_PER_MS, map[], None, [], [])
  }

  lemma OpenedDatabaseIsReady()
    ensures Init(OpenedDatabase())
    ensures Race(OpenedDatabase().ledger, Example("D", "I"), Example("D", "J"), "A")
    ensures Recover(OpenedDatabase().ledger, 1) == OpenedDatabase().ledger
  {
    var L := OpenedDatabase().ledger;
    assert "A" != "I" && "D" != "A" && "D" != "I" && "J" != "A" && "J" != "I" by {
      assert "A"[0] != "I"[0] && "D"[0] != "A"[0] && "D"[0] != "I"[0] && "J"[0] != "A"[0] && "J"[0] != "I"[0];
    }
    assert EntryOk(L, "A") && CoherentEntry("A", L.entries["A"]);
  }

  /**
   The run: "A" is settled when the database is opened; a request for it comes under
   the new delivery ID "D"; before it replays, a request for another delivery "J" is
   registered under "D"; and the first is told that the store is unavailable.
   */
  lemma ConflictAnsweredAsFailure() returns (acts: seq<Action>)
    ensures Init(OpenedDatabase())
    ensures var t := Run(OpenedDatabase(), acts);
      0 in t.handlers && t.handlers[0] == Handler(Example("D", "I"), CONFLICT_AS_FAILURE)
  {
    OpenedDatabaseIsReady();
    var s := OpenedDatabase();
    InitInv(s);
    var t := Step(s, Open(NS_PER_MS));
    CoreStep(s, Open(NS_PER_MS));
    RunOneMore(s, [], Open(NS_PER_MS));
    var racing := ReplayCanConflict(t, Example("D", "I"), Example("D", "J"), "A");
    assert [] + [Open(NS_PER_MS)] == [Open(NS_PER_MS)];
    acts := [Open(NS_PER_MS)] + racing;
    RunTwo(s, [Open(NS_PER_MS)], racing, t);
  }
}
