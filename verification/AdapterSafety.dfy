/**
 Telegram accepts at most one message per delivery: the invariant about the calls
 that may still be, or already are, accepted.
 */
module AdapterSafety {
  import opened Prelude
  import opened Wire
  import opened DeliveryLedger
  import opened LedgerLaws
  import opened TelegramClient
  import opened ReplyTarget
  import opened Adapter
  import opened AdapterInvariants

  /** Telegram has accepted this call, or may still come to do so. */
  predicate Hot(s: System, k: nat)
    requires k < |s.calls|
  {
    s.calls[k].status == Written || s.calls[k].status.Accepted? || Live(s, k)
  }

  ghost predicate Quiet(s: System, id: Id) {
    forall k :: 0 <= k < |s.calls| && s.calls[k].id == id ==> !Hot(s, k)
  }

  /** A delivery with a hot call is not up for another attempt. */
  ghost predicate HotState(state: DeliveryState) {
    state == Sending || state == Delivered || state == Unknown
  }

  ghost predicate CallsSettled(s: System) {
    forall k :: 0 <= k < |s.calls| ==> Settled(s.ledger, s.calls[k].request, s.calls[k].id)
  }

  ghost predicate HotCallsBlock(s: System)
    requires CallsSettled(s)
  {
    forall k :: 0 <= k < |s.calls| && Hot(s, k) ==> HotState(s.ledger.entries[s.calls[k].id].row.state)
  }

  ghost predicate HotCallsDiffer(s: System) {
    forall j, k :: 0 <= j < k < |s.calls| && Hot(s, j) && Hot(s, k) ==> s.calls[j].id != s.calls[k].id
  }

  /** Whoever is about to send, or to declare that nothing was accepted, has no hot call behind it. */
  ghost predicate HolderQuiet(s: System) {
    s.gate.Some? && s.gate.value in s.handlers ==>
      match s.handlers[s.gate.value].pc
      case Claimed(id) => Quiet(s, id)
      case Refusing(id) => Quiet(s, id)
      case Persisting(id, _, result, _) =>
        result.class_ == ResultRetryable || result.class_ == ResultNonRetryable ==> Quiet(s, id)
      case _ => true
  }

  ghost predicate CallsInv(s: System) {
    CallsSettled(s) && HotCallsBlock(s) && HotCallsDiffer(s) && HolderQuiet(s)
  }

  // ---------------------------------------------------------------- steps that make no call

  /** The calls are those of `s`, none newly hot, and hot ones stay out of reach of a new attempt. */
  ghost predicate NothingHeats(s: System, t: System) {
    && |t.calls| == |s.calls|
    && (forall k :: 0 <= k < |s.calls| ==> t.calls[k].id == s.calls[k].id && t.calls[k].request == s.calls[k].request)
    && (forall k :: 0 <= k < |s.calls| && Hot(t, k) ==> Hot(s, k))
    && Grows(s.ledger, t.ledger)
  }

  ghost predicate HotStatesKept(s: System, t: System) {
    forall id :: id in s.ledger.entries && id in t.ledger.entries && HotState(s.ledger.entries[id].row.state) ==>
      HotState(t.ledger.entries[id].row.state) || Quiet(s, id)
  }

  lemma CallsKept(s: System, t: System)
    requires CallsInv(s) && NothingHeats(s, t) && HotStatesKept(s, t)
    ensures CallsSettled(t) && HotCallsBlock(t) && HotCallsDiffer(t)
    ensures forall id :: Quiet(s, id) ==> Quiet(t, id)
  {
    forall k | 0 <= k < |t.calls|
      ensures Settled(t.ledger, t.calls[k].request, t.calls[k].id)
      ensures Hot(t, k) ==> HotState(t.ledger.entries[t.calls[k].id].row.state)
    {
      SettledStays(s.ledger, t.ledger, s.calls[k].request, s.calls[k].id);
    }
  }

  lemma SameCallsHeatNothing(s: System, t: System)
    requires t.calls == s.calls && Grows(s.ledger, t.ledger)
    requires forall k :: 0 <= k < |s.calls| && Live(t, k) ==> Live(s, k)
    ensures NothingHeats(s, t)
  {
  }

  // ---------------------------------------------------------------- ledger transactions

  lemma ResumeKeepsHotStates(L: Ledger, id: Id, sinceNs: int, nowMs: int, j: Id)
    requires id in L.entries && j in L.entries && HotState(L.entries[j].row.state)
    ensures var M := Resume(L, id, true, sinceNs, nowMs).0; j in M.entries && HotState(M.entries[j].row.state)
  {
  }

  lemma BeginKeepsHotStates(L: Ledger, r: DeliveryRequest, sinceNs: int, nowMs: int, j: Id)
    requires Consistent(L) && j in L.entries && HotState(L.entries[j].row.state)
    ensures var M := Begin(L, KeysOf(r), true, sinceNs, nowMs).0; j in M.entries && HotState(M.entries[j].row.state)
  {
    var k := KeysOf(r);
    match Judge(L, k)
    case Refused =>
    case Absent => InsertKeeps(L, k, true, nowMs);
    case Canonical(id) =>
      AdoptKeeps(L, id, k);
      assert Adopt(L, id, k).entries[j].row == L.entries[j].row;
      ResumeKeepsHotStates(Adopt(L, id, k), id, sinceNs, nowMs, j);
  }

  lemma HotStatesAfterBegin(L: Ledger, r: DeliveryRequest, sinceNs: int, nowMs: int)
    requires Consistent(L)
    ensures var M := Begin(L, KeysOf(r), true, sinceNs, nowMs).0;
      forall j :: j in L.entries && HotState(L.entries[j].row.state) ==>
        j in M.entries && HotState(M.entries[j].row.state)
  {
    forall j | j in L.entries && HotState(L.entries[j].row.state)
      ensures var M := Begin(L, KeysOf(r), true, sinceNs, nowMs).0; j in M.entries && HotState(M.entries[j].row.state)
    {
      BeginKeepsHotStates(L, r, sinceNs, nowMs, j);
    }
  }

  /** What Begin claims has no hot call: the delivery is new, or was retryable. */
  lemma ClaimIsQuiet(s: System, r: DeliveryRequest, sinceNs: int, nowMs: int)
    requires LedgerInv(s) && CallsInv(s) && 0 <= nowMs
    ensures var result := Begin(s.ledger, KeysOf(r), true, sinceNs, nowMs).1;
      result.Answer? && result.shouldSend ==> Quiet(s, result.record.deliveryId)
  {
    SettledAfterBegin(s.ledger, r, sinceNs, nowMs);
  }

  lemma HolderStaysQuiet(s: System, t: System)
    requires HolderQuiet(s) && t.gate == s.gate
    requires s.gate.Some? && s.gate.value in t.handlers ==>
               s.gate.value in s.handlers && t.handlers[s.gate.value].pc == s.handlers[s.gate.value].pc
    requires forall id :: Quiet(s, id) ==> Quiet(t, id)
    ensures HolderQuiet(t)
  {
  }

  lemma CallsKeptByBegin(s: System, h: nat, sinceNs: int, nowNs: int, io: Io, gated: bool)
    requires LedgerInv(s) && CallsInv(s) && At(s, h) && s.clockNs <= nowNs
    requires s.handlers[h].pc.AtBegin? || s.handlers[h].pc.ReplayingTerminal?
    ensures var t := DoBegin(s, h, sinceNs, nowNs, io, gated);
      && CallsSettled(t) && HotCallsBlock(t) && HotCallsDiffer(t) && forall id :: Quiet(s, id) ==> Quiet(t, id)
  {
    var t := DoBegin(s, h, sinceNs, nowNs, io, gated);
    MoveOfBegin(s, h, sinceNs, nowNs, io, gated);
    BeginEvolves(s, h, sinceNs, nowNs, io, gated);
    SameCallsHeatNothing(s, t);
    HotStatesAfterBegin(s.ledger, s.handlers[h].request, sinceNs, Ms(nowNs));
    CallsKept(s, t);
  }

  lemma CallsAfterBegin(s: System, h: nat, sinceNs: int, nowNs: int, io: Io, gated: bool)
    requires CoreInv(s) && CallsInv(s) && At(s, h) && s.clockNs <= nowNs
    requires HoldsGate(s.handlers[h].pc) <==> gated
    requires s.handlers[h].pc.AtBegin? || s.handlers[h].pc.ReplayingTerminal?
    ensures CallsInv(DoBegin(s, h, sinceNs, nowNs, io, gated))
  {
    var t := DoBegin(s, h, sinceNs, nowNs, io, gated);
    CallsKeptByBegin(s, h, sinceNs, nowNs, io, gated);
    MoveOfBegin(s, h, sinceNs, nowNs, io, gated);
    if !gated {
      HolderStaysQuiet(s, t);
    } else if t.handlers[h].pc.Claimed? {
      ClaimIsQuiet(s, s.handlers[h].request, sinceNs, Ms(nowNs));
    }
  }

  lemma CallsAfterUpdate(s: System, h: nat, id: Id, call: Option<nat>, c: Completion, notBeforeNs: int, nowNs: int, io: Io)
    requires LedgerInv(s) && CallsInv(s) && At(s, h) && s.gate == Some(h) && s.clockNs <= nowNs
    requires !s.handlers[h].pc.Calling?
    requires Holds(s.ledger, s.handlers[h].request, id) && Normalize(c).Some?
    requires HotState(c.state) || Quiet(s, id)
    ensures CallsInv(DoUpdate(s, h, id, call, c, notBeforeNs, nowNs, io))
  {
    var t := DoUpdate(s, h, id, call, c, notBeforeNs, nowNs, io);
    var digest := LogicalDigest(s.handlers[h].request);
    MoveOfUpdate(s, h, id, call, c, notBeforeNs, nowNs, io);
    UpdateEvolves(s, h, id, call, c, notBeforeNs, nowNs, io);
    UpdateOutcome(s.ledger, s.handlers[h].request, id, c, Ms(nowNs));
    SameCallsHeatNothing(s, t);
    forall j | j in s.ledger.entries && j in t.ledger.entries && HotState(s.ledger.entries[j].row.state)
      ensures HotState(t.ledger.entries[j].row.state) || Quiet(s, j)
    {
      UpdateKeepsIdentity(s.ledger, id, digest, c, Ms(nowNs), j);
    }
    CallsKept(s, t);
  }

  // ---------------------------------------------------------------- the call itself

  lemma NewCallIsAlone(s: System, t: System, h: nat, id: Id, r: DeliveryRequest, target: Target)
    requires LedgerInv(s) && CallsInv(s) && At(s, h) && s.gate == Some(h) && !s.handlers[h].pc.Calling?
    requires Holds(s.ledger, r, id) && Quiet(s, id)
    requires t == Goto(s, h, Calling(id, target, |s.calls|)).(calls := s.calls + [Call(id, r, target, Unwritten)], log := t.log)
    ensures CallsInv(t)
  {
    forall k | 0 <= k < |s.calls| ensures t.calls[k] == s.calls[k] && (Hot(t, k) ==> Hot(s, k)) {
    }
  }

  lemma CallsAfterDispatch(s: System, h: nat)
    requires CoreInv(s) && CallsInv(s) && CanMove(s, h, Dispatch)
    ensures CallsInv(DoDispatch(s, h))
  {
    var t := DoDispatch(s, h);
    var (r, id) := (s.handlers[h].request, s.handlers[h].pc.id);
    assert HandlerOk(s.ledger, s.calls, s.clockNs, s.handlers[h]);
    assert Quiet(s, id);
    if t.handlers[h].pc.Refusing? {
      SameCallsHeatNothing(s, t);
      CallsKept(s, t);
    } else {
      NewCallIsAlone(s, t, h, id, r, t.handlers[h].pc.target);
    }
  }

  /** A result that says nothing was accepted leaves its delivery without a hot call. */
  lemma ReturnIsQuiet(s: System, t: System, h: nat, x: Exchange)
    requires CoreInv(s) && CallsInv(s) && At(s, h) && s.handlers[h].pc.Calling?
    requires var pc := s.handlers[h].pc; pc.call < |s.calls| && Observable(x, s.calls[pc.call].status)
    requires t.calls == s.calls && !Live(t, s.handlers[h].pc.call)
    requires forall k: nat :: k < |s.calls| && Hot(t, k) ==> Hot(s, k)
    ensures var class_ := ResultOf(s.handlers[h].pc.target, x).class_;
      class_ == ResultRetryable || class_ == ResultNonRetryable ==> Quiet(t, s.handlers[h].pc.id)
  {
    var pc := s.handlers[h].pc;
    assert HandlerOk(s.ledger, s.calls, s.clockNs, s.handlers[h]);
    ClassificationIsSafe(pc.target, x, s.calls[pc.call].status);
    assert Live(s, pc.call) && Hot(s, pc.call);
  }

  lemma CallsAfterReturn(s: System, h: nat, x: Exchange, nowNs: int)
    requires CoreInv(s) && CallsInv(s) && CanMove(s, h, Return(x, nowNs))
    ensures CallsInv(DoMove(s, h, Return(x, nowNs)))
  {
    var t := DoMove(s, h, Return(x, nowNs));
    SameCallsHeatNothing(s, t);
    CallsKept(s, t);
    ReturnIsQuiet(s, t, h, x);
  }

  lemma CallsAfterRefusal(s: System, h: nat, nowNs: int, io: Io)
    requires CoreInv(s) && CallsInv(s) && CanMove(s, h, PersistRefusal(nowNs, io))
    ensures CallsInv(DoMove(s, h, PersistRefusal(nowNs, io)))
  {
    var c := MoveOfRefusal(s, h, nowNs, io);
    CallsAfterUpdate(s, h, s.handlers[h].pc.id, None, c, 0, nowNs, io);
  }

  lemma CallsAfterPersist(s: System, h: nat, nowNs: int, io: Io)
    requires CoreInv(s) && CallsInv(s) && CanMove(s, h, Persist(nowNs, io))
    ensures CallsInv(DoMove(s, h, Persist(nowNs, io)))
  {
    var pc := s.handlers[h].pc;
    assert HandlerOk(s.ledger, s.calls, s.clockNs, s.handlers[h]);
    CallsAfterUpdate(s, h, pc.id, Some(pc.call), CompletionOf(pc.result, Ms(pc.notBeforeNs)), pc.notBeforeNs, nowNs, io);
  }

  lemma CallsAfterRespond(s: System, h: nat)
    requires LedgerInv(s) && CallsInv(s) && CanMove(s, h, Respond)
    ensures CallsInv(DoMove(s, h, Respond))
  {
    var t := DoMove(s, h, Respond);
    SameCallsHeatNothing(s, t);
    CallsKept(s, t);
  }

  lemma CallsAfterSilent(s: System, h: nat, move: Move)
    requires LedgerInv(s) && CallsInv(s) && CanMove(s, h, move) && Silent(move) && !move.Return?
    ensures CallsInv(DoMove(s, h, move))
  {
    var t := DoMove(s, h, move);
    MoveOfSilent(s, h, move);
    SameCallsHeatNothing(s, t);
    CallsKept(s, t);
  }

  lemma CallsMove(s: System, h: nat, move: Move)
    requires CoreInv(s) && CallsInv(s) && CanMove(s, h, move)
    ensures CallsInv(DoMove(s, h, move))
  {
    match move
    case ReplayBegin(sinceNs, nowNs, io) => CallsAfterBegin(s, h, sinceNs, nowNs, io, false);
    case GatedBegin(sinceNs, nowNs, io) => CallsAfterBegin(s, h, sinceNs, nowNs, io, true);
    case Dispatch => CallsAfterDispatch(s, h);
    case Return(x, nowNs) => CallsAfterReturn(s, h, x, nowNs);
    case PersistRefusal(nowNs, io) => CallsAfterRefusal(s, h, nowNs, io);
    case Persist(nowNs, io) => CallsAfterPersist(s, h, nowNs, io);
    case Respond => CallsAfterRespond(s, h);
    case _ => CallsAfterSilent(s, h, move);
  }

  lemma CallsAfterNetwork(s: System, call: nat, status: CallStatus)
    requires LedgerInv(s) && CallsInv(s) && CanHappen(s, call, status)
    ensures CallsInv(s.(calls := s.calls[call := s.calls[call].(status := status)]))
  {
    var t := s.(calls := s.calls[call := s.calls[call].(status := status)]);
    forall k | 0 <= k < |s.calls| && Hot(t, k) ensures Hot(s, k) {
    }
    CallsKept(s, t);
  }

  lemma CallsStep(s: System, a: Action)
    requires CoreInv(s) && CallsInv(s)
    ensures CallsInv(Step(s, a))
  {
    if Enabled(s, a) {
      var t := Do(s, a);
      LedgerStep(s, a);
      match a
      case Handle(h, move) => CallsMove(s, h, move);
      case Network(call, status) => CallsAfterNetwork(s, call, status);
      case _ =>
        SameCallsHeatNothing(s, t);
        CallsKept(s, t);
    }
  }
}
