/** What the history of a run shows: cooldowns respected, claims accounted for, final answers final. */
module AdapterHistory {
  import opened Prelude
  import opened Wire
  import opened DeliveryLedger
  import opened LedgerLaws
  import opened TelegramClient
  import opened Adapter
  import opened AdapterInvariants
  import opened AdapterSafety

  // ---------------------------------------------------------------- cooldowns

  /** The durable cooldown covers every one ever persisted, up to the truncation to milliseconds. */
  ghost predicate CooldownCovers(s: System) {
    forall j :: 0 <= j < |s.log| && s.log[j].CooldownPersisted? ==>
      s.log[j].untilNs < (s.ledger.cooldownMs + 1) * NS_PER_MS
  }

  /** No provider call started while a cooldown persisted before it was running. */
  ghost predicate CooldownsRespected(log: seq<Event>) {
    forall a, b :: 0 <= a < b < |log| && log[a].CooldownPersisted? && log[b].CallStarted? ==>
      log[a].untilNs - NS_PER_MS < log[b].atNs
  }

  ghost predicate CooldownInv(s: System) {
    CooldownCovers(s) && CooldownsRespected(s.log)
  }

  /** Events that say nothing about calls, and cooldowns the ledger already covers. */
  lemma CooldownAfterEvents(s: System, t: System, events: seq<Event>)
    requires CooldownInv(s) && t.log == s.log + events && s.ledger.cooldownMs <= t.ledger.cooldownMs
    requires forall j :: 0 <= j < |events| ==> !events[j].CallStarted?
    requires forall j :: 0 <= j < |events| && events[j].CooldownPersisted? ==>
               events[j].untilNs < (t.ledger.cooldownMs + 1) * NS_PER_MS
    ensures CooldownInv(t)
  {
  }

  lemma NoCooldownInBegin(L: Ledger, k: Keys, result: BeginResult)
    requires Consistent(L)
    ensures var events := BeginEvents(L, k, result);
      forall j :: 0 <= j < |events| ==> !events[j].CallStarted? && !events[j].CooldownPersisted?
  {
  }

  lemma CooldownAfterBegin(s: System, h: nat, sinceNs: int, nowNs: int, io: Io, gated: bool)
    requires LedgerInv(s) && CooldownInv(s) && h in s.handlers && s.clockNs <= nowNs
    ensures CooldownInv(DoBegin(s, h, sinceNs, nowNs, io, gated))
  {
    var t := DoBegin(s, h, sinceNs, nowNs, io, gated);
    var k := KeysOf(s.handlers[h].request);
    MoveOfBegin(s, h, sinceNs, nowNs, io, gated);
    BeginEvolves(s, h, sinceNs, nowNs, io, gated);
    if io == FailsBefore {
      CooldownAfterEvents(s, t, []);
    } else {
      var result := Begin(s.ledger, k, true, sinceNs, Ms(nowNs)).1;
      NoCooldownInBegin(s.ledger, k, result);
      CooldownAfterEvents(s, t, BeginEvents(s.ledger, k, result));
    }
  }

  lemma CooldownOfEvents(id: Id, call: Option<nat>, notBeforeNs: int, result: UpdateResult, cooldownMs: int)
    requires result.Recorded? && result.record.row.retryNotBeforeMs > 0 ==> Ms(notBeforeNs) <= cooldownMs
    ensures var events := UpdateEvents(id, call, notBeforeNs, result);
      && (forall j :: 0 <= j < |events| ==> !events[j].CallStarted?)
      && (forall j :: 0 <= j < |events| && events[j].CooldownPersisted? ==>
            events[j].untilNs < (cooldownMs + 1) * NS_PER_MS)
  {
    assert notBeforeNs < (Ms(notBeforeNs) + 1) * NS_PER_MS;
  }

  lemma CooldownAfterUpdate(s: System, h: nat, id: Id, call: Option<nat>, c: Completion, notBeforeNs: int, nowNs: int, io: Io)
    requires LedgerInv(s) && CooldownInv(s) && h in s.handlers && s.clockNs <= nowNs
    requires Holds(s.ledger, s.handlers[h].request, id) && Normalize(c).Some?
    requires Normalize(c).value.retryNotBeforeMs in {0, Ms(notBeforeNs)}
    ensures CooldownInv(DoUpdate(s, h, id, call, c, notBeforeNs, nowNs, io))
  {
    var t := DoUpdate(s, h, id, call, c, notBeforeNs, nowNs, io);
    var r := s.handlers[h].request;
    MoveOfUpdate(s, h, id, call, c, notBeforeNs, nowNs, io);
    UpdateEvolves(s, h, id, call, c, notBeforeNs, nowNs, io);
    if io == FailsBefore {
      CooldownAfterEvents(s, t, []);
    } else {
      UpdateOutcome(s.ledger, r, id, c, Ms(nowNs));
      var result := Update(s.ledger, id, LogicalDigest(r), c, Ms(nowNs)).1;
      CooldownOfEvents(id, call, notBeforeNs, result, t.ledger.cooldownMs);
      CooldownAfterEvents(s, t, UpdateEvents(id, call, notBeforeNs, result));
    }
  }

  lemma CooldownAfterDispatch(s: System, h: nat)
    requires CoreInv(s) && CooldownInv(s) && CanMove(s, h, Dispatch)
    ensures CooldownInv(DoDispatch(s, h))
  {
    assert s.ledger.cooldownMs * NS_PER_MS <= s.clockNs by {
      assert HandlerOk(s.ledger, s.calls, s.clockNs, s.handlers[h]);
    }
    MoveOfDispatch(s, h);
    CooldownAfterCall(s, DoDispatch(s, h));
  }

  /** A call that starts when the durable cooldown is over. */
  lemma CooldownAfterCall(s: System, t: System)
    requires CooldownInv(s) && s.ledger.cooldownMs * NS_PER_MS <= s.clockNs && t.ledger == s.ledger
    requires t.log == s.log || t.log == s.log + [CallStarted(|s.calls|, s.clockNs)]
    ensures CooldownInv(t)
  {
  }

  lemma CooldownAfterRefusal(s: System, h: nat, nowNs: int, io: Io)
    requires CoreInv(s) && CooldownInv(s) && CanMove(s, h, PersistRefusal(nowNs, io))
    ensures CooldownInv(DoMove(s, h, PersistRefusal(nowNs, io)))
  {
    var c := MoveOfRefusal(s, h, nowNs, io);
    CooldownAfterUpdate(s, h, s.handlers[h].pc.id, None, c, 0, nowNs, io);
  }

  lemma CooldownAfterPersist(s: System, h: nat, nowNs: int, io: Io)
    requires CoreInv(s) && CooldownInv(s) && CanMove(s, h, Persist(nowNs, io))
    ensures CooldownInv(DoMove(s, h, Persist(nowNs, io)))
  {
    var pc := s.handlers[h].pc;
    assert HandlerOk(s.ledger, s.calls, s.clockNs, s.handlers[h]);
    CooldownAfterUpdate(s, h, pc.id, Some(pc.call), CompletionOf(pc.result, Ms(pc.notBeforeNs)), pc.notBeforeNs, nowNs, io);
  }

  lemma CooldownMove(s: System, h: nat, move: Move)
    requires CoreInv(s) && CooldownInv(s) && CanMove(s, h, move)
    ensures CooldownInv(DoMove(s, h, move))
  {
    match move
    case ReplayBegin(sinceNs, nowNs, io) => CooldownAfterBegin(s, h, sinceNs, nowNs, io, false);
    case GatedBegin(sinceNs, nowNs, io) => CooldownAfterBegin(s, h, sinceNs, nowNs, io, true);
    case Dispatch => CooldownAfterDispatch(s, h);
    case PersistRefusal(nowNs, io) => CooldownAfterRefusal(s, h, nowNs, io);
    case Persist(nowNs, io) => CooldownAfterPersist(s, h, nowNs, io);
    case Respond =>
    case _ => MoveOfSilent(s, h, move);
  }

  lemma CooldownStep(s: System, a: Action)
    requires CoreInv(s) && CooldownInv(s)
    ensures CooldownInv(Step(s, a))
  {
    if Enabled(s, a) && a.Handle? {
      CooldownMove(s, a.h, a.move);
    }
  }

  // ---------------------------------------------------------------- claims

  function Claims(log: seq<Event>, id: Id): nat {
    if log == [] then 0
    else Claims(log[..|log| - 1], id) + (if log[|log| - 1] == Claim(id) then 1 else 0)
  }

  predicate RetryOf(e: Event, id: Id) {
    e.Completed? && e.id == id && e.state == Retryable
  }

  function Retries(log: seq<Event>, id: Id): nat {
    if log == [] then 0
    else Retries(log[..|log| - 1], id) + (if RetryOf(log[|log| - 1], id) then 1 else 0)
  }

  function CallsFor(calls: seq<Call>, id: Id): nat {
    if calls == [] then 0
    else CallsFor(calls[..|calls| - 1], id) + (if calls[|calls| - 1].id == id then 1 else 0)
  }

  lemma {:induction false} CountsOfConcat(log: seq<Event>, more: seq<Event>, id: Id)
    ensures Claims(log + more, id) == Claims(log, id) + Claims(more, id)
    ensures Retries(log + more, id) == Retries(log, id) + Retries(more, id)
  {
    if more == [] {
      assert log + more == log;
    } else {
      CountsOfConcat(log, more[..|more| - 1], id);
      assert (log + more)[..|log + more| - 1] == log + more[..|more| - 1];
    }
  }

  lemma {:induction false} CallsForSameIds(calls: seq<Call>, later: seq<Call>, id: Id)
    requires |calls| == |later| && forall k :: 0 <= k < |calls| ==> calls[k].id == later[k].id
    ensures CallsFor(later, id) == CallsFor(calls, id)
  {
    if calls == [] {
    } else {
      CallsForSameIds(calls[..|calls| - 1], later[..|later| - 1], id);
    }
  }

  predicate IsCreated(log: seq<Event>, id: Id) {
    Created(id) in log
  }

  /** The gate holder has claimed `id` and not yet used the claim. */
  predicate Unspent(s: System, id: Id) {
    && s.gate.Some? && s.gate.value in s.handlers
    && (s.handlers[s.gate.value].pc == Claimed(id))
  }

  /** One delivery's account: claims against persisted retryable results, and calls against claims. */
  ghost predicate AccountOk(s: System, id: Id) {
    var balance := Claims(s.log, id) - Retries(s.log, id);
    && 0 <= balance <= 1
    && (if id in s.ledger.entries then
          var state := s.ledger.entries[id].row.state;
          && (state == Retryable ==> balance == 0)
          && (s.up && state == Sending ==> balance == 1)
          && (IsCreated(s.log, id) && state != Retryable ==> balance == 1)
        else balance == 0 && !IsCreated(s.log, id))
    && CallsFor(s.calls, id) + (if Unspent(s, id) then 1 else 0) <= Claims(s.log, id)
  }

  ghost predicate AccountInv(s: System) {
    forall id :: AccountOk(s, id)
  }

  /** A step that claims nothing, persists nothing retryable and makes no call. */
  lemma AccountUnchanged(s: System, t: System, more: seq<Event>, id: Id)
    requires AccountOk(s, id) && |t.calls| == |s.calls|
    requires forall k :: 0 <= k < |s.calls| ==> t.calls[k].id == s.calls[k].id
    requires t.log == s.log + more && Claims(more, id) == 0 && Retries(more, id) == 0 && Created(id) !in more
    requires Unspent(t, id) ==> Unspent(s, id)
    requires id in t.ledger.entries <==> id in s.ledger.entries
    requires id in t.ledger.entries ==>
               var (x, y) := (s.ledger.entries[id].row.state, t.ledger.entries[id].row.state);
               || (x == y && (t.up ==> s.up || x != Sending))
               || (x == Sending && y.Terminal())
    ensures AccountOk(t, id)
  {
    CountsOfConcat(s.log, more, id);
    CallsForSameIds(s.calls, t.calls, id);
  }

  lemma CountsOfOne(e: Event, id: Id)
    ensures Claims([e], id) == (if e == Claim(id) then 1 else 0)
    ensures Retries([e], id) == (if RetryOf(e, id) then 1 else 0)
  {
    assert [e][..0] == [];
  }

  lemma CountsOfTwo(e: Event, f: Event, id: Id)
    ensures Claims([e, f], id) == Claims([e], id) + Claims([f], id)
    ensures Retries([e, f], id) == Retries([e], id) + Retries([f], id)
  {
    assert [e, f][..1] == [e];
    CountsOfOne(f, id);
  }

  lemma CountsOfBegin(L: Ledger, k: Keys, result: BeginResult, id: Id)
    requires Consistent(L)
    ensures var events := BeginEvents(L, k, result);
      && Retries(events, id) == 0
      && Claims(events, id) == (if result.Answer? && result.shouldSend && result.record.deliveryId == id then 1 else 0)
      && (Created(id) in events <==> result.Answer? && Judge(L, k) == Absent && result.record.deliveryId == id)
  {
    if result.Answer? {
      var d := result.record.deliveryId;
      CountsOfOne(Created(d), id);
      CountsOfOne(Claim(d), id);
      CountsOfTwo(Created(d), Claim(d), id);
    }
  }

  /** A step that at most claims `id`, or makes it. */
  lemma AccountBegun(s: System, t: System, more: seq<Event>, claimed: bool, isNew: bool, id: Id)
    requires AccountOk(s, id) && t.calls == s.calls && t.up == s.up && t.log == s.log + more
    requires Retries(more, id) == 0 && Claims(more, id) == (if claimed then 1 else 0) && (Created(id) in more <==> isNew)
    requires Unspent(t, id) ==> Unspent(s, id) || claimed
    requires id in t.ledger.entries <==> id in s.ledger.entries || isNew
    requires isNew ==> id !in s.ledger.entries && t.ledger.entries[id].row.state == if claimed then Sending else Retryable
    requires claimed ==> id in t.ledger.entries
    requires id in s.ledger.entries ==>
               var (x, y) := (s.ledger.entries[id].row.state, t.ledger.entries[id].row.state);
               if claimed then x == Retryable && y == Sending else y == x || (x == Sending && y == Unknown)
    ensures AccountOk(t, id)
  {
    CountsOfConcat(s.log, more, id);
  }

  lemma ClaimIsUnspent(s: System, h: nat, sinceNs: int, nowNs: int, io: Io, gated: bool, id: Id)
    requires Consistent(s.ledger) && h in s.handlers
    ensures var t := DoBegin(s, h, sinceNs, nowNs, io, gated);
      var result := Begin(s.ledger, KeysOf(s.handlers[h].request), true, sinceNs, Ms(nowNs)).1;
      Unspent(t, id) ==> Unspent(s, id) || (io != FailsBefore && result.Answer? && result.shouldSend && result.record.deliveryId == id)
  {
  }

  lemma AccountAfterBegin(s: System, h: nat, sinceNs: int, nowNs: int, io: Io, gated: bool, id: Id)
    requires LedgerInv(s) && AccountOk(s, id) && At(s, h) && s.clockNs <= nowNs
    requires HoldsGate(s.handlers[h].pc) <==> gated
    requires s.handlers[h].pc.AtBegin? || s.handlers[h].pc.ReplayingTerminal?
    ensures AccountOk(DoBegin(s, h, sinceNs, nowNs, io, gated), id)
  {
    var t := DoBegin(s, h, sinceNs, nowNs, io, gated);
    var r := s.handlers[h].request;
    MoveOfBegin(s, h, sinceNs, nowNs, io, gated);
    ClaimIsUnspent(s, h, sinceNs, nowNs, io, gated, id);
    if io == FailsBefore {
      AccountBegun(s, t, [], false, false, id);
    } else {
      var result := Begin(s.ledger, KeysOf(r), true, sinceNs, Ms(nowNs)).1;
      var events := BeginEvents(s.ledger, KeysOf(r), result);
      CountsOfBegin(s.ledger, KeysOf(r), result, id);
      BeginTransitions(s.ledger, r, sinceNs, Ms(nowNs), id);
      AccountBegun(s, t, events, result.Answer? && result.shouldSend && result.record.deliveryId == id, Created(id) in events, id);
    }
  }

  lemma CountsOfUpdate(target: Id, call: Option<nat>, notBeforeNs: int, result: UpdateResult, id: Id)
    ensures var events := UpdateEvents(target, call, notBeforeNs, result);
      && Claims(events, id) == 0 && Created(id) !in events
      && Retries(events, id) == (if result.Recorded? && result.record.row.state == Retryable && target == id then 1 else 0)
  {
    if result.Recorded? {
      var e := Completed(target, call, result.record.row.state);
      CountsOfOne(e, id);
      CountsOfOne(CooldownPersisted(notBeforeNs), id);
      CountsOfTwo(e, CooldownPersisted(notBeforeNs), id);
    }
  }

  lemma AccountAfterUpdate(s: System, h: nat, target: Id, call: Option<nat>, c: Completion, notBeforeNs: int,
                           nowNs: int, io: Io, id: Id)
    requires LedgerInv(s) && AccountOk(s, id) && At(s, h) && s.gate == Some(h) && s.clockNs <= nowNs
    requires Holds(s.ledger, s.handlers[h].request, target) && Normalize(c).Some?
    ensures AccountOk(DoUpdate(s, h, target, call, c, notBeforeNs, nowNs, io), id)
  {
    var t := DoUpdate(s, h, target, call, c, notBeforeNs, nowNs, io);
    var r := s.handlers[h].request;
    MoveOfUpdate(s, h, target, call, c, notBeforeNs, nowNs, io);
    if io == FailsBefore {
      AccountUnchanged(s, t, [], id);
    } else {
      var result := Update(s.ledger, target, LogicalDigest(r), c, Ms(nowNs)).1;
      var events := UpdateEvents(target, call, notBeforeNs, result);
      CountsOfUpdate(target, call, notBeforeNs, result, id);
      UpdateOutcome(s.ledger, r, target, c, Ms(nowNs));
      UpdateKeepsIdentity(s.ledger, target, LogicalDigest(r), c, Ms(nowNs), id);
      if id == target {
        CountsOfConcat(s.log, events, id);
        CallsForSameIds(s.calls, t.calls, id);
      } else {
        AccountUnchanged(s, t, events, id);
      }
    }
  }

  /** A call spends the claim that was made for it. */
  lemma AccountOfCall(s: System, t: System, c: Call, e: Event, id: Id)
    requires AccountOk(s, id) && Unspent(s, c.id) && !Unspent(t, id)
    requires t.calls == s.calls + [c] && t.log == s.log + [e] && e.CallStarted?
    requires t.ledger == s.ledger && t.up == s.up
    ensures AccountOk(t, id)
  {
    CountsOfOne(e, id);
    CountsOfConcat(s.log, [e], id);
    assert t.calls[..|s.calls|] == s.calls;
    assert Created(id) in t.log <==> Created(id) in s.log;
    assert Unspent(s, id) <==> id == c.id;
  }

  lemma AccountAfterDispatch(s: System, h: nat, id: Id)
    requires CoreInv(s) && AccountOk(s, id) && CanMove(s, h, Dispatch)
    ensures AccountOk(DoDispatch(s, h), id)
  {
    var t := DoDispatch(s, h);
    if t.handlers[h].pc.Refusing? {
      AccountUnchanged(s, t, [], id);
    } else {
      AccountOfCall(s, t, t.calls[|s.calls|], t.log[|s.log|], id);
    }
  }

  lemma AccountAfterRefusal(s: System, h: nat, nowNs: int, io: Io, id: Id)
    requires CoreInv(s) && AccountOk(s, id) && CanMove(s, h, PersistRefusal(nowNs, io))
    ensures AccountOk(DoMove(s, h, PersistRefusal(nowNs, io)), id)
  {
    var c := MoveOfRefusal(s, h, nowNs, io);
    AccountAfterUpdate(s, h, s.handlers[h].pc.id, None, c, 0, nowNs, io, id);
  }

  lemma AccountAfterPersist(s: System, h: nat, nowNs: int, io: Io, id: Id)
    requires CoreInv(s) && AccountOk(s, id) && CanMove(s, h, Persist(nowNs, io))
    ensures AccountOk(DoMove(s, h, Persist(nowNs, io)), id)
  {
    var pc := s.handlers[h].pc;
    assert HandlerOk(s.ledger, s.calls, s.clockNs, s.handlers[h]);
    AccountAfterUpdate(s, h, pc.id, Some(pc.call), CompletionOf(pc.result, Ms(pc.notBeforeNs)),
                       pc.notBeforeNs, nowNs, io, id);
  }

  lemma AccountAfterRespond(s: System, h: nat, id: Id)
    requires LedgerInv(s) && AccountOk(s, id) && CanMove(s, h, Respond)
    ensures AccountOk(DoMove(s, h, Respond), id)
  {
    var e := Responded(s.handlers[h].request, s.handlers[h].pc.out);
    var t := DoMove(s, h, Respond);
    CountsOfOne(e, id);
    assert Created(id) !in [e];
    assert Unspent(t, id) ==> Unspent(s, id);
    AccountUnchanged(s, t, [e], id);
  }

  lemma AccountAfterSilent(s: System, h: nat, move: Move, id: Id)
    requires LedgerInv(s) && AccountOk(s, id) && CanMove(s, h, move) && Silent(move)
    ensures AccountOk(DoMove(s, h, move), id)
  {
    MoveOfSilent(s, h, move);
    AccountUnchanged(s, DoMove(s, h, move), [], id);
  }

  lemma AccountMove(s: System, h: nat, move: Move, id: Id)
    requires CoreInv(s) && AccountOk(s, id) && CanMove(s, h, move)
    ensures AccountOk(DoMove(s, h, move), id)
  {
    match move
    case ReplayBegin(sinceNs, nowNs, io) => AccountAfterBegin(s, h, sinceNs, nowNs, io, false, id);
    case GatedBegin(sinceNs, nowNs, io) => AccountAfterBegin(s, h, sinceNs, nowNs, io, true, id);
    case Dispatch => AccountAfterDispatch(s, h, id);
    case PersistRefusal(nowNs, io) => AccountAfterRefusal(s, h, nowNs, io, id);
    case Persist(nowNs, io) => AccountAfterPersist(s, h, nowNs, io, id);
    case Respond => AccountAfterRespond(s, h, id);
    case _ => AccountAfterSilent(s, h, move, id);
  }

  lemma AccountStep(s: System, a: Action)
    requires CoreInv(s) && AccountInv(s)
    ensures AccountInv(Step(s, a))
  {
    var t := Step(s, a);
    forall id ensures AccountOk(t, id) {
      assert AccountOk(s, id);
      if Enabled(s, a) {
        match a
        case Handle(h, move) => AccountMove(s, h, move, id);
        case _ => AccountUnchanged(s, t, [], id);
      }
    }
  }

  // ---------------------------------------------------------------- answers

  /** Every answer given from a terminal row is still what that row says. */
  ghost predicate AnswersStand(s: System)
    requires LedgerInv(s)
  {
    forall j :: 0 <= j < |s.log| && s.log[j].Responded? && s.log[j].out.basis.StoredOutcome? ==>
      OutgoingOk(s.ledger, s.log[j].request, s.log[j].out, false)
  }

  /** The delivery ID of `r` was already another delivery's, which is why `r` was refused. */
  predicate TakenElsewhere(L: Ledger, r: DeliveryRequest, id: Id) {
    r.deliveryId in L.owner && L.owner[r.deliveryId] != id
  }

  /** After a final answer, a later answer to the same logical request, given what the ledger knows by now. */
  ghost predicate Agrees(L: Ledger, first: Event, later: Event) {
    first.Responded? && later.Responded? && first.out.basis.StoredOutcome?
    && LogicalDigest(later.request) == LogicalDigest(first.request) ==>
      || later.out.response == first.out.response
      || later.out.basis == NoAnswer
      || (later.out.basis == ConflictVerdict && TakenElsewhere(L, later.request, first.out.basis.id))
  }

  ghost predicate AnswersAgree(s: System) {
    forall a, b :: 0 <= a < b < |s.log| ==> Agrees(s.ledger, s.log[a], s.log[b])
  }

  ghost predicate AnswersInv(s: System) {
    LedgerInv(s) && AnswersStand(s) && AnswersAgree(s)
  }

  lemma AgreesStays(L: Ledger, M: Ledger, first: Event, later: Event)
    requires Agrees(L, first, later) && Grows(L, M)
    ensures Agrees(M, first, later)
  {
  }

  lemma AnswersAfterEvents(s: System, t: System, more: seq<Event>)
    requires AnswersInv(s) && Evolves(s, t) && t.log == s.log + more
    requires forall j :: 0 <= j < |more| ==> !more[j].Responded?
    ensures AnswersInv(t)
  {
    forall j | 0 <= j < |t.log| && t.log[j].Responded? && t.log[j].out.basis.StoredOutcome?
      ensures OutgoingOk(t.ledger, t.log[j].request, t.log[j].out, false)
    {
      assert t.log[j] == s.log[j];
      OutgoingStays(s.ledger, t.ledger, s.log[j].request, s.log[j].out, false);
    }
    forall a, b | 0 <= a < b < |t.log| ensures Agrees(t.ledger, t.log[a], t.log[b]) {
      if b < |s.log| {
        AgreesStays(s.ledger, t.ledger, s.log[a], s.log[b]);
      }
    }
  }

  /** A fresh answer agrees with every final one before it. */
  lemma NewAnswerAgrees(L: Ledger, r1: DeliveryRequest, out1: Outgoing, r2: DeliveryRequest, out2: Outgoing, gated: bool)
    requires Consistent(L) && Coherent(L)
    requires out1.basis.StoredOutcome? && OutgoingOk(L, r1, out1, false) && OutgoingOk(L, r2, out2, gated)
    ensures Agrees(L, Responded(r1, out1), Responded(r2, out2))
  {
    if LogicalDigest(r2) == LogicalDigest(r1) {
      var id := out1.basis.id;
      assert r2.idempotencyId == r1.idempotencyId;
      assert r2.(deliveryId := id) == r1.(deliveryId := id) by {
        assert r2.(deliveryId := r2.idempotencyId).(deliveryId := id) == r2.(deliveryId := id);
        assert r1.(deliveryId := r1.idempotencyId).(deliveryId := id) == r1.(deliveryId := id);
      }
      if out2.basis.ConflictVerdict? {
        JudgeMeaning(L, r2);
        AcceptsMeansSameDelivery(id, L.entries[id], r1);
      }
    }
  }

  lemma AnswersAfterRespond(s: System, h: nat)
    requires CoreInv(s) && AnswersInv(s) && CanMove(s, h, Respond)
    ensures AnswersInv(DoMove(s, h, Respond))
  {
    var t := DoMove(s, h, Respond);
    var (r, pc) := (s.handlers[h].request, s.handlers[h].pc);
    assert HandlerOk(s.ledger, s.calls, s.clockNs, s.handlers[h]);
    forall a, b | 0 <= a < b < |t.log| ensures Agrees(t.ledger, t.log[a], t.log[b]) {
      assert t.log[a] == s.log[a];
      if b < |s.log| {
        assert t.log[b] == s.log[b];
      } else if s.log[a].Responded? && s.log[a].out.basis.StoredOutcome? {
        NewAnswerAgrees(s.ledger, s.log[a].request, s.log[a].out, r, pc.out, pc.gated);
      }
    }
  }

  lemma AnswersAfterBegin(s: System, h: nat, sinceNs: int, nowNs: int, io: Io, gated: bool)
    requires AnswersInv(s) && h in s.handlers && s.clockNs <= nowNs
    ensures AnswersInv(DoBegin(s, h, sinceNs, nowNs, io, gated))
  {
    var k := KeysOf(s.handlers[h].request);
    MoveOfBegin(s, h, sinceNs, nowNs, io, gated);
    BeginEvolves(s, h, sinceNs, nowNs, io, gated);
    AnswersAfterEvents(s, DoBegin(s, h, sinceNs, nowNs, io, gated),
                       if io == FailsBefore then []
                       else BeginEvents(s.ledger, k, Begin(s.ledger, k, true, sinceNs, Ms(nowNs)).1));
  }

  lemma NoResponseInUpdate(id: Id, call: Option<nat>, notBeforeNs: int, result: UpdateResult)
    ensures var events := UpdateEvents(id, call, notBeforeNs, result);
      forall j :: 0 <= j < |events| ==> !events[j].Responded?
  {
  }

  lemma AnswersAfterUpdate(s: System, h: nat, id: Id, call: Option<nat>, c: Completion, notBeforeNs: int, nowNs: int, io: Io)
    requires AnswersInv(s) && h in s.handlers && s.clockNs <= nowNs
    ensures AnswersInv(DoUpdate(s, h, id, call, c, notBeforeNs, nowNs, io))
  {
    var t := DoUpdate(s, h, id, call, c, notBeforeNs, nowNs, io);
    MoveOfUpdate(s, h, id, call, c, notBeforeNs, nowNs, io);
    UpdateEvolves(s, h, id, call, c, notBeforeNs, nowNs, io);
    if io == FailsBefore {
      AnswersAfterEvents(s, t, []);
    } else {
      var result := Update(s.ledger, id, LogicalDigest(s.handlers[h].request), c, Ms(nowNs)).1;
      NoResponseInUpdate(id, call, notBeforeNs, result);
      AnswersAfterEvents(s, t, UpdateEvents(id, call, notBeforeNs, result));
    }
  }

  lemma AnswersAfterDispatch(s: System, h: nat)
    requires AnswersInv(s) && h in s.handlers && s.handlers[h].pc.Claimed?
    ensures AnswersInv(DoDispatch(s, h))
  {
    var t := DoDispatch(s, h);
    MoveOfDispatch(s, h);
    if t.handlers[h].pc.Refusing? {
      AnswersAfterEvents(s, t, []);
    } else {
      AnswersAfterEvents(s, t, [CallStarted(|s.calls|, s.clockNs)]);
    }
  }

  lemma AnswersMove(s: System, h: nat, move: Move)
    requires CoreInv(s) && AnswersInv(s) && CanMove(s, h, move)
    ensures AnswersInv(DoMove(s, h, move))
  {
    var pc := s.handlers[h].pc;
    match move
    case ReplayBegin(sinceNs, nowNs, io) => AnswersAfterBegin(s, h, sinceNs, nowNs, io, false);
    case GatedBegin(sinceNs, nowNs, io) => AnswersAfterBegin(s, h, sinceNs, nowNs, io, true);
    case PersistRefusal(nowNs, io) => AnswersAfterUpdate(s, h, pc.id, None, ROUTING_MISMATCH, 0, nowNs, io);
    case Persist(nowNs, io) =>
      AnswersAfterUpdate(s, h, pc.id, Some(pc.call), CompletionOf(pc.result, Ms(pc.notBeforeNs)), pc.notBeforeNs, nowNs, io);
    case Respond => AnswersAfterRespond(s, h);
    case Dispatch => AnswersAfterDispatch(s, h);
    case _ =>
      MoveOfSilent(s, h, move);
      AnswersAfterEvents(s, DoMove(s, h, move), []);
  }

  lemma AnswersStep(s: System, a: Action)
    requires CoreInv(s) && AnswersInv(s)
    ensures AnswersInv(Step(s, a))
  {
    if Enabled(s, a) {
      match a
      case Handle(h, move) => AnswersMove(s, h, move);
      case _ =>
        LedgerStep(s, a);
        AnswersAfterEvents(s, Do(s, a), []);
    }
  }

  // ---------------------------------------------------------------- recorded outcomes

  /** What the history says of an attempt is what Telegram did with its call. */
  ghost predicate OutcomeTrue(s: System, e: Event) {
    e.Completed? && e.sent.Some? ==>
      && e.sent.value < |s.calls| && s.calls[e.sent.value].id == e.id
      && (e.state == Delivered ==> s.calls[e.sent.value].status.Accepted?)
      && (e.state == Retryable || e.state == Permanent ==> !Hot(s, e.sent.value))
  }

  ghost predicate OutcomesInv(s: System) {
    forall j :: 0 <= j < |s.log| ==> OutcomeTrue(s, s.log[j])
  }

  /** Calls keep their identity and acceptance, and a cold call stays cold. */
  ghost predicate StaysCold(s: System, t: System) {
    && CallsGrow(s.calls, t.calls)
    && forall k :: 0 <= k < |s.calls| && Hot(t, k) ==> Hot(s, k)
  }

  lemma OutcomesAfterEvents(s: System, t: System, more: seq<Event>)
    requires OutcomesInv(s) && StaysCold(s, t) && t.log == s.log + more
    requires forall j :: 0 <= j < |more| ==> OutcomeTrue(t, more[j])
    ensures OutcomesInv(t)
  {
    forall j | 0 <= j < |t.log| ensures OutcomeTrue(t, t.log[j]) {
      if j < |s.log| {
        assert OutcomeTrue(s, s.log[j]);
      } else {
        assert t.log[j] == more[j - |s.log|];
      }
    }
  }

  lemma OutcomeOfUpdate(t: System, id: Id, call: Option<nat>, notBeforeNs: int, result: UpdateResult)
    requires result.Recorded? ==> OutcomeTrue(t, Completed(id, call, result.record.row.state))
    ensures var events := UpdateEvents(id, call, notBeforeNs, result);
      forall j :: 0 <= j < |events| ==> OutcomeTrue(t, events[j])
  {
  }

  lemma OutcomesAfterUpdate(s: System, h: nat, id: Id, call: Option<nat>, c: Completion, notBeforeNs: int, nowNs: int, io: Io)
    requires LedgerInv(s) && OutcomesInv(s) && At(s, h) && s.gate == Some(h) && s.clockNs <= nowNs
    requires !s.handlers[h].pc.Calling?
    requires Holds(s.ledger, s.handlers[h].request, id) && Normalize(c).Some?
    requires OutcomeTrue(s, Completed(id, call, c.state))
    ensures OutcomesInv(DoUpdate(s, h, id, call, c, notBeforeNs, nowNs, io))
  {
    var t := DoUpdate(s, h, id, call, c, notBeforeNs, nowNs, io);
    MoveOfUpdate(s, h, id, call, c, notBeforeNs, nowNs, io);
    if io == FailsBefore {
      OutcomesAfterEvents(s, t, []);
    } else {
      UpdateOutcome(s.ledger, s.handlers[h].request, id, c, Ms(nowNs));
      var result := Update(s.ledger, id, LogicalDigest(s.handlers[h].request), c, Ms(nowNs)).1;
      OutcomeOfUpdate(t, id, call, notBeforeNs, result);
      OutcomesAfterEvents(s, t, UpdateEvents(id, call, notBeforeNs, result));
    }
  }

  lemma OutcomesAfterBegin(s: System, h: nat, sinceNs: int, nowNs: int, io: Io, gated: bool)
    requires LedgerInv(s) && OutcomesInv(s) && At(s, h)
    requires s.handlers[h].pc.AtBegin? || s.handlers[h].pc.ReplayingTerminal?
    ensures OutcomesInv(DoBegin(s, h, sinceNs, nowNs, io, gated))
  {
    var k := KeysOf(s.handlers[h].request);
    MoveOfBegin(s, h, sinceNs, nowNs, io, gated);
    OutcomesAfterEvents(s, DoBegin(s, h, sinceNs, nowNs, io, gated),
                        if io == FailsBefore then []
                        else BeginEvents(s.ledger, k, Begin(s.ledger, k, true, sinceNs, Ms(nowNs)).1));
  }

  lemma OutcomesAfterDispatch(s: System, h: nat)
    requires LedgerInv(s) && OutcomesInv(s) && CanMove(s, h, Dispatch)
    ensures OutcomesInv(DoDispatch(s, h))
  {
    var t := DoDispatch(s, h);
    OutcomesAfterEvents(s, t, if t.handlers[h].pc.Refusing? then [] else [CallStarted(|s.calls|, s.clockNs)]);
  }

  lemma OutcomesAfterRefusal(s: System, h: nat, nowNs: int, io: Io)
    requires CoreInv(s) && CallsInv(s) && OutcomesInv(s) && CanMove(s, h, PersistRefusal(nowNs, io))
    ensures OutcomesInv(DoMove(s, h, PersistRefusal(nowNs, io)))
  {
    var c := MoveOfRefusal(s, h, nowNs, io);
    OutcomesAfterUpdate(s, h, s.handlers[h].pc.id, None, c, 0, nowNs, io);
  }

  /** The result about to be persisted is what became of its call. */
  lemma ResultIsTrue(s: System, h: nat)
    requires CoreInv(s) && CallsInv(s) && At(s, h) && s.handlers[h].pc.Persisting?
    ensures var pc := s.handlers[h].pc; OutcomeTrue(s, Completed(pc.id, Some(pc.call), StateOf(pc.result.class_)))
  {
    assert HandlerOk(s.ledger, s.calls, s.clockNs, s.handlers[h]);
  }

  lemma OutcomesAfterPersist(s: System, h: nat, nowNs: int, io: Io)
    requires CoreInv(s) && CallsInv(s) && OutcomesInv(s) && CanMove(s, h, Persist(nowNs, io))
    ensures OutcomesInv(DoMove(s, h, Persist(nowNs, io)))
  {
    var pc := s.handlers[h].pc;
    ResultIsTrue(s, h);
    assert HandlerOk(s.ledger, s.calls, s.clockNs, s.handlers[h]);
    OutcomesAfterUpdate(s, h, pc.id, Some(pc.call), CompletionOf(pc.result, Ms(pc.notBeforeNs)),
                        pc.notBeforeNs, nowNs, io);
  }

  lemma OutcomesAfterSilent(s: System, h: nat, move: Move)
    requires LedgerInv(s) && OutcomesInv(s) && CanMove(s, h, move) && Silent(move)
    ensures OutcomesInv(DoMove(s, h, move))
  {
    MoveOfSilent(s, h, move);
    OutcomesAfterEvents(s, DoMove(s, h, move), []);
  }

  lemma OutcomesAfterNetwork(s: System, call: nat, status: CallStatus)
    requires LedgerInv(s) && OutcomesInv(s) && CanHappen(s, call, status)
    ensures OutcomesInv(s.(calls := s.calls[call := s.calls[call].(status := status)]))
  {
    OutcomesAfterEvents(s, s.(calls := s.calls[call := s.calls[call].(status := status)]), []);
  }

  lemma OutcomesMove(s: System, h: nat, move: Move)
    requires CoreInv(s) && CallsInv(s) && OutcomesInv(s) && CanMove(s, h, move)
    ensures OutcomesInv(DoMove(s, h, move))
  {
    match move
    case ReplayBegin(sinceNs, nowNs, io) => OutcomesAfterBegin(s, h, sinceNs, nowNs, io, false);
    case GatedBegin(sinceNs, nowNs, io) => OutcomesAfterBegin(s, h, sinceNs, nowNs, io, true);
    case Dispatch => OutcomesAfterDispatch(s, h);
    case PersistRefusal(nowNs, io) => OutcomesAfterRefusal(s, h, nowNs, io);
    case Persist(nowNs, io) => OutcomesAfterPersist(s, h, nowNs, io);
    case Respond => OutcomesAfterEvents(s, DoMove(s, h, move), [Responded(s.handlers[h].request, s.handlers[h].pc.out)]);
    case _ => OutcomesAfterSilent(s, h, move);
  }

  lemma OutcomesStep(s: System, a: Action)
    requires CoreInv(s) && CallsInv(s) && OutcomesInv(s)
    ensures OutcomesInv(Step(s, a))
  {
    if Enabled(s, a) {
      match a
      case Handle(h, move) => OutcomesMove(s, h, move);
      case Network(call, status) => OutcomesAfterNetwork(s, call, status);
      case _ => OutcomesAfterEvents(s, Do(s, a), []);
    }
  }
}
