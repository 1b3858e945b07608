/** Runs of the adapter: what is invariant over them, how history and calls grow, and where new calls come from. */
module AdapterRuns {
  import opened Prelude
  import opened Wire
  import opened DeliveryLedger
  import opened LedgerLaws
  import opened TelegramClient
  import opened Adapter
  import opened AdapterInvariants
  import opened AdapterSafety
  import opened AdapterHistory
  import opened AdapterAnswers

  /** The system after any sequence of actions; impossible ones change nothing. */
  ghost function Run(s: System, acts: seq<Action>): (t: System)
    requires LedgerInv(s)
    ensures Evolves(s, t)
    decreases |acts|
  {
    if acts == [] then GrowsReflexive(s.ledger); s
    else
      LedgerStep(s, acts[0]);
      var t := Run(Step(s, acts[0]), acts[1..]);
      GrowsTransitive(s.ledger, Step(s, acts[0]).ledger, t.ledger);
      t
  }

  lemma GrowsReflexive(L: Ledger)
    ensures Grows(L, L)
  {
  }

  ghost predicate Inv(s: System) {
    CoreInv(s) && CallsInv(s) && CooldownInv(s) && AccountInv(s) && AnswersInv(s) && OutcomesInv(s) && FittingInv(s)
  }

  lemma {:induction false} RunKeepsInv(s: System, acts: seq<Action>)
    requires Inv(s)
    ensures Inv(Run(s, acts))
    decreases |acts|
  {
    if acts == [] {
    } else {
      StepKeepsInv(s, acts[0]);
      RunKeepsInv(Step(s, acts[0]), acts[1..]);
    }
  }

  lemma StepKeepsInv(s: System, a: Action)
    requires Inv(s)
    ensures Inv(Step(s, a))
  {
    CoreStep(s, a);
    CallsStep(s, a);
    CooldownStep(s, a);
    AccountStep(s, a);
    AnswersStep(s, a);
    OutcomesStep(s, a);
    FittingStep(s, a);
  }

  lemma InitInv(s: System)
    requires Init(s)
    ensures Inv(s)
  {
    forall id ensures AccountOk(s, id) {
    }
  }

  lemma ReachableInv(s: System, acts: seq<Action>)
    requires Init(s)
    ensures Inv(Run(s, acts))
  {
    InitInv(s);
    RunKeepsInv(s, acts);
  }

  lemma {:induction false} RunOfConcat(s: System, acts: seq<Action>, more: seq<Action>)
    requires LedgerInv(s)
    ensures Run(s, acts + more) == Run(Run(s, acts), more)
    decreases |acts|
  {
    if acts == [] {
      assert acts + more == more;
    } else {
      LedgerStep(s, acts[0]);
      RunOfConcat(Step(s, acts[0]), acts[1..], more);
      assert (acts + more)[1..] == acts[1..] + more;
    }
  }

  lemma RunOneMore(s: System, acts: seq<Action>, a: Action)
    requires LedgerInv(s)
    ensures Run(s, acts + [a]) == Step(Run(s, acts), a)
  {
    RunOfConcat(s, acts, [a]);
    var t := Run(s, acts);
    LedgerStep(t, a);
    assert Run(Step(t, a), [a][1..]) == Step(t, a);
  }

  // ---------------------------------------------------------------- who is left alone

  lemma MovesLeaveOthers(s: System, h: nat, move: Move, g: nat)
    requires Consistent(s.ledger) && CanMove(s, h, move) && g in s.handlers && g != h
    ensures var t := DoMove(s, h, move); t.up && g in t.handlers && t.handlers[g] == s.handlers[g]
  {
    var pc := s.handlers[h].pc;
    match move
    case ReplayBegin(sinceNs, nowNs, io) => MoveOfBegin(s, h, sinceNs, nowNs, io, false);
    case GatedBegin(sinceNs, nowNs, io) => MoveOfBegin(s, h, sinceNs, nowNs, io, true);
    case PersistRefusal(nowNs, io) => MoveOfUpdate(s, h, pc.id, None, ROUTING_MISMATCH, 0, nowNs, io);
    case Persist(nowNs, io) =>
      MoveOfUpdate(s, h, pc.id, Some(pc.call), CompletionOf(pc.result, Ms(pc.notBeforeNs)), pc.notBeforeNs, nowNs, io);
    case Dispatch => MoveOfDispatch(s, h);
    case Respond =>
    case _ => MoveOfSilent(s, h, move);
  }

  lemma StepsLeaveOthers(s: System, a: Action, g: nat)
    requires Consistent(s.ledger) && At(s, g) && a != Crash && (a.Handle? ==> a.h != g)
    ensures var t := Step(s, a); At(t, g) && t.handlers[g] == s.handlers[g]
  {
    if a.Handle? && Enabled(s, a) {
      MovesLeaveOthers(s, a.h, a.move, g);
    }
  }

  // ---------------------------------------------------------------- growth

  /** No call starts: at most other events are added, and calls decided. */
  ghost predicate NothingStarts(s: System, t: System) {
    && CallsGrow(s.calls, t.calls) && |t.calls| == |s.calls| && s.log <= t.log
    && forall j: nat :: |s.log| <= j < |t.log| ==> !t.log[j].CallStarted?
  }

  lemma NothingStartsInBegin(s: System, h: nat, sinceNs: int, nowNs: int, io: Io, gated: bool)
    requires Consistent(s.ledger) && h in s.handlers
    ensures NothingStarts(s, DoBegin(s, h, sinceNs, nowNs, io, gated))
  {
    MoveOfBegin(s, h, sinceNs, nowNs, io, gated);
  }

  lemma NothingStartsInUpdate(s: System, h: nat, id: Id, call: Option<nat>, c: Completion, notBeforeNs: int, nowNs: int, io: Io)
    requires h in s.handlers
    ensures NothingStarts(s, DoUpdate(s, h, id, call, c, notBeforeNs, nowNs, io))
  {
    MoveOfUpdate(s, h, id, call, c, notBeforeNs, nowNs, io);
  }

  lemma OnlyDispatchStarts(s: System, h: nat, move: Move)
    requires Consistent(s.ledger) && CanMove(s, h, move) && !move.Dispatch?
    ensures NothingStarts(s, DoMove(s, h, move))
  {
    var pc := s.handlers[h].pc;
    match move
    case ReplayBegin(sinceNs, nowNs, io) => NothingStartsInBegin(s, h, sinceNs, nowNs, io, false);
    case GatedBegin(sinceNs, nowNs, io) => NothingStartsInBegin(s, h, sinceNs, nowNs, io, true);
    case PersistRefusal(nowNs, io) => NothingStartsInUpdate(s, h, pc.id, None, ROUTING_MISMATCH, 0, nowNs, io);
    case Persist(nowNs, io) =>
      NothingStartsInUpdate(s, h, pc.id, Some(pc.call), CompletionOf(pc.result, Ms(pc.notBeforeNs)), pc.notBeforeNs, nowNs, io);
    case Respond =>
    case _ => MoveOfSilent(s, h, move);
  }

  /** A call that starts is for a delivery that is being sent, outside the stored cooldown. */
  ghost predicate StartsAreDue(s: System, t: System) {
    && CallsGrow(s.calls, t.calls) && s.log <= t.log
    && (forall k: nat :: |s.calls| <= k < |t.calls| ==>
          t.calls[k].id in s.ledger.entries && s.ledger.entries[t.calls[k].id].row.state == Sending)
    && (forall j: nat :: |s.log| <= j < |t.log| && t.log[j].CallStarted? ==>
          s.up && s.ledger.cooldownMs * NS_PER_MS <= t.log[j].atNs)
    && (|s.calls| < |t.calls| ==> s.up)
  }

  lemma DispatchIsDue(s: System, h: nat)
    requires CoreInv(s) && CanMove(s, h, Dispatch)
    ensures StartsAreDue(s, DoDispatch(s, h))
  {
    MoveOfDispatch(s, h);
    assert HandlerOk(s.ledger, s.calls, s.clockNs, s.handlers[h]);
  }

  lemma StartsOfStep(s: System, a: Action)
    requires CoreInv(s)
    ensures StartsAreDue(s, Step(s, a))
  {
    if Enabled(s, a) {
      match a
      case Handle(h, move) =>
        if move.Dispatch? {
          DispatchIsDue(s, h);
        } else {
          OnlyDispatchStarts(s, h, move);
        }
      case _ =>
    }
  }

  /** History is only added to, and calls keep what is known of them. */
  lemma {:induction false} RunGrows(s: System, acts: seq<Action>)
    requires CoreInv(s)
    ensures CoreInv(Run(s, acts)) && CallsGrow(s.calls, Run(s, acts).calls) && s.log <= Run(s, acts).log
    decreases |acts|
  {
    if acts == [] {
    } else {
      CoreStep(s, acts[0]);
      StartsOfStep(s, acts[0]);
      RunGrows(Step(s, acts[0]), acts[1..]);
    }
  }
}
