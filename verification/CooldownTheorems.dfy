/** What holds in every run of Telegram's cooldowns: what is asked for is stored, and what is stored is waited for. */
module CooldownTheorems {
  import opened Prelude
  import opened DeliveryLedger
  import opened TelegramClient
  import opened ReplyTarget
  import opened Adapter
  import opened AdapterInvariants
  import opened AdapterRuns

  // ---------------------------------------------------------------- what is stored is waited for

  /** No provider call starts before the end of the cooldown that is stored at any earlier time. */
  lemma {:induction false} StoredCooldownIsRespected(s: System, acts: seq<Action>, b: nat)
    requires CoreInv(s) && |s.log| <= b < |Run(s, acts).log| && Run(s, acts).log[b].CallStarted?
    ensures s.ledger.cooldownMs * NS_PER_MS <= Run(s, acts).log[b].atNs
    decreases |acts|
  {
    if acts == [] {
    } else {
      var t := Step(s, acts[0]);
      CoreStep(s, acts[0]);
      LedgerStep(s, acts[0]);
      StartsOfStep(s, acts[0]);
      if b < |t.log| {
        RunGrows(t, acts[1..]);
      } else {
        StoredCooldownIsRespected(t, acts[1..], b);
      }
    }
  }

  /**
   In every run, a provider call starts neither before the end of the cooldown that
   the opened database held, nor a millisecond or more before the end of one
   persisted earlier in the run.
   */
  lemma CooldownsAreRespected(s: System, acts: seq<Action>, b: nat)
    requires Init(s) && b < |Run(s, acts).log| && Run(s, acts).log[b].CallStarted?
    ensures var log := Run(s, acts).log;
      && s.ledger.cooldownMs * NS_PER_MS <= log[b].atNs
      && forall a: nat :: a < b && log[a].CooldownPersisted? ==> log[a].untilNs - NS_PER_MS < log[b].atNs
  {
    InitInv(s);
    ReachableInv(s, acts);
    StoredCooldownIsRespected(s, acts, b);
  }

  // ---------------------------------------------------------------- what is asked for is stored

  /** A retryable result to persist, with a cooldown that ends then. */
  ghost predicate RetryPc(pc: Pc, untilNs: int) {
    pc.Persisting? && pc.notBeforeNs == untilNs &&
    var o := Normalize(CompletionOf(pc.result, Ms(untilNs)));
    o.Some? && o.value.state == Retryable && o.value.retryNotBeforeMs == Ms(untilNs) > 0
  }

  /** A result to persist, and no cooldown with it. */
  ghost predicate PlainPc(pc: Pc) {
    pc.Persisting? &&
    var o := Normalize(CompletionOf(pc.result, Ms(pc.notBeforeNs)));
    o.Some? && o.value.retryNotBeforeMs == 0
  }

  ghost predicate HasRetry(s: System, h: nat, untilNs: int) {
    At(s, h) && RetryPc(s.handlers[h].pc, untilNs)
  }

  /** Whether a refusal of Telegram's asks for a cooldown. */
  predicate AsksForRetry(x: Exchange) {
    x.Declined? && ClassifyFailure(x.httpStatus, x.errorCode) == ResultRetryable && RetryAfterDuration(x.retryAfter) > 0
  }

  /** A declined request, as the store will record it. */
  lemma DeclinedCompletion(target: Target, x: Exchange, nowNs: int, pc: Pc)
    requires target.Valid() && NS_PER_MS <= nowNs && x.Declined?
    requires pc.Persisting? && pc.result == ResultOf(target, x)
    requires pc.notBeforeNs == nowNs + (if pc.result.retryAfterNs > 0 then pc.result.retryAfterNs else 0)
    ensures if AsksForRetry(x) then RetryPc(pc, nowNs + RetryAfterDuration(x.retryAfter)) else PlainPc(pc)
  {
    CompletionIsStorable(target, x, Ms(pc.notBeforeNs));
  }

  /**
   A request that Telegram declined has a cooldown to persist exactly when Telegram
   asked for one, and then the one Go's Duration makes of it, counted from the
   moment the reply was processed; that is the one asked for up to the overflow.
   */
  lemma DeclineLeavesRetry(s: System, h: nat, x: Exchange, nowNs: int)
    requires CoreInv(s) && CanMove(s, h, Return(x, nowNs)) && x.Declined?
    ensures var t := DoMove(s, h, Return(x, nowNs));
      && t.clockNs == nowNs
      && (if AsksForRetry(x) then HasRetry(t, h, nowNs + RetryAfterDuration(x.retryAfter))
          else At(t, h) && PlainPc(t.handlers[h].pc))
    ensures RetryAfterDuration(x.retryAfter) == x.retryAfter * NS_PER_SECOND <==> 0 <= x.retryAfter <= 9_223_372_036
  {
    assert s.handlers[h].pc.target.Valid() by {
      assert HandlerOk(s.ledger, s.calls, s.clockNs, s.handlers[h]);
    }
    MoveOfReturn(s, h, x, nowNs);
    DeclinedCompletion(s.handlers[h].pc.target, x, nowNs, DoMove(s, h, Return(x, nowNs)).handlers[h].pc);
    RetryAfterIsExact(x.retryAfter);
  }

  /** Nothing but a crash, or the request itself, can come between a result and its persisting. */
  lemma {:induction false} ResultSurvives(s: System, acts: seq<Action>, h: nat)
    requires CoreInv(s) && At(s, h)
    requires forall i :: 0 <= i < |acts| ==> acts[i] != Crash && (acts[i].Handle? ==> acts[i].h != h)
    ensures At(Run(s, acts), h) && Run(s, acts).handlers[h] == s.handlers[h]
    decreases |acts|
  {
    if acts == [] {
    } else {
      CoreStep(s, acts[0]);
      StepsLeaveOthers(s, acts[0], h);
      ResultSurvives(Step(s, acts[0]), acts[1..], h);
    }
  }

  /** The last thing in the history is that this cooldown was persisted. */
  ghost predicate JustPersisted(s: System, untilNs: int) {
    s.log != [] && s.log[|s.log| - 1] == CooldownPersisted(untilNs)
  }

  lemma RetryIsRecorded(s: System, h: nat, untilNs: int, nowNs: int, io: Io)
    requires CoreInv(s) && HasRetry(s, h, untilNs) && io != FailsBefore
    ensures var pc := s.handlers[h].pc;
      var t := DoUpdate(s, h, pc.id, Some(pc.call), CompletionOf(pc.result, Ms(untilNs)), untilNs, nowNs, io);
      JustPersisted(t, untilNs) && t.ledger.cooldownMs == Max(s.ledger.cooldownMs, Ms(untilNs))
  {
    var (r, pc) := (s.handlers[h].request, s.handlers[h].pc);
    var c := CompletionOf(pc.result, Ms(untilNs));
    assert Holds(s.ledger, r, pc.id) by {
      assert HandlerOk(s.ledger, s.calls, s.clockNs, s.handlers[h]);
    }
    MoveOfUpdate(s, h, pc.id, Some(pc.call), c, untilNs, nowNs, io);
    UpdateOutcome(s.ledger, r, pc.id, c, Ms(nowNs));
  }

  /** Persisting it, whenever that is, extends the stored cooldown to that time. */
  lemma RetryIsLogged(s: System, h: nat, untilNs: int, nowNs: int, io: Io)
    requires CoreInv(s) && HasRetry(s, h, untilNs) && s.clockNs <= nowNs && io != FailsBefore
    ensures CanMove(s, h, Persist(nowNs, io))
    ensures var t := DoMove(s, h, Persist(nowNs, io));
      JustPersisted(t, untilNs) && t.ledger.cooldownMs == Max(s.ledger.cooldownMs, Ms(untilNs))
  {
    RetryIsRecorded(s, h, untilNs, nowNs, io);
  }

  // ---------------------------------------------------------------- a whole run

  lemma RunSplits(s: System, acts: seq<Action>, i: nat, j: nat)
    requires LedgerInv(s) && i <= j <= |acts|
    ensures Run(s, acts[..j]) == Run(Run(s, acts[..i]), acts[i..j])
  {
    assert acts[..j] == acts[..i] + acts[i..j];
    RunOfConcat(s, acts[..i], acts[i..j]);
  }

  lemma RunStepsAt(s: System, acts: seq<Action>, i: nat)
    requires LedgerInv(s) && i < |acts|
    ensures Run(s, acts[..i + 1]) == Step(Run(s, acts[..i]), acts[i])
  {
    assert acts[..i + 1] == acts[..i] + [acts[i]];
    RunOneMore(s, acts[..i], acts[i]);
  }

  lemma PersistInStep(t: System, a: Action, h: nat, untilNs: int, laterNs: int, io: Io)
    requires CoreInv(t) && HasRetry(t, h, untilNs) && t.clockNs <= laterNs && io != FailsBefore
    requires a == Handle(h, Persist(laterNs, io))
    ensures Ms(untilNs) <= Step(t, a).ledger.cooldownMs
  {
    RetryIsLogged(t, h, untilNs, laterNs, io);
  }

  lemma PersistAfterStep(s: System, acts: seq<Action>, j: nat, h: nat, untilNs: int, laterNs: int, io: Io)
    requires CoreInv(s) && j < |acts| && acts[j] == Handle(h, Persist(laterNs, io)) && io != FailsBefore
    requires HasRetry(Run(s, acts[..j]), h, untilNs) && Run(s, acts[..j]).clockNs <= laterNs
    ensures Ms(untilNs) <= Run(s, acts[..j + 1]).ledger.cooldownMs
  {
    RunGrows(s, acts[..j]);
    PersistInStep(Run(s, acts[..j]), acts[j], h, untilNs, laterNs, io);
    RunStepsAt(s, acts, j);
  }

  lemma RespectedFrom(s: System, acts: seq<Action>, j: nat, b: nat)
    requires CoreInv(s) && j <= |acts|
    requires |Run(s, acts[..j]).log| <= b < |Run(s, acts).log| && Run(s, acts).log[b].CallStarted?
    ensures Run(s, acts[..j]).ledger.cooldownMs * NS_PER_MS <= Run(s, acts).log[b].atNs
  {
    RunGrows(s, acts[..j]);
    RunSplits(s, acts, j, |acts|);
    assert acts[..|acts|] == acts;
    StoredCooldownIsRespected(Run(s, acts[..j]), acts[j..|acts|], b);
  }

  /** A request that has something to persist does so at step `j`; until then there is no crash. */
  ghost predicate PersistsAt(s: System, acts: seq<Action>, j: nat, h: nat)
    requires LedgerInv(s)
  {
    && j < |acts| && (forall m :: 0 <= m < j ==> acts[m] != Crash && (acts[m].Handle? ==> acts[m].h != h))
    && acts[j].Handle? && acts[j].h == h && acts[j].move.Persist? && acts[j].move.io != FailsBefore
    && Run(s, acts[..j]).clockNs <= acts[j].move.nowNs
  }

  /** If that is a retry time, the stored cooldown covers it from then on. */
  lemma RetryIsStored(s: System, acts: seq<Action>, j: nat, h: nat, untilNs: int)
    requires CoreInv(s) && HasRetry(s, h, untilNs) && PersistsAt(s, acts, j, h)
    ensures Ms(untilNs) <= Run(s, acts[..j + 1]).ledger.cooldownMs
  {
    ResultSurvives(s, acts[..j], h);
    PersistAfterStep(s, acts, j, h, untilNs, acts[j].move.nowNs, acts[j].move.io);
  }

  /**
   A retry time is honoured: once a request, in any reachable state, has one to
   persist, and has persisted it, no call for any delivery starts a millisecond or
   more before that time, for the rest of the run, across crashes and reopenings.
   */
  lemma RetryIsHonoured(s: System, acts: seq<Action>, j: nat, h: nat, untilNs: int, b: nat)
    requires CoreInv(s) && HasRetry(s, h, untilNs) && PersistsAt(s, acts, j, h)
    requires |Run(s, acts[..j + 1]).log| <= b < |Run(s, acts).log| && Run(s, acts).log[b].CallStarted?
    ensures untilNs - NS_PER_MS < Run(s, acts).log[b].atNs
  {
    RetryIsStored(s, acts, j, h, untilNs);
    RespectedFrom(s, acts, j + 1, b);
  }

  /** The state after a request that waits for its reply has got it. */
  ghost function AfterReply(s: System, h: nat, x: Exchange, nowNs: int): (t: System)
    requires LedgerInv(s) && CanMove(s, h, Return(x, nowNs))
    ensures LedgerInv(t)
  {
    LedgerMove(s, h, Return(x, nowNs));
    DoMove(s, h, Return(x, nowNs))
  }

  lemma ReplyKeepsCore(s: System, h: nat, x: Exchange, nowNs: int)
    requires CoreInv(s) && CanMove(s, h, Return(x, nowNs))
    ensures CoreInv(AfterReply(s, h, x, nowNs))
  {
    CoreStep(s, Handle(h, Return(x, nowNs)));
  }

  lemma ReplyHasRetry(s: System, h: nat, x: Exchange, nowNs: int)
    requires CoreInv(s) && CanMove(s, h, Return(x, nowNs)) && AsksForRetry(x)
    ensures HasRetry(AfterReply(s, h, x, nowNs), h, nowNs + RetryAfterDuration(x.retryAfter))
  {
    DeclineLeavesRetry(s, h, x, nowNs);
  }

  lemma ReplyLeavesRetry(s: System, h: nat, x: Exchange, nowNs: int) returns (t: System, untilNs: int)
    requires CoreInv(s) && CanMove(s, h, Return(x, nowNs)) && AsksForRetry(x)
    ensures t == AfterReply(s, h, x, nowNs) && untilNs == nowNs + RetryAfterDuration(x.retryAfter)
    ensures CoreInv(t) && HasRetry(t, h, untilNs)
  {
    t, untilNs := AfterReply(s, h, x, nowNs), nowNs + RetryAfterDuration(x.retryAfter);
    ReplyKeepsCore(s, h, x, nowNs);
    ReplyHasRetry(s, h, x, nowNs);
  }

  /**
   So is the one that a reply of Telegram's asks for, counted from the moment the
   reply was processed: the whole of retry_after, for any run that follows.
   */
  lemma RetryAfterIsHonoured(s: System, h: nat, x: Exchange, nowNs: int, acts: seq<Action>, j: nat, b: nat)
    requires CoreInv(s) && CanMove(s, h, Return(x, nowNs)) && AsksForRetry(x)
    requires var t := AfterReply(s, h, x, nowNs);
      && PersistsAt(t, acts, j, h)
      && |Run(t, acts[..j + 1]).log| <= b < |Run(t, acts).log| && Run(t, acts).log[b].CallStarted?
    ensures nowNs + RetryAfterDuration(x.retryAfter) - NS_PER_MS < Run(AfterReply(s, h, x, nowNs), acts).log[b].atNs
  {
    var t, untilNs := ReplyLeavesRetry(s, h, x, nowNs);
    RetryIsHonoured(t, acts, j, h, untilNs, b);
  }
}
