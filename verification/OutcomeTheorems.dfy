/** From Telegram's reply to the row that is stored and the answer Orka gets: what each reply comes to. */
module OutcomeTheorems {
  import opened Prelude
  import opened Wire
  import opened SafeText
  import opened MessageLaws
  import opened DeliveryLedger
  import opened TransactionLaws
  import opened TelegramClient
  import opened ReplyTarget
  import opened Adapter
  import opened AdapterInvariants
  import opened AdapterRuns
  import opened CooldownTheorems

  // ---------------------------------------------------------------- what a reply should come to

  function OrElse(message: string, other: string): string {
    if message == "" then other else message
  }

  /** Why a request was not confirmed. */
  function Reason(x: Exchange): string {
    match x
    case NotEncoded => "request could not be encoded"
    case TransportFailed(wrote, reason) => if wrote then reason else "request failed before it was sent"
    case Unreadable(reason) => reason
    case Declined(_, _, reason, _) => OrElse(reason, "Telegram rejected the request")
    case Replied(None) => "response result was invalid"
    case Replied(Some(_)) => "invalid message result"
  }

  /** The state a reply puts the delivery in. */
  function Settles(target: Target, x: Exchange): DeliveryState {
    if Confirms(target, x) then Delivered
    else if x.NotEncoded? then Permanent
    else if x.TransportFailed? && !x.wrote then Retryable
    else if x.Declined? && ClassifyFailure(x.httpStatus, x.errorCode) == ResultRetryable then Retryable
    else if x.Declined? && ClassifyFailure(x.httpStatus, x.errorCode) == ResultNonRetryable then Permanent
    else Unknown
  }

  /** The answer Orka should get for it. */
  function Expected(target: Target, x: Exchange): DeliveryResponse {
    if Confirms(target, x) then
      DeliveryResponse(StatusDelivered,
                       "telegram:" + Decimal.FormatInt(target.chatId) + ":" + Decimal.FormatInt(x.message.value.messageId), "")
    else
      var message := NormalizeSafeMessage(Reason(x));
      match Settles(target, x)
      case Retryable => DeliveryResponse(StatusRetryableError, "", OrElse(message, "delivery is already in progress"))
      case Permanent => DeliveryResponse(StatusNonRetryableError, "", OrElse(message, "delivery could not be completed"))
      case _ =>
        DeliveryResponse(StatusNonRetryableError, "", OrElse(message, "delivery outcome is unknown after adapter restart"))
  }

  /** A reason that is clean and short, as the client's own are, is told as it stands. */
  lemma CleanReasonIsTold(target: Target, x: Exchange)
    requires !Confirms(target, x) && Reason(x) != ""
    requires Trimmed(Reason(x)) && Safe(Reason(x)) && ByteLen(Reason(x)) <= 1024
    ensures Expected(target, x).message == Reason(x)
  {
    SafeMessageIsLeftAlone(Reason(x));
  }

  // ---------------------------------------------------------------- what it does come to

  lemma DeliveredMessageIsStored(target: Target, messageId: int)
    requires target.Valid() && IsInt64(messageId)
    ensures TrimSpace(ProviderMessageId(target, messageId)) == ProviderMessageId(target, messageId)
  {
    ProviderMessageIdIsStored(target, messageId);
  }

  lemma ResultIsReason(target: Target, x: Exchange)
    ensures StateOf(ResultOf(target, x).class_) == Settles(target, x)
    ensures !Confirms(target, x) ==> ResultOf(target, x).description == Reason(x)
  {
    ResultIsExact(target, x);
  }

  lemma CompletionIsReason(target: Target, x: Exchange, notBeforeMs: int)
    ensures var c := CompletionOf(ResultOf(target, x), notBeforeMs);
      && c.state == Settles(target, x)
      && (if Confirms(target, x) then c.providerMessageId == ProviderMessageId(target, x.message.value.messageId)
          else c.safeMessage == Reason(x))
  {
    ResultIsReason(target, x);
    ResultIsExact(target, x);
  }

  /** What a row with the columns of `c` is answered as. */
  lemma RowAnswers(row: Row, c: Completion)
    requires BearsResult(row, c) && c.state != Sending
    ensures var message := NormalizeSafeMessage(c.safeMessage);
      Replay(row) ==
        match c.state
        case Delivered => DeliveryResponse(StatusDelivered, TrimSpace(c.providerMessageId), "")
        case Retryable => DeliveryResponse(StatusRetryableError, "", OrElse(message, "delivery is already in progress"))
        case Permanent => DeliveryResponse(StatusNonRetryableError, "", OrElse(message, "delivery could not be completed"))
        case _ =>
          DeliveryResponse(StatusNonRetryableError, "", OrElse(message, "delivery outcome is unknown after adapter restart"))
  {
  }

  /** What a row of any state says: its status, its message ID if it was delivered, and its own message before any other. */
  lemma WhatARowSays(row: Row)
    ensures var response := Replay(row);
      && (response.status == StatusDelivered <==> row.state == Delivered)
      && (response.status == StatusRetryableError <==> row.state == Sending || row.state == Retryable)
      && (response.status == StatusNonRetryableError <==> row.state == Permanent || row.state == Unknown)
      && response.providerMessageId == (if row.state == Delivered then row.providerMessageId else "")
      && (row.state != Delivered && row.safeMessage != "" ==> response.message == row.safeMessage)
      && (row.state != Delivered && row.safeMessage == "" ==>
            response.message == if row.state == Sending || row.state == Retryable then "delivery is already in progress"
                                else "delivery could not be completed")
      && (row.state == Delivered ==> response.message == "")
  {
  }

  /** A row that holds the result of a reply says what Orka should be told. */
  lemma RowTells(row: Row, target: Target, x: Exchange, notBeforeMs: int)
    requires target.Valid() && (x.Replied? && x.message.Some? ==> IsInt64(x.message.value.messageId))
    requires BearsResult(row, CompletionOf(ResultOf(target, x), notBeforeMs))
    ensures row.state == Settles(target, x) && Replay(row) == Expected(target, x)
  {
    CompletionIsReason(target, x, notBeforeMs);
    RowAnswers(row, CompletionOf(ResultOf(target, x), notBeforeMs));
    if Confirms(target, x) {
      DeliveredMessageIsStored(target, x.message.value.messageId);
    }
  }

  /** The request holds what a reply of `x` left to persist. */
  ghost predicate Holding(s: System, h: nat, target: Target, x: Exchange) {
    && At(s, h) && s.handlers[h].pc.Persisting? && s.handlers[h].pc.result == ResultOf(target, x)
    && target.Valid() && (x.Replied? && x.message.Some? ==> IsInt64(x.message.value.messageId))
  }

  /** The pieces of a request that has a result to persist. */
  lemma HoldingIsStorable(s: System, h: nat)
    requires CoreInv(s) && At(s, h) && s.handlers[h].pc.Persisting?
    ensures var (r, pc) := (s.handlers[h].request, s.handlers[h].pc);
      Holds(s.ledger, r, pc.id) && Normalize(CompletionOf(pc.result, Ms(pc.notBeforeNs))).Some?
  {
    assert HandlerOk(s.ledger, s.calls, s.clockNs, s.handlers[h]);
  }

  lemma UpdateStepTells(s: System, h: nat, id: Id, call: nat, c: Completion, notBeforeNs: int, nowNs: int, io: Io,
                        target: Target, x: Exchange)
    requires h in s.handlers && Holds(s.ledger, s.handlers[h].request, id) && Normalize(c).Some?
    requires c == CompletionOf(ResultOf(target, x), Ms(notBeforeNs))
    requires target.Valid() && (x.Replied? && x.message.Some? ==> IsInt64(x.message.value.messageId))
    ensures var t := DoUpdate(s, h, id, Some(call), c, notBeforeNs, nowNs, io);
      && h in t.handlers && id in t.ledger.entries
      && (if io == FailsBefore then t.ledger == s.ledger && t.ledger.entries[id].row.state == Sending
          else t.ledger.entries[id].row.state == Settles(target, x) && t.ledger.entries[id].row.updatedMs == Ms(nowNs))
      && (if io == Commits then t.handlers[h].pc.Replying? && t.handlers[h].pc.out.response == Expected(target, x)
          else t.handlers[h].pc == Replying(Outgoing(STORE_UNAVAILABLE, NoAnswer), true))
  {
    MoveOfUpdate(s, h, id, Some(call), c, notBeforeNs, nowNs, io);
    UpdateTells(s.ledger, s.handlers[h].request, id, c, Ms(nowNs), target, x, Ms(notBeforeNs));
  }

  /** The transaction that stores it: nothing if it fails, else the row; and it is told only if it is known to have worked. */
  lemma PersistTells(s: System, h: nat, target: Target, x: Exchange, nowNs: int, io: Io)
    requires CoreInv(s) && Holding(s, h, target, x) && s.clockNs <= nowNs
    ensures CanMove(s, h, Persist(nowNs, io))
    ensures var (t, id) := (DoMove(s, h, Persist(nowNs, io)), s.handlers[h].pc.id);
      && h in t.handlers && id in t.ledger.entries && id in s.ledger.entries
      && (if io == FailsBefore then t.ledger == s.ledger && t.ledger.entries[id].row.state == Sending
          else t.ledger.entries[id].row.state == Settles(target, x) && t.ledger.entries[id].row.updatedMs == Ms(nowNs))
      && (if io == Commits then t.handlers[h].pc.Replying? && t.handlers[h].pc.out.response == Expected(target, x)
          else t.handlers[h].pc == Replying(Outgoing(STORE_UNAVAILABLE, NoAnswer), true))
  {
    var pc := s.handlers[h].pc;
    HoldingIsStorable(s, h);
    UpdateStepTells(s, h, pc.id, pc.call, CompletionOf(pc.result, Ms(pc.notBeforeNs)), pc.notBeforeNs, nowNs, io, target, x);
  }

  lemma UpdateTells(L: Ledger, r: DeliveryRequest, id: Id, c: Completion, nowMs: int, target: Target, x: Exchange,
                    notBeforeMs: int)
    requires Holds(L, r, id) && Normalize(c).Some? && c == CompletionOf(ResultOf(target, x), notBeforeMs)
    requires target.Valid() && (x.Replied? && x.message.Some? ==> IsInt64(x.message.value.messageId))
    ensures var (M, result) := Update(L, id, LogicalDigest(r), c, nowMs);
      && result.Recorded? && id in M.entries && result.record.row == M.entries[id].row
      && M.entries[id].row.state == Settles(target, x) && M.entries[id].row.updatedMs == nowMs
      && Replay(result.record.row) == Expected(target, x)
  {
    UpdateOutcome(L, r, id, c, nowMs);
    CompletedWhen(Update(L, id, LogicalDigest(r), c, nowMs).0.entries[id].row, c);
    RowTells(Update(L, id, LogicalDigest(r), c, nowMs).0.entries[id].row, target, x, notBeforeMs);
  }

  /** What is on record of it: what its call came to, and the cooldown it brings. */
  lemma PersistIsLogged(s: System, h: nat, target: Target, x: Exchange, nowNs: int, io: Io)
    requires CoreInv(s) && Holding(s, h, target, x) && s.clockNs <= nowNs && io != FailsBefore
    ensures CanMove(s, h, Persist(nowNs, io))
    ensures var (t, pc) := (DoMove(s, h, Persist(nowNs, io)), s.handlers[h].pc);
      t.log == s.log + [Completed(pc.id, Some(pc.call), Settles(target, x))]
               + (if Settles(target, x) == Retryable && ResultOf(target, x).retryAfterNs > 0
                  then [CooldownPersisted(pc.notBeforeNs)] else [])
  {
    var (r, pc) := (s.handlers[h].request, s.handlers[h].pc);
    var c := CompletionOf(pc.result, Ms(pc.notBeforeNs));
    HoldingIsStorable(s, h);
    MoveOfUpdate(s, h, pc.id, Some(pc.call), c, pc.notBeforeNs, nowNs, io);
    UpdateIsLogged(s.ledger, r, pc.id, c, Ms(nowNs), target, x, Some(pc.call), pc.notBeforeNs);
  }

  lemma UpdateIsLogged(L: Ledger, r: DeliveryRequest, id: Id, c: Completion, nowMs: int, target: Target, x: Exchange,
                       call: Option<nat>, notBeforeNs: int)
    requires Holds(L, r, id) && Normalize(c).Some? && c == CompletionOf(ResultOf(target, x), Ms(notBeforeNs))
    ensures UpdateEvents(id, call, notBeforeNs, Update(L, id, LogicalDigest(r), c, nowMs).1) ==
            [Completed(id, call, Settles(target, x))]
            + (if Settles(target, x) == Retryable && ResultOf(target, x).retryAfterNs > 0
               then [CooldownPersisted(notBeforeNs)] else [])
  {
    UpdateOutcome(L, r, id, c, nowMs);
    ResultIsReason(target, x);
    var row := Update(L, id, LogicalDigest(r), c, nowMs).0.entries[id].row;
    CompletedWhen(row, c);
    InvalidCompletions(c);
  }

  // ---------------------------------------------------------------- a whole run

  lemma ReplyIsHeld(s: System, h: nat, x: Exchange, nowNs: int)
    requires CoreInv(s) && CanMove(s, h, Return(x, nowNs))
    ensures Holding(AfterReply(s, h, x, nowNs), h, s.handlers[h].pc.target, x)
    ensures AfterReply(s, h, x, nowNs).handlers[h].pc.id == s.handlers[h].pc.id
  {
    assert s.handlers[h].pc.target.Valid() by {
      assert HandlerOk(s.ledger, s.calls, s.clockNs, s.handlers[h]);
    }
    MoveOfReturn(s, h, x, nowNs);
  }

  /** The request has the answer for `x`, and its delivery's row the state. */
  ghost predicate Answered(s: System, h: nat, id: Id, target: Target, x: Exchange) {
    && At(s, h) && s.handlers[h].pc.Replying? && s.handlers[h].pc.out.response == Expected(target, x)
    && id in s.ledger.entries && s.ledger.entries[id].row.state == Settles(target, x)
  }

  lemma PersistInStep(t: System, a: Action, h: nat, target: Target, x: Exchange, nowNs: int)
    requires CoreInv(t) && Holding(t, h, target, x) && t.clockNs <= nowNs && a == Handle(h, Persist(nowNs, Commits))
    ensures Answered(Step(t, a), h, t.handlers[h].pc.id, target, x)
  {
    PersistTells(t, h, target, x, nowNs, Commits);
    MoveOfUpdate(t, h, t.handlers[h].pc.id, Some(t.handlers[h].pc.call),
                 CompletionOf(t.handlers[h].pc.result, Ms(t.handlers[h].pc.notBeforeNs)),
                 t.handlers[h].pc.notBeforeNs, nowNs, Commits);
  }

  lemma HeldIsTold(s: System, acts: seq<Action>, j: nat, h: nat, target: Target, x: Exchange)
    requires CoreInv(s) && Holding(s, h, target, x) && PersistsAt(s, acts, j, h) && acts[j].move.io == Commits
    ensures Answered(Run(s, acts[..j + 1]), h, s.handlers[h].pc.id, target, x)
  {
    ResultSurvives(s, acts[..j], h);
    RunGrows(s, acts[..j]);
    RunStepsAt(s, acts, j);
    PersistInStep(Run(s, acts[..j]), acts[j], h, target, x, acts[j].move.nowNs);
  }

  /**
   Whatever reply a request gets, in any reachable state: when it has persisted the
   result, with any run of the others in between, its delivery is in the state that
   reply stands for, and Orka's answer is the one for that reply.
   */
  lemma ReplyReachesOrka(s: System, h: nat, x: Exchange, nowNs: int, acts: seq<Action>, j: nat)
    requires CoreInv(s) && CanMove(s, h, Return(x, nowNs))
    requires PersistsAt(AfterReply(s, h, x, nowNs), acts, j, h) && acts[j].move.io == Commits
    ensures Answered(Run(AfterReply(s, h, x, nowNs), acts[..j + 1]), h, s.handlers[h].pc.id, s.handlers[h].pc.target, x)
  {
    ReplyKeepsCore(s, h, x, nowNs);
    ReplyIsHeld(s, h, x, nowNs);
    HeldIsTold(AfterReply(s, h, x, nowNs), acts, j, h, s.handlers[h].pc.target, x);
  }
}
