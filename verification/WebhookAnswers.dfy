/** What Telegram is told about an update, exactly: step by step, and what a refusal to take it means. */
module WebhookAnswers {
  import opened Prelude
  import opened Routing
  import opened UpdateStore
  import opened Webhook
  import opened WebhookTheorems

  /**
   On arrival: what is of an ignored kind is acknowledged, what is invalid refused,
   and the rest waits for the lock of its chat.
   */
  lemma ArrivalIsExact(s: System, u: TelegramUpdate)
    requires u.message.Some? ==> IsInt64(u.message.value.chat.id)
    ensures Received(s, u).update == u
    ensures match MapUpdate(s.botId, u, s.tables)
            case Unsupported => Received(s, u).pc == Answering(AnswerOk, false)
            case Invalid => Received(s, u).pc == Answering(AnswerBadRequest, false)
            case Admitted(_) =>
              && Received(s, u).pc == AtLock && u.message.Some?
              && Received(s, u).lock == LockIndex(u.message.value.chat.id)
  {
    if MapUpdate(s.botId, u, s.tables).Admitted? {
      ContextIsChat(s.botId, u, s.tables);
    }
  }

  /**
   In the store: other content under the update's ID is a conflict; an update that was
   acknowledged is taken; any other is passed on to Orka; and Telegram is asked to try
   again only if the transaction failed.
   */
  lemma CreateIsExact(s: System, h: nat, io: Io)
    requires Inv(s) && CanMove(s, h, Create(io))
    ensures var (t, u) := (DoMove(s, h, Create(io)), s.handlers[h].update);
      && h in t.handlers && t.handlers[h].pc ==
         (if io == FailsBefore then Answering(AnswerUnavailable, true)
          else if Refuted(s.inbox, u) then Answering(AnswerConflict, true)
          else if io == FailsAfter then Answering(AnswerUnavailable, true)
          else if Acked(s.inbox, u) then Answering(AnswerOk, true)
          else Posting)
      && t.inbox == (if io == FailsBefore || u.updateId in s.inbox then s.inbox
                     else s.inbox[u.updateId := UpdateRow(OfUpdate(u), None)])
  {
    assert HandlerOk(s, s.handlers[h]);
  }

  /** To Orka: a request waits for its chat's lock, and its call is on record before the reply is. */
  lemma PostingIsExact(s: System, h: nat)
    requires s.up && h in s.handlers
    ensures CanMove(s, h, Acquire) <==> s.handlers[h].pc.AtLock? && s.handlers[h].lock !in s.locks
    ensures CanMove(s, h, Acquire) ==>
              var t := DoMove(s, h, Acquire);
              t.locks == s.locks[s.handlers[h].lock := h] && h in t.handlers && t.handlers[h].pc == Admitting
    ensures CanMove(s, h, Post) ==>
              var t := DoMove(s, h, Post);
              && t.log == s.log + [IngressCalled(s.handlers[h].update)]
              && h in t.handlers && t.handlers[h].pc == AwaitingIngress && t.inbox == s.inbox
  {
  }

  /** From Orka: its acknowledgement goes on record, and without one Telegram is asked to try again. */
  lemma ReceiveIsExact(s: System, h: nat, reply: Ingress)
    requires CanMove(s, h, Receive(reply))
    ensures var t := DoMove(s, h, Receive(reply));
      h in t.handlers && t.handlers[h].pc ==
        match reply
        case IngressFailed => Answering(AnswerUnavailable, true)
        case Acknowledged(body) => Recording(body)
    ensures reply.Acknowledged? ==>
              DoMove(s, h, Receive(reply)).log == s.log + [IngressAnswered(s.handlers[h].update, reply.body)]
  {
  }

  /** On record: the acknowledgement is stored and the update taken, unless the transaction failed or the body has no form to store. */
  lemma RecordIsExact(s: System, h: nat, io: Io)
    requires Inv(s) && CanMove(s, h, Record(io))
    ensures var (t, u, body) := (DoMove(s, h, Record(io)), s.handlers[h].update, s.handlers[h].pc.body);
      && h in t.handlers && t.handlers[h].pc ==
         (if io == Commits && Storable(body) then Answering(AnswerOk, true) else Answering(AnswerUnavailable, true))
      && t.inbox == (if io != FailsBefore && Storable(body) then s.inbox[u.updateId := UpdateRow(OfUpdate(u), body)]
                     else s.inbox)
      && t.log == s.log + (if io != FailsBefore && Storable(body) then [AckSaved(u, body)] else [])
  {
    assert HandlerOk(s, s.handlers[h]);
  }

  /** What a request has come to is what Telegram is told. */
  lemma FinishTells(s: System, h: nat)
    requires CanMove(s, h, Finish)
    ensures DoMove(s, h, Finish).log == s.log + [Told(s.handlers[h].update, s.handlers[h].pc.answer)]
    ensures h !in DoMove(s, h, Finish).handlers
    ensures s.handlers[h].pc.locked ==> s.handlers[h].lock !in DoMove(s, h, Finish).locks
  {
  }

  // ---------------------------------------------------------------- a refusal to take an update

  /** A transaction that failed, or was not known to have worked; an ingress call that did; or a body one cannot store. */
  predicate Trouble(move: Move) {
    match move
    case Create(io) => io != Commits
    case Record(io) => io != Commits
    case Receive(IngressFailed) => true
    case Receive(Acknowledged(body)) => !Storable(body)
    case _ => false
  }

  /** The request is not about to ask Telegram to try again. */
  ghost predicate CalmPc(pc: Pc) {
    match pc
    case Answering(answer, _) => answer != AnswerUnavailable
    case Recording(body) => Storable(body)
    case _ => true
  }

  ghost predicate Calm(s: System, h: nat) {
    h in s.handlers ==> CalmPc(s.handlers[h].pc)
  }

  lemma ArrivalIsCalm(s: System, u: TelegramUpdate)
    ensures CalmPc(Received(s, u).pc)
  {
  }

  lemma NeverRereading(s: System, h: nat)
    requires Inv(s) && h in s.handlers
    ensures !s.handlers[h].pc.Rereading?
  {
    assert HandlerOk(s, s.handlers[h]);
  }

  lemma CalmMove(s: System, h: nat, move: Move)
    requires Inv(s) && Calm(s, h) && CanMove(s, h, move) && !Trouble(move)
    ensures Calm(DoMove(s, h, move), h)
  {
    NeverRereading(s, h);
    match move
    case Create(io) => CreateIsExact(s, h, io);
    case Record(io) => RecordIsExact(s, h, io);
    case Receive(reply) => ReceiveIsExact(s, h, reply);
    case _ =>
  }

  lemma CalmStep(s: System, a: Action, h: nat)
    requires Inv(s) && Calm(s, h) && (a.Handle? && a.h == h ==> !Trouble(a.move))
    ensures Calm(Step(s, a), h)
  {
    if !Enabled(s, a) {
    } else if a.Handle? && a.h == h {
      CalmMove(s, h, a.move);
    } else if a.Arrive? && a.h == h {
      ArrivalIsCalm(s, a.update);
    } else if h in Step(s, a).handlers {
      OthersStay(s, a, h);
    }
  }

  ghost predicate Troubled(acts: seq<Action>, h: nat) {
    exists i :: 0 <= i < |acts| && acts[i].Handle? && acts[i].h == h && Trouble(acts[i].move)
  }

  lemma {:induction false} CalmRun(s: System, acts: seq<Action>, h: nat)
    requires Inv(s) && Calm(s, h) && !Troubled(acts, h)
    ensures Calm(Run(s, acts), h)
  {
    if acts == [] {
    } else {
      var front := acts[..|acts| - 1];
      assert !Troubled(front, h) by {
        assert forall i :: 0 <= i < |front| ==> front[i] == acts[i];
      }
      CalmRun(s, front, h);
      RunKeepsInv(s, front);
      CalmStep(Run(s, front), acts[|acts| - 1], h);
    }
  }

  /**
   In every run, Telegram is asked to try again only by a request one of whose own
   transactions failed, whose call to Orka failed, or whose acknowledgement has no
   form that can be stored.
   */
  lemma UnavailableMeansTrouble(s: System, acts: seq<Action>, h: nat)
    requires Init(s) && CanMove(Run(s, acts), h, Finish) && Run(s, acts).handlers[h].pc.answer == AnswerUnavailable
    ensures Troubled(acts, h)
  {
    if !Troubled(acts, h) {
      CalmRun(s, acts, h);
    }
  }

  /** A request that meets no trouble ends by taking its update, or by saying why it never will be. */
  lemma UntroubledRequestsDecide(s: System, acts: seq<Action>, h: nat)
    requires Init(s) && CanMove(Run(s, acts), h, Finish) && !Troubled(acts, h)
    ensures var (t, u, answer) := (Run(s, acts), Run(s, acts).handlers[h].update, Run(s, acts).handlers[h].pc.answer);
      && answer in {AnswerOk, AnswerConflict, AnswerBadRequest}
      && (answer == AnswerConflict ==> Refuted(t.inbox, u))
      && (answer == AnswerOk ==> Acked(t.inbox, u) || MapUpdate(t.botId, u, t.tables).Unsupported?)
  {
    CalmRun(s, acts, h);
    RunKeepsInv(s, acts);
    assert HandlerOk(Run(s, acts), Run(s, acts).handlers[h]);
  }
}
