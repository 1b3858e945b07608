/** What holds in every run of the webhook: concurrent requests, failed commits, crashes and restarts included. */
module WebhookTheorems {
  import opened Prelude
  import opened Routing
  import opened UpdateStore
  import opened Webhook

  // ---------------------------------------------------------------- the invariant

  /** The update is on record with this very content. */
  ghost predicate OnRecord(I: Inbox, u: TelegramUpdate) {
    u.updateId in I && I[u.updateId].digest == OfUpdate(u)
  }

  ghost predicate Acked(I: Inbox, u: TelegramUpdate) {
    OnRecord(I, u) && I[u.updateId].HasResponse()
  }

  ghost predicate Refuted(I: Inbox, u: TelegramUpdate) {
    u.updateId in I && I[u.updateId].digest != OfUpdate(u)
  }

  /** A lock is a function of the content, so equal content means equal locks. */
  ghost predicate LockFits(s: System, k: Handler) {
    k.lock == Received(s, k.update).lock
  }

  /** A true answer, and one that stays true. */
  ghost predicate AnswerTrue(s: System, u: TelegramUpdate, answer: Answer) {
    match answer
    case AnswerOk => MapUpdate(s.botId, u, s.tables).Unsupported? || Acked(s.inbox, u)
    case AnswerConflict => Received(s, u).pc.AtLock? && Refuted(s.inbox, u)
    case AnswerBadRequest => !Received(s, u).pc.AtLock?
    case AnswerUnavailable => true
  }

  ghost predicate HandlerOk(s: System, k: Handler) {
    && LockFits(s, k)
    && (!k.pc.Answering? ==> Received(s, k.update).pc.AtLock?)
    && (Pending(k.pc) ==> OnRecord(s.inbox, k.update) && !s.inbox[k.update.updateId].HasResponse())
    && (k.pc.Recording? ==> IngressAnswered(k.update, k.pc.body) in s.log)
    && !k.pc.Rereading?
    && (k.pc.Answering? ==> AnswerTrue(s, k.update, k.pc.answer))
  }

  ghost predicate EventOk(s: System, i: nat)
    requires i < |s.log|
  {
    match s.log[i]
    case AckSaved(u, body) =>
      && OnRecord(s.inbox, u) && Storable(body) && s.inbox[u.updateId].response == body
      && IngressAnswered(u, body) in s.log[..i]
    case Told(u, answer) => AnswerTrue(s, u, answer)
    case _ => true
  }

  /** No call follows the acknowledgement of its update. */
  ghost predicate CallsPrecedeAcks(log: seq<Event>) {
    forall i: nat, j: nat :: i < j < |log| && log[i].AckSaved? && log[j].IngressCalled? ==>
      log[i].update.updateId != log[j].update.updateId
  }

  /** Every lock is held by exactly the handler that is inside it. */
  ghost predicate LocksInv(s: System) {
    && (!s.up ==> s.handlers == map[] && s.locks == map[])
    && (forall l :: l in s.locks ==>
          s.locks[l] in s.handlers && s.handlers[s.locks[l]].lock == l && HoldsLock(s.handlers[s.locks[l]].pc))
    && (forall h :: h in s.handlers && HoldsLock(s.handlers[h].pc) ==>
          s.handlers[h].lock in s.locks && s.locks[s.handlers[h].lock] == h)
  }

  ghost predicate Inv(s: System) {
    && InboxOk(s.inbox)
    && LocksInv(s)
    && (forall h :: h in s.handlers ==> HandlerOk(s, s.handlers[h]))
    && (forall i: nat :: i < |s.log| ==> EventOk(s, i))
    && CallsPrecedeAcks(s.log)
  }

  // ---------------------------------------------------------------- preservation

  /** A move between acquiring and finishing changes one program counter, and stays inside the lock. */
  lemma InnerMove(s: System, h: nat, move: Move)
    requires CanMove(s, h, move) && !move.Acquire? && !move.Finish?
    ensures var t := DoMove(s, h, move);
      && h in t.handlers && HoldsLock(s.handlers[h].pc) && HoldsLock(t.handlers[h].pc)
      && t.handlers == s.handlers[h := s.handlers[h].(pc := t.handlers[h].pc)]
      && t.locks == s.locks && t.up == s.up && t.botId == s.botId && t.tables == s.tables
  {
  }

  lemma LocksAfterMove(s: System, h: nat, move: Move)
    requires LocksInv(s) && CanMove(s, h, move)
    ensures LocksInv(DoMove(s, h, move))
  {
    if !move.Acquire? && !move.Finish? {
      InnerMove(s, h, move);
    }
  }

  lemma LocksStep(s: System, a: Action)
    requires LocksInv(s)
    ensures LocksInv(Step(s, a))
  {
    if a.Handle? && Enabled(s, a) {
      LocksAfterMove(s, a.h, a.move);
    }
  }

  lemma InboxStep(s: System, a: Action)
    requires InboxOk(s.inbox)
    ensures InboxOk(Step(s, a).inbox) && InboxGrows(s.inbox, Step(s, a).inbox)
  {
  }

  /** Truth survives growth. */
  lemma AnswerStaysTrue(s: System, t: System, u: TelegramUpdate, answer: Answer)
    requires AnswerTrue(s, u, answer) && InboxGrows(s.inbox, t.inbox) && t.botId == s.botId && t.tables == s.tables
    ensures AnswerTrue(t, u, answer)
  {
  }

  /** Two requests with work pending on one update are one request: the lock is the content's. */
  lemma PendingIsExclusive(s: System, g: nat, h: nat)
    requires LocksInv(s) && g in s.handlers && h in s.handlers
    requires HandlerOk(s, s.handlers[g]) && HandlerOk(s, s.handlers[h])
    requires Pending(s.handlers[g].pc) && Pending(s.handlers[h].pc)
    requires s.handlers[g].update.updateId == s.handlers[h].update.updateId
    ensures g == h
  {
    assert s.handlers[g].update == s.handlers[h].update;
  }

  lemma RecordedEventOk(s: System, h: nat, io: Io)
    requires Inv(s) && CanMove(s, h, Record(io))
    ensures var t := DoRecord(s, h, io);
      s.log <= t.log && |t.log| <= |s.log| + 1 && (|t.log| == |s.log| + 1 ==> EventOk(t, |s.log|))
  {
    var t := DoRecord(s, h, io);
    assert HandlerOk(s, s.handlers[h]);
    if |t.log| == |s.log| + 1 {
      assert t.log[..|s.log|] == s.log;
    }
  }

  lemma FinalEventOk(s: System, h: nat)
    requires Inv(s) && CanMove(s, h, Finish)
    ensures var t := DoMove(s, h, Finish); s.log <= t.log && |t.log| == |s.log| + 1 && EventOk(t, |s.log|)
  {
    assert HandlerOk(s, s.handlers[h]);
  }

  /** A step adds at most one event, and a true one. */
  lemma EventsOfStep(s: System, a: Action)
    requires Inv(s)
    ensures s.log <= Step(s, a).log && |Step(s, a).log| <= |s.log| + 1
    ensures var t := Step(s, a); |t.log| == |s.log| + 1 ==> EventOk(t, |s.log|)
  {
    if a.Handle? && Enabled(s, a) {
      match a.move {
        case Record(io) => RecordedEventOk(s, a.h, io);
        case Finish => FinalEventOk(s, a.h);
        case _ =>
      }
    }
  }

  lemma EventStaysOk(s: System, t: System, i: nat)
    requires i < |s.log| && EventOk(s, i) && s.log <= t.log && InboxGrows(s.inbox, t.inbox)
    requires t.botId == s.botId && t.tables == s.tables
    ensures EventOk(t, i)
  {
    assert t.log[..i] == s.log[..i];
    match s.log[i] {
      case Told(u, answer) => AnswerStaysTrue(s, t, u, answer);
      case _ =>
    }
  }

  lemma OldEvents(s: System, a: Action, i: nat)
    requires Inv(s) && i < |s.log|
    ensures s.log <= Step(s, a).log && EventOk(Step(s, a), i)
  {
    EventsOfStep(s, a);
    InboxStep(s, a);
    SettingsStay(s, a);
    EventStaysOk(s, Step(s, a), i);
  }

  lemma CallIsPosted(s: System, a: Action)
    requires |Step(s, a).log| == |s.log| + 1 && Step(s, a).log[|s.log|].IngressCalled?
    ensures a.Handle? && CanMove(s, a.h, Post) && Step(s, a).log[|s.log|].update == s.handlers[a.h].update
  {
  }

  /** A call is made by a request whose update no one has acknowledged. */
  lemma CallIsUnanswered(s: System, a: Action)
    requires Inv(s)
    ensures var t := Step(s, a);
      |t.log| == |s.log| + 1 && t.log[|s.log|].IngressCalled? ==>
        var id := t.log[|s.log|].update.updateId;
        id in s.inbox && !s.inbox[id].HasResponse()
  {
    var t := Step(s, a);
    if |t.log| == |s.log| + 1 && t.log[|s.log|].IngressCalled? {
      CallIsPosted(s, a);
      assert HandlerOk(s, s.handlers[a.h]);
    }
  }

  lemma OneMoreEvent(log: seq<Event>, later: seq<Event>)
    requires CallsPrecedeAcks(log) && log <= later && |later| <= |log| + 1
    requires |later| == |log| + 1 && later[|log|].IngressCalled? ==>
               forall i: nat :: i < |log| && log[i].AckSaved? ==> log[i].update.updateId != later[|log|].update.updateId
    ensures CallsPrecedeAcks(later)
  {
  }

  lemma CallsStayBefore(s: System, a: Action)
    requires Inv(s)
    ensures CallsPrecedeAcks(Step(s, a).log)
  {
    var t := Step(s, a);
    EventsOfStep(s, a);
    CallIsUnanswered(s, a);
    if |t.log| == |s.log| + 1 && t.log[|s.log|].IngressCalled? {
      forall i: nat | i < |s.log| && s.log[i].AckSaved?
        ensures s.log[i].update.updateId != t.log[|s.log|].update.updateId
      {
        assert EventOk(s, i);
      }
    }
    OneMoreEvent(s.log, t.log);
  }

  /** The handler that moved. */
  lemma MoverOk(s: System, h: nat, move: Move)
    requires Inv(s) && CanMove(s, h, move) && !move.Finish?
    ensures h in DoMove(s, h, move).handlers && HandlerOk(DoMove(s, h, move), DoMove(s, h, move).handlers[h])
  {
    assert HandlerOk(s, s.handlers[h]);
    match move {
      case Create(io) => CreatorOk(s, h, io);
      case Receive(reply) => ReceiverOk(s, h, reply);
      case Record(io) => RecorderOk(s, h, io);
      case _ =>
    }
  }

  lemma CreatorOk(s: System, h: nat, io: Io)
    requires Inv(s) && CanMove(s, h, Create(io))
    ensures HandlerOk(DoCreate(s, h, io), DoCreate(s, h, io).handlers[h])
  {
    assert HandlerOk(s, s.handlers[h]);
  }

  lemma ReceiverOk(s: System, h: nat, reply: Ingress)
    requires Inv(s) && CanMove(s, h, Receive(reply))
    ensures HandlerOk(DoMove(s, h, Receive(reply)), DoMove(s, h, Receive(reply)).handlers[h])
  {
    assert HandlerOk(s, s.handlers[h]);
    if reply.Acknowledged? {
      assert DoMove(s, h, Receive(reply)).log[|s.log|] == IngressAnswered(s.handlers[h].update, reply.body);
    }
  }

  lemma RecorderOk(s: System, h: nat, io: Io)
    requires Inv(s) && CanMove(s, h, Record(io))
    ensures HandlerOk(DoRecord(s, h, io), DoRecord(s, h, io).handlers[h])
  {
    assert HandlerOk(s, s.handlers[h]);
  }

  /** Only recording an acknowledgement can end what others may still be waiting for. */
  lemma UnansweredStays(s: System, a: Action, id: int)
    requires id in s.inbox && !s.inbox[id].HasResponse()
    requires Enabled(s, a) && a.Handle? && a.move.Record? ==> s.handlers[a.h].update.updateId != id
    ensures id in Step(s, a).inbox && Step(s, a).inbox[id] == s.inbox[id]
  {
  }

  /** Every other handler. */
  lemma OthersOk(s: System, a: Action, g: nat)
    requires Inv(s) && g in s.handlers && g in Step(s, a).handlers && (a.Handle? ==> g != a.h)
    requires Step(s, a).handlers[g] == s.handlers[g]
    ensures HandlerOk(Step(s, a), s.handlers[g])
  {
    var (t, k) := (Step(s, a), s.handlers[g]);
    SettingsStay(s, a);
    InboxStep(s, a);
    EventsOfStep(s, a);
    assert HandlerOk(s, k);
    if k.pc.Answering? {
      AnswerStaysTrue(s, t, k.update, k.pc.answer);
    }
    if Pending(k.pc) {
      if Enabled(s, a) && a.Handle? && a.move.Record? && s.handlers[a.h].update.updateId == k.update.updateId {
        PendingIsExclusive(s, g, a.h);
      }
      UnansweredStays(s, a, k.update.updateId);
    }
  }

  lemma SettingsStay(s: System, a: Action)
    ensures Step(s, a).botId == s.botId && Step(s, a).tables == s.tables
  {
  }

  /** A step leaves every request alone but the one that arrives or moves. */
  lemma OthersStay(s: System, a: Action, g: nat)
    requires g in Step(s, a).handlers && (a.Handle? || a.Arrive? ==> a.h != g)
    ensures g in s.handlers && Step(s, a).handlers[g] == s.handlers[g]
  {
  }

  lemma ArrivalOk(s: System, h: nat, update: TelegramUpdate)
    ensures HandlerOk(s.(handlers := s.handlers[h := Received(s, update)]), Received(s, update))
  {
  }

  lemma OldAndNewEvents(s: System, t: System)
    requires forall i: nat :: i < |s.log| && i < |t.log| ==> EventOk(t, i)
    requires |t.log| <= |s.log| + 1 && (|t.log| == |s.log| + 1 ==> EventOk(t, |s.log|))
    ensures forall i: nat :: i < |t.log| ==> EventOk(t, i)
  {
  }

  lemma EventsStep(s: System, a: Action)
    requires Inv(s)
    ensures var t := Step(s, a); forall i: nat :: i < |t.log| ==> EventOk(t, i)
  {
    var t := Step(s, a);
    EventsOfStep(s, a);
    forall i: nat | i < |s.log| && i < |t.log| ensures EventOk(t, i) {
      OldEvents(s, a, i);
    }
    OldAndNewEvents(s, t);
  }

  lemma HandlerStep(s: System, a: Action, g: nat)
    requires Inv(s) && g in Step(s, a).handlers
    ensures HandlerOk(Step(s, a), Step(s, a).handlers[g])
  {
    if !Enabled(s, a) {
    } else if a.Handle? && a.h == g {
      MoverOk(s, g, a.move);
    } else if a.Arrive? && a.h == g {
      ArrivalOk(s, g, a.update);
    } else {
      OthersStay(s, a, g);
      OthersOk(s, a, g);
    }
  }

  lemma StepKeepsInv(s: System, a: Action)
    requires Inv(s)
    ensures Inv(Step(s, a))
  {
    var t := Step(s, a);
    LocksStep(s, a);
    InboxStep(s, a);
    CallsStayBefore(s, a);
    EventsStep(s, a);
    forall g | g in t.handlers ensures HandlerOk(t, t.handlers[g]) {
      HandlerStep(s, a, g);
    }
  }

  lemma {:induction false} RunKeepsInv(s: System, acts: seq<Action>)
    requires Inv(s)
    ensures Inv(Run(s, acts)) && InboxGrows(s.inbox, Run(s, acts).inbox)
  {
    if acts == [] {
    } else {
      RunKeepsInv(s, acts[..|acts| - 1]);
      StepKeepsInv(Run(s, acts[..|acts| - 1]), acts[|acts| - 1]);
      InboxStep(Run(s, acts[..|acts| - 1]), acts[|acts| - 1]);
    }
  }

  lemma {:induction false} RunOfConcat(s: System, acts: seq<Action>, more: seq<Action>)
    ensures Run(s, acts + more) == Run(Run(s, acts), more)
  {
    if more == [] {
      assert acts + more == acts;
    } else {
      RunOfConcat(s, acts, more[..|more| - 1]);
      assert (acts + more)[..|acts + more| - 1] == acts + more[..|more| - 1];
    }
  }

  // ---------------------------------------------------------------- theorems

  /** At most one ingress call is waiting for its reply per update ID, although locks are per chat modulo 64. */
  lemma OneIngressCallPerUpdate(s: System, acts: seq<Action>, g: nat, h: nat)
    requires Init(s)
    requires var t := Run(s, acts);
      && g in t.handlers && h in t.handlers
      && t.handlers[g].pc.AwaitingIngress? && t.handlers[h].pc.AwaitingIngress?
      && t.handlers[g].update.updateId == t.handlers[h].update.updateId
    ensures g == h
  {
    RunKeepsInv(s, acts);
    PendingIsExclusive(Run(s, acts), g, h);
  }

  /** After an acknowledgement is saved no call is made for its update ID, restarts included. */
  lemma NoCallAfterAcknowledgement(s: System, acts: seq<Action>, i: nat, j: nat)
    requires Init(s)
    requires var log := Run(s, acts).log; i < j < |log| && log[i].AckSaved? && log[j].IngressCalled?
    ensures Run(s, acts).log[i].update.updateId != Run(s, acts).log[j].update.updateId
  {
    RunKeepsInv(s, acts);
  }

  /** At most one event is added, and it is not a call for `id`. */
  predicate NoCallAdded(log: seq<Event>, later: seq<Event>, id: int) {
    && log <= later && |later| <= |log| + 1
    && (|later| == |log| + 1 && later[|log|].IngressCalled? ==> later[|log|].update.updateId != id)
  }

  /** No event after `log` is a call for `id`. */
  ghost predicate NoCallSince(log: seq<Event>, later: seq<Event>, id: int) {
    log <= later && forall j :: |log| <= j < |later| && later[j].IngressCalled? ==> later[j].update.updateId != id
  }

  lemma NoCallYet(log: seq<Event>, mid: seq<Event>, later: seq<Event>, id: int)
    requires NoCallSince(log, mid, id) && NoCallAdded(mid, later, id)
    ensures NoCallSince(log, later, id)
  {
  }

  lemma StepCallsOthers(s: System, a: Action, id: int)
    requires Inv(s) && id in s.inbox && s.inbox[id].HasResponse()
    ensures NoCallAdded(s.log, Step(s, a).log, id)
  {
    EventsOfStep(s, a);
    CallIsUnanswered(s, a);
  }

  /** Nor for an update that was already acknowledged, by this process or an earlier one, when the run began. */
  lemma NoCallForTheAcknowledged(s: System, acts: seq<Action>, id: int, j: nat)
    requires Inv(s) && id in s.inbox && s.inbox[id].HasResponse()
    requires |s.log| <= j < |Run(s, acts).log| && Run(s, acts).log[j].IngressCalled?
    ensures Run(s, acts).log[j].update.updateId != id
  {
    RunCallsOthers(s, acts, id);
  }

  lemma {:induction false} RunCallsOthers(s: System, acts: seq<Action>, id: int)
    requires Inv(s) && id in s.inbox && s.inbox[id].HasResponse()
    ensures NoCallSince(s.log, Run(s, acts).log, id)
  {
    if acts == [] {
    } else {
      var front, a := acts[..|acts| - 1], acts[|acts| - 1];
      RunCallsOthers(s, front, id);
      RunKeepsInv(s, front);
      StepCallsOthers(Run(s, front), a, id);
      NoCallYet(s.log, Run(s, front).log, Run(s, acts).log, id);
    }
  }

  /** A saved acknowledgement is one that Orka gave for that very update, and no continuation changes it. */
  lemma AcknowledgementsAreFinal(s: System, acts: seq<Action>, more: seq<Action>, i: nat)
    requires Init(s) && i < |Run(s, acts).log| && Run(s, acts).log[i].AckSaved?
    ensures var (t, u, e) := (Run(s, acts), Run(s, acts + more), Run(s, acts).log[i]);
      && IngressAnswered(e.update, e.body) in t.log[..i]
      && e.update.updateId in u.inbox
      && u.inbox[e.update.updateId] == UpdateRow(OfUpdate(e.update), e.body)
  {
    RunKeepsInv(s, acts);
    RunKeepsInv(Run(s, acts), more);
    RunOfConcat(s, acts, more);
    assert EventOk(Run(s, acts), i);
  }

  /** Whoever has an acknowledgement to record is entitled to: only the store, or the body's own form, can prevent it. */
  lemma RecordIsNeverRefused(s: System, acts: seq<Action>, h: nat)
    requires Init(s) && h in Run(s, acts).handlers && Run(s, acts).handlers[h].pc.Recording?
    ensures var t := Run(s, acts);
      var (u, body) := (t.handlers[h].update, t.handlers[h].pc.body);
      Save(t.inbox, u.updateId, OfUpdate(u), body).1.Saved? <==> Storable(body)
  {
    RunKeepsInv(s, acts);
    assert HandlerOk(Run(s, acts), Run(s, acts).handlers[h]);
  }

  /**
   Telegram is told that an update needs no redelivery only when it is of a kind the
   adapter ignores, or its acknowledgement is on record; and an update that is told
   so is never told that it conflicts, before or after.
   */
  lemma OkMeansRecorded(s: System, acts: seq<Action>, i: nat, j: nat)
    requires Init(s)
    requires var log := Run(s, acts).log; i < |log| && log[i].Told? && log[i].answer == AnswerOk
    ensures var t := Run(s, acts);
      && (MapUpdate(t.botId, t.log[i].update, t.tables).Unsupported? || Acked(t.inbox, t.log[i].update))
      && (j < |t.log| && t.log[j].Told? && t.log[j].answer == AnswerConflict ==> t.log[j].update != t.log[i].update)
  {
    RunKeepsInv(s, acts);
    assert EventOk(Run(s, acts), i);
    if j < |Run(s, acts).log| {
      assert EventOk(Run(s, acts), j);
    }
  }

  ghost predicate Movable(s: System, h: nat) {
    exists move :: CanMove(s, h, move)
  }

  lemma InsideIsMovable(s: System, h: nat)
    requires s.up && h in s.handlers && !s.handlers[h].pc.AtLock?
    ensures Movable(s, h)
  {
    match s.handlers[h].pc {
      case Admitting => assert CanMove(s, h, Create(Commits));
      case Posting => assert CanMove(s, h, Post);
      case AwaitingIngress => assert CanMove(s, h, Receive(IngressFailed));
      case Recording(_) => assert CanMove(s, h, Record(Commits));
      case Rereading => assert CanMove(s, h, Reread(true));
      case Answering(_, _) => assert CanMove(s, h, Finish);
      case AtLock =>
    }
  }

  /** No deadlock: a request can go on, or waits for a lock whose holder can. */
  lemma NoRequestIsStuck(s: System, acts: seq<Action>, h: nat)
    requires Init(s) && h in Run(s, acts).handlers
    ensures var t := Run(s, acts);
      || Movable(t, h)
      || (t.handlers[h].lock in t.locks && t.locks[t.handlers[h].lock] != h && Movable(t, t.locks[t.handlers[h].lock]))
  {
    RunKeepsInv(s, acts);
    var t := Run(s, acts);
    if !t.handlers[h].pc.AtLock? {
      InsideIsMovable(t, h);
    } else if t.handlers[h].lock !in t.locks {
      assert CanMove(t, h, Acquire);
    } else {
      InsideIsMovable(t, t.locks[t.handlers[h].lock]);
    }
  }
}
