/**
 The adapter's inbound side as a concurrent machine: webhook requests that
 serialise on one of 64 chat locks, the durable admission record, Orka's ingress
 on the far side of an unreliable exchange, crashes and restarts.
 */
module Webhook {
  import opened Prelude
  import opened Decimal
  import opened Routing
  import opened UpdateStore

  const LOCKS := 64

  /** Go's %, whose result takes the sign of the dividend. */
  function GoRem(a: int, b: int): int
    requires 0 < b
  {
    if a >= 0 then a % b else -((-a) % b)
  }

  function LockIndex(chatId: int): int {
    var i := GoRem(chatId, LOCKS);
    if i < 0 then i + LOCKS else i
  }

  /** The index is a slot of the lock array for every chat, and the same residue Euclid would give. */
  lemma LockIndexIsASlot(chatId: int)
    ensures 0 <= LockIndex(chatId) < 64
    ensures (chatId - LockIndex(chatId)) % 64 == 0
  {
    if chatId < 0 {
      var q, r := (-chatId) / LOCKS, (-chatId) % LOCKS;
      assert chatId == -(LOCKS * q) - r;
      if r == 0 {
        assert chatId - LockIndex(chatId) == LOCKS * (-q);
      } else {
        assert chatId - LockIndex(chatId) == LOCKS * (-q - 1);
      }
    }
  }

  // ---------------------------------------------------------------- the machine

  datatype Answer = AnswerOk | AnswerBadRequest | AnswerConflict | AnswerUnavailable

  datatype Ingress = IngressFailed | Acknowledged(body: Option<string>)

  /** Where one request stands in handleTelegramWebhook. */
  datatype Pc =
    | AtLock
    | Admitting                     // holds its chat's lock from here on
    | Posting
    | AwaitingIngress
    | Recording(body: Option<string>)
    | Rereading
    | Answering(answer: Answer, locked: bool)

  predicate HoldsLock(pc: Pc) {
    !pc.AtLock? && (pc.Answering? ==> pc.locked)
  }

  /** Past admission, without an answer: no one may have acknowledged the update yet. */
  predicate Pending(pc: Pc) {
    pc.Posting? || pc.AwaitingIngress? || pc.Recording?
  }

  datatype Handler = Handler(update: TelegramUpdate, lock: int, pc: Pc)

  datatype Event =
    | IngressCalled(update: TelegramUpdate)
    | IngressAnswered(update: TelegramUpdate, body: Option<string>)
    | AckSaved(update: TelegramUpdate, body: Option<string>)
    | Told(update: TelegramUpdate, answer: Answer)

  datatype System = System(
    botId: int,
    tables: RuneTables,
    up: bool,
    inbox: Inbox,
    handlers: map<nat, Handler>,
    locks: map<int, nat>,
    log: seq<Event>)

  /** What one request in progress can do next. */
  datatype Move =
    | Acquire
    | Create(io: Io)
    | Post
    | Receive(reply: Ingress)
    | Record(io: Io)
    | Reread(fails: bool)
    | Finish

  datatype Action =
    | Arrive(h: nat, update: TelegramUpdate)
    | Handle(h: nat, move: Move)
    | Crash
    | Restart

  predicate CanMove(s: System, h: nat, move: Move) {
    s.up && h in s.handlers &&
    var pc := s.handlers[h].pc;
    match move
    case Acquire => pc.AtLock? && s.handlers[h].lock !in s.locks
    case Create(_) => pc.Admitting?
    case Post => pc.Posting?
    case Receive(_) => pc.AwaitingIngress?
    case Record(_) => pc.Recording?
    case Reread(_) => pc.Rereading?
    case Finish => pc.Answering?
  }

  predicate Enabled(s: System, a: Action) {
    match a
    case Arrive(h, _) => s.up && h !in s.handlers
    case Handle(h, move) => CanMove(s, h, move)
    case Crash => s.up
    case Restart => !s.up
  }

  function Goto(s: System, h: nat, pc: Pc): System
    requires h in s.handlers
  {
    s.(handlers := s.handlers[h := s.handlers[h].(pc := pc)])
  }

  /** The update is mapped, and its chat picks a lock, before any lock is taken. */
  function Received(s: System, update: TelegramUpdate): Handler {
    match MapUpdate(s.botId, update, s.tables)
    case Unsupported => Handler(update, 0, Answering(AnswerOk, false))
    case Invalid => Handler(update, 0, Answering(AnswerBadRequest, false))
    case Admitted(event) =>
      match ParseInt(event.contextId)
      case None => Handler(update, 0, Answering(AnswerBadRequest, false))
      case Some(chatId) => Handler(update, LockIndex(chatId), AtLock)
  }

  function AfterAdmission(io: Io, result: Admission): Pc {
    if io == FailsBefore then Answering(AnswerUnavailable, true)
    else
      match result
      case NotEntered(error) => Answering(if error == OtherContent then AnswerConflict else AnswerUnavailable, true)
      case Entered(row, _) =>
        if io == FailsAfter then Answering(AnswerUnavailable, true)
        else if row.HasResponse() then Answering(AnswerOk, true)
        else Posting
  }

  function AfterRecord(io: Io, result: Saving): Pc {
    if io == FailsBefore then Answering(AnswerUnavailable, true)
    else
      match result
      case NotSaved(error) => if error == AlreadyAnswered then Rereading else Answering(AnswerUnavailable, true)
      case Saved(_) => Answering(if io == Commits then AnswerOk else AnswerUnavailable, true)
  }

  function DoCreate(s: System, h: nat, io: Io): System
    requires h in s.handlers
  {
    var u := s.handlers[h].update;
    var (J, result) := Admit(s.inbox, u.updateId, OfUpdate(u));
    Goto(s.(inbox := if io == FailsBefore then s.inbox else J), h, AfterAdmission(io, result))
  }

  function DoRecord(s: System, h: nat, io: Io): System
    requires h in s.handlers && s.handlers[h].pc.Recording?
  {
    var (u, body) := (s.handlers[h].update, s.handlers[h].pc.body);
    var (J, result) := Save(s.inbox, u.updateId, OfUpdate(u), body);
    var durable := io != FailsBefore && result.Saved?;
    Goto(s.(inbox := if durable then J else s.inbox, log := s.log + if durable then [AckSaved(u, body)] else []),
         h, AfterRecord(io, result))
  }

  function DoMove(s: System, h: nat, move: Move): System
    requires CanMove(s, h, move)
  {
    var (u, pc) := (s.handlers[h].update, s.handlers[h].pc);
    match move
    case Acquire => Goto(s, h, Admitting).(locks := s.locks[s.handlers[h].lock := h])
    case Create(io) => DoCreate(s, h, io)
    case Post => Goto(s, h, AwaitingIngress).(log := s.log + [IngressCalled(u)])
    case Receive(IngressFailed) => Goto(s, h, Answering(AnswerUnavailable, true))
    case Receive(Acknowledged(body)) => Goto(s, h, Recording(body)).(log := s.log + [IngressAnswered(u, body)])
    case Record(io) => DoRecord(s, h, io)
    case Reread(fails) =>
      var found := !fails && u.updateId in s.inbox && s.inbox[u.updateId].HasResponse();
      Goto(s, h, Answering(if found then AnswerOk else AnswerUnavailable, true))
    case Finish =>
      s.(handlers := s.handlers - {h},
         locks := if pc.locked then s.locks - {s.handlers[h].lock} else s.locks,
         log := s.log + [Told(u, pc.answer)])
  }

  /** One step; an action that is not possible leaves the system as it is. */
  function Step(s: System, a: Action): System {
    if !Enabled(s, a) then s
    else
      match a
      case Arrive(h, update) => s.(handlers := s.handlers[h := Received(s, update)])
      case Handle(h, move) => DoMove(s, h, move)
      case Crash => s.(up := false, handlers := map[], locks := map[])
      case Restart => s.(up := true)
  }

  function Run(s: System, acts: seq<Action>): System {
    if acts == [] then s else Step(Run(s, acts[..|acts| - 1]), acts[|acts| - 1])
  }

  /** The adapter before it first serves, with whatever earlier processes admitted. */
  ghost predicate Init(s: System) {
    !s.up && s.handlers == map[] && s.locks == map[] && s.log == [] && InboxOk(s.inbox)
  }
}
