/** Where provider calls go: in every run, where the routing fields of their request say, or nowhere. */
module DispatchTheorems {
  import opened Prelude
  import opened Wire
  import opened SafeText
  import opened MessageLaws
  import opened DeliveryLedger
  import opened TransactionLaws
  import opened TelegramClient
  import opened ReplyTarget
  import opened Routing
  import opened Adapter
  import opened AdapterInvariants
  import opened AdapterRuns

  // ---------------------------------------------------------------- what a route leads to

  /** `t` is where a request with these routing fields is to be sent: its printed route, or the conformance chat. */
  predicate Leads(config: Config, route: Route, t: Target) {
    if route.replyTarget == "conformance" then
      && route == Route("conformance", "conformance", "", "conformance")
      && t == Target(config.conformanceChatId, 0, 0) && t.chatId != 0
    else
      && t.chatId != 0 && 0 <= t.threadId && 0 <= t.messageId
      && IsInt64(t.chatId) && IsInt64(t.threadId) && IsInt64(t.messageId)
      && route == RouteTo(config, t)
  }

  lemma DestinationIs(config: Config, route: Route, t: Target)
    requires TrimSpace(route.replyTarget) == route.replyTarget && IsInt64(config.conformanceChatId)
    ensures Destination(config, route) == Some(t) <==> Leads(config, route, t)
  {
    if route.replyTarget == CONFORMANCE {
      ConformanceRoute(config, route, t);
    } else {
      AcceptedRoutesArePrinted(config, route, t);
    }
  }

  // ---------------------------------------------------------------- one dispatch

  lemma DispatchGoes(s: System, h: nat)
    requires h in s.handlers && s.handlers[h].pc.Claimed?
    ensures var (t, r, id) := (DoDispatch(s, h), s.handlers[h].request, s.handlers[h].pc.id);
      match Destination(s.config, RouteOfRequest(r))
      case None => t == Goto(s, h, Refusing(id))
      case Some(target) =>
        && t.calls == s.calls + [Call(id, r, target, Unwritten)]
        && t.log == s.log + [CallStarted(|s.calls|, s.clockNs)]
        && h in t.handlers && t.handlers[h] == Handler(r, Calling(id, target, |s.calls|))
  {
  }

  /** Every call goes where its request's route leads, and only requests whose route leads nowhere are given up. */
  ghost predicate RoutesInv(s: System) {
    && (forall k: nat :: k < |s.calls| ==>
          Destination(s.config, RouteOfRequest(s.calls[k].request)) == Some(s.calls[k].target))
    && (forall h :: h in s.handlers && s.handlers[h].pc.Refusing? ==>
          Destination(s.config, RouteOfRequest(s.handlers[h].request)) == None)
  }

  lemma RoutesStay(s: System, t: System)
    requires RoutesInv(s) && t.config == s.config && CallsGrow(s.calls, t.calls) && |t.calls| == |s.calls|
    requires forall h :: h in t.handlers && t.handlers[h].pc.Refusing? ==> h in s.handlers && t.handlers[h] == s.handlers[h]
    ensures RoutesInv(t)
  {
    forall k: nat | k < |t.calls|
      ensures Destination(t.config, RouteOfRequest(t.calls[k].request)) == Some(t.calls[k].target)
    {
      assert s.calls[k].request == t.calls[k].request;
    }
  }

  lemma RoutesAfterDispatch(s: System, h: nat)
    requires RoutesInv(s) && h in s.handlers && s.handlers[h].pc.Claimed?
    ensures RoutesInv(DoDispatch(s, h))
  {
    DispatchGoes(s, h);
  }

  lemma RoutesAfterBegin(s: System, h: nat, sinceNs: int, nowNs: int, io: Io, gated: bool)
    requires Consistent(s.ledger) && RoutesInv(s) && h in s.handlers
    ensures RoutesInv(DoBegin(s, h, sinceNs, nowNs, io, gated))
  {
    MoveOfBegin(s, h, sinceNs, nowNs, io, gated);
    RoutesStay(s, DoBegin(s, h, sinceNs, nowNs, io, gated));
  }

  lemma RoutesAfterUpdate(s: System, h: nat, id: Id, call: Option<nat>, c: Completion, notBeforeNs: int, nowNs: int, io: Io)
    requires RoutesInv(s) && h in s.handlers
    ensures RoutesInv(DoUpdate(s, h, id, call, c, notBeforeNs, nowNs, io))
  {
    MoveOfUpdate(s, h, id, call, c, notBeforeNs, nowNs, io);
    RoutesStay(s, DoUpdate(s, h, id, call, c, notBeforeNs, nowNs, io));
  }

  lemma RoutesMove(s: System, h: nat, move: Move)
    requires Consistent(s.ledger) && RoutesInv(s) && CanMove(s, h, move)
    ensures RoutesInv(DoMove(s, h, move))
  {
    var pc := s.handlers[h].pc;
    match move
    case ReplayBegin(sinceNs, nowNs, io) => RoutesAfterBegin(s, h, sinceNs, nowNs, io, false);
    case GatedBegin(sinceNs, nowNs, io) => RoutesAfterBegin(s, h, sinceNs, nowNs, io, true);
    case PersistRefusal(nowNs, io) => RoutesAfterUpdate(s, h, pc.id, None, ROUTING_MISMATCH, 0, nowNs, io);
    case Persist(nowNs, io) =>
      RoutesAfterUpdate(s, h, pc.id, Some(pc.call), CompletionOf(pc.result, Ms(pc.notBeforeNs)), pc.notBeforeNs, nowNs, io);
    case Dispatch => RoutesAfterDispatch(s, h);
    case Respond =>
    case _ =>
      MoveOfSilent(s, h, move);
      RoutesStay(s, DoMove(s, h, move));
  }

  lemma RoutesStep(s: System, a: Action)
    requires CoreInv(s) && RoutesInv(s)
    ensures RoutesInv(Step(s, a)) && Step(s, a).config == s.config
  {
    if a.Handle? && Enabled(s, a) {
      RoutesMove(s, a.h, a.move);
    } else {
      StartsOfStep(s, a);
      RoutesStay(s, Step(s, a));
    }
  }

  // ---------------------------------------------------------------- every run

  lemma {:induction false} RunKeepsRoutes(s: System, acts: seq<Action>)
    requires CoreInv(s) && RoutesInv(s)
    ensures RoutesInv(Run(s, acts)) && Run(s, acts).config == s.config
    decreases |acts|
  {
    if acts == [] {
    } else {
      CoreStep(s, acts[0]);
      RoutesStep(s, acts[0]);
      RunKeepsRoutes(Step(s, acts[0]), acts[1..]);
    }
  }

  /** A provider call goes where its request's routing fields lead, and these name the target in full. */
  lemma CallsGoWhereTheyRoute(s: System, acts: seq<Action>, k: nat)
    requires Init(s) && IsInt64(s.config.conformanceChatId) && k < |Run(s, acts).calls|
    requires var reply := Run(s, acts).calls[k].request.replyTarget; TrimSpace(reply) == reply
    ensures var c := Run(s, acts).calls[k]; Leads(s.config, RouteOfRequest(c.request), c.target)
  {
    InitInv(s);
    RunKeepsRoutes(s, acts);
    var c := Run(s, acts).calls[k];
    DestinationIs(s.config, RouteOfRequest(c.request), c.target);
  }

  /**
   A claimed request is sent, in every reachable state, to the one target its routing
   fields lead to, and given up exactly when they lead to none.
   */
  lemma DispatchIsExact(s: System, acts: seq<Action>, h: nat)
    requires Init(s) && IsInt64(s.config.conformanceChatId) && CanMove(Run(s, acts), h, Dispatch)
    requires var reply := Run(s, acts).handlers[h].request.replyTarget; TrimSpace(reply) == reply
    ensures var t := Run(s, acts);
      var (u, r, id) := (DoDispatch(t, h), t.handlers[h].request, t.handlers[h].pc.id);
      h in u.handlers &&
      if exists target :: Leads(s.config, RouteOfRequest(r), target)
      then exists target :: Leads(s.config, RouteOfRequest(r), target) && u.calls == t.calls + [Call(id, r, target, Unwritten)]
      else u.handlers[h].pc == Refusing(id) && u.calls == t.calls
  {
    InitInv(s);
    RunKeepsRoutes(s, acts);
    var t := Run(s, acts);
    DispatchGoes(t, h);
    forall target
      ensures Destination(s.config, RouteOfRequest(t.handlers[h].request)) == Some(target) <==>
              Leads(s.config, RouteOfRequest(t.handlers[h].request), target)
    {
      DestinationIs(s.config, RouteOfRequest(t.handlers[h].request), target);
    }
  }

  /** A call whose request bears the route of a mapped update goes to the chat, thread and message the update came from. */
  lemma AnswersReachTheirChat(s: System, acts: seq<Action>, k: nat, update: TelegramUpdate, tables: RuneTables)
    requires Init(s) && k < |Run(s, acts).calls| && MapUpdate(s.config.botId, update, tables).Admitted?
    requires var m := update.message.value; IsInt64(m.chat.id) && IsInt64(m.threadId) && IsInt64(m.messageId)
    requires RouteOfRequest(Run(s, acts).calls[k].request) == RouteOf(MapUpdate(s.config.botId, update, tables).event)
    ensures var m := update.message.value;
      0 <= m.threadId && Run(s, acts).calls[k].target == Target(m.chat.id, m.threadId, m.messageId)
  {
    InitInv(s);
    RunKeepsRoutes(s, acts);
    AnswersGoBack(s.config, update, tables);
  }

  // ---------------------------------------------------------------- a route that leads nowhere

  lemma MismatchIsPlain(m: string)
    requires m == "delivery routing mismatch"
    ensures NormalizeSafeMessage(m) == m
  {
    assert |m| == 25 && forall i :: 0 <= i < |m| ==> ' ' <= m[i] <= 'z';
    PlainIsLeftAlone(m);
  }

  lemma UpdateToPermanent(L: Ledger, r: DeliveryRequest, id: Id, c: Completion, nowMs: int)
    requires Holds(L, r, id) && Normalize(c).Some? && c.state == Permanent
    requires NormalizeSafeMessage(c.safeMessage) == c.safeMessage != ""
    ensures var (M, result) := Update(L, id, LogicalDigest(r), c, nowMs);
      && result.Recorded? && id in M.entries && M.entries[id].row.state == Permanent
      && Replay(result.record.row) == DeliveryResponse(StatusNonRetryableError, "", c.safeMessage)
  {
    UpdateOutcome(L, r, id, c, nowMs);
    CompletedWhen(Update(L, id, LogicalDigest(r), c, nowMs).0.entries[id].row, c);
  }

  lemma RefusalIsTold(s: System, h: nat, id: Id, c: Completion, nowNs: int)
    requires h in s.handlers && Holds(s.ledger, s.handlers[h].request, id) && Normalize(c).Some? && c.state == Permanent
    requires NormalizeSafeMessage(c.safeMessage) == c.safeMessage != ""
    ensures var t := DoUpdate(s, h, id, None, c, 0, nowNs, Commits);
      && h in t.handlers && t.handlers[h].pc.Replying? && id in t.ledger.entries
      && t.ledger.entries[id].row.state == Permanent
      && t.handlers[h].pc.out.response == DeliveryResponse(StatusNonRetryableError, "", c.safeMessage)
  {
    MoveOfUpdate(s, h, id, None, c, 0, nowNs, Commits);
    UpdateToPermanent(s.ledger, s.handlers[h].request, id, c, Ms(nowNs));
  }

  /** Giving such a delivery up makes it permanent, and Orka is told why, if the store works. */
  lemma MismatchIsTold(s: System, h: nat, nowNs: int)
    requires CoreInv(s) && CanMove(s, h, PersistRefusal(nowNs, Commits))
    ensures var (t, id) := (DoMove(s, h, PersistRefusal(nowNs, Commits)), s.handlers[h].pc.id);
      && h in t.handlers && t.handlers[h].pc.Replying? && id in t.ledger.entries
      && t.ledger.entries[id].row.state == Permanent
      && t.handlers[h].pc.out.response == DeliveryResponse(StatusNonRetryableError, "", "delivery routing mismatch")
  {
    var id := s.handlers[h].pc.id;
    var c := MoveOfRefusal(s, h, nowNs, Commits);
    MismatchIsPlain(c.safeMessage);
    RefusalIsTold(s, h, id, c, nowNs);
  }
}
