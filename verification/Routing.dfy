/**
 From a Telegram update to a gateway event, and from the delivery that answers it
 back to a Telegram chat.
 */
module Routing {
  import opened Prelude
  import opened SafeText
  import opened Decimal
  import opened ReplyTarget
  import DisplayText

  const PROTOCOL_VERSION := "orka.gateway.v1"
  const MAX_TEXT_BYTES := 65536
  const MAX_NAME_BYTES := 256

  datatype User = User(id: int, isBot: bool, firstName: string, lastName: string, username: string)

  datatype Chat = Chat(id: int, kind: string, title: string)

  datatype Message = Message(
    messageId: int,
    threadId: int,
    from: Option<User>,
    date: int,
    chat: Chat,
    text: string,
    replyTo: Option<Message>,
    quote: Option<string>)

  datatype TelegramUpdate = TelegramUpdate(updateId: int, message: Option<Message>, edited: Option<Message>, channelPost: Option<Message>)

  /** Unicode's tables, as far as the mapping consults them: Cf, Mn or Me, and the default ignorables. */
  datatype RuneTables = RuneTables(format: char -> bool, mark: char -> bool, ignorable: char -> bool)

  datatype GatewayEvent = GatewayEvent(
    protocolVersion: string,
    externalEventId: string,
    accountId: string,
    contextId: string,
    threadId: string,
    senderId: string,
    displayName: string,
    text: string,
    replyTarget: string,
    occurredAt: int,
    metadata: map<string, string>)

  datatype Mapped = Unsupported | Invalid | Admitted(event: GatewayEvent)

  predicate UnsafeControl(c: char) {
    IsControl(c) && c != '\n' && c != '\r' && c != '\t'
  }

  predicate Visible(c: char, tables: RuneTables) {
    !IsSpace(c) && !IsControl(c) && !tables.format(c) && !tables.mark(c) && !tables.ignorable(c)
  }

  predicate WellFormedText(text: string) {
    text != "" && ByteLen(text) <= MAX_TEXT_BYTES && forall i :: 0 <= i < |text| ==> !UnsafeControl(text[i])
  }

  predicate HasVisible(text: string, tables: RuneTables) {
    exists i :: 0 <= i < |text| && Visible(text[i], tables)
  }

  function CleanName(value: string, tables: RuneTables): string {
    DisplayText.Sanitized(value, c => tables.format(c) || tables.ignorable(c), MAX_NAME_BYTES)
  }

  function DisplayName(user: User, tables: RuneTables): string {
    var name := CleanName(TrimSpace(user.firstName + " " + user.lastName), tables);
    if name != "" then name else CleanName(user.username, tables)
  }

  function ReplyMetadata(message: Message, tables: RuneTables): map<string, string> {
    var reply :=
      if message.replyTo.Some? && message.replyTo.value.messageId > 0 then
        var text := CleanName(message.replyTo.value.text, tables);
        map["replyToMessageId" := FormatInt(message.replyTo.value.messageId)]
        + (if text != "" then map["replyToText" := text] else map[])
      else map[];
    var quote := if message.quote.Some? then CleanName(message.quote.value, tables) else "";
    if quote != "" then reply["quoteText" := quote] else reply
  }

  /** MapUpdate */
  function MapUpdate(botId: int, update: TelegramUpdate, tables: RuneTables): Mapped {
    if update.message.None? then Unsupported
    else
      var message := update.message.value;
      if message.chat.kind != "private" || message.text == "" then Unsupported
      else if botId <= 0 || update.updateId < 0 || message.messageId <= 0 || message.chat.id == 0
              || message.from.None? || message.from.value.id == 0 || message.date <= 0 then Invalid
      else if WellFormedText(message.text) && !HasVisible(message.text, tables) then Unsupported
      else if !WellFormedText(message.text) || !HasVisible(message.text, tables) then Invalid
      else Admitted(GatewayEvent(
             PROTOCOL_VERSION,
             "telegram:" + FormatInt(botId) + ":" + FormatInt(update.updateId),
             FormatInt(botId),
             FormatInt(message.chat.id),
             if message.threadId > 0 then FormatInt(message.threadId) else "",
             FormatInt(message.from.value.id),
             DisplayName(message.from.value, tables),
             message.text,
             Format(Target(message.chat.id, message.threadId, message.messageId)),
             message.date,
             ReplyMetadata(message, tables)))
  }

  // ---------------------------------------------------------------- egress

  datatype Config = Config(botId: int, conformanceChatId: int)

  /** The routing fields of a delivery request. */
  datatype Route = Route(accountId: string, contextId: string, threadId: string, replyTarget: string)

  /** validDeliveryRoute */
  predicate ValidRoute(config: Config, route: Route, target: Target) {
    if route.replyTarget == CONFORMANCE then
      && route.accountId == CONFORMANCE && route.contextId == CONFORMANCE && route.threadId == ""
      && target == Target(config.conformanceChatId, 0, 0)
    else
      && route.accountId == FormatInt(config.botId)
      && route.contextId == FormatInt(target.chatId)
      && route.threadId == (if target.threadId != 0 then FormatInt(target.threadId) else "")
  }

  /** The target a delivery may be sent to, if its routing fields agree on one. */
  function Destination(config: Config, route: Route): Option<Target> {
    var target := Parse(route.replyTarget, config.conformanceChatId);
    if target.Some? && ValidRoute(config, route, target.value) then target else None
  }

  /** The fields with which an event for `t` reaches the gateway. */
  function RouteTo(config: Config, t: Target): Route {
    Route(FormatInt(config.botId), FormatInt(t.chatId),
          if t.threadId != 0 then FormatInt(t.threadId) else "", Format(t))
  }

  function RouteOf(e: GatewayEvent): Route {
    Route(e.accountId, e.contextId, e.threadId, e.replyTarget)
  }

  lemma EventRoute(botId: int, update: TelegramUpdate, tables: RuneTables)
    requires MapUpdate(botId, update, tables).Admitted?
    ensures update.message.Some?
    ensures var m := update.message.value;
      RouteOf(MapUpdate(botId, update, tables).event) ==
      Route(FormatInt(botId), FormatInt(m.chat.id), if m.threadId > 0 then FormatInt(m.threadId) else "",
            Format(Target(m.chat.id, m.threadId, m.messageId)))
      && m.chat.id != 0 && m.messageId > 0
  {
  }

  /**
   A delivery that answers an event goes back to the chat, thread and message the
   event came from, exactly when the source thread is not negative; with a
   negative one the reply target does not parse and nothing is sent.
   */
  lemma AnswersGoBack(config: Config, update: TelegramUpdate, tables: RuneTables)
    requires MapUpdate(config.botId, update, tables).Admitted?
    requires var m := update.message.value;
      IsInt64(m.chat.id) && IsInt64(m.threadId) && IsInt64(m.messageId)
    ensures var m := update.message.value;
      Destination(config, RouteOf(MapUpdate(config.botId, update, tables).event))
      == if m.threadId >= 0 then Some(Target(m.chat.id, m.threadId, m.messageId)) else None
  {
    var m := update.message.value;
    var t := Target(m.chat.id, m.threadId, m.messageId);
    EventRoute(config.botId, update, tables);
    TargetRoundTrip(t, config.conformanceChatId);
    FormatIsTrimmed(t);
  }

  /**
   Outside the conformance route, a trimmed route is accepted exactly when it is
   the printed route of a valid target, and then that target is where it leads.
   */
  lemma AcceptedRoutesArePrinted(config: Config, route: Route, t: Target)
    requires route.replyTarget != CONFORMANCE && TrimSpace(route.replyTarget) == route.replyTarget
    ensures Destination(config, route) == Some(t) <==> t.Valid() && route == RouteTo(config, t)
  {
    FormatOfParse(route.replyTarget, config.conformanceChatId);
    if t.Valid() {
      TargetRoundTrip(t, config.conformanceChatId);
    }
  }

  /** The conformance route leads to the configured chat, if there is one, and nowhere else. */
  lemma ConformanceRoute(config: Config, route: Route, t: Target)
    requires route.replyTarget == CONFORMANCE && IsInt64(config.conformanceChatId)
    ensures Destination(config, route) == Some(t) <==>
      && config.conformanceChatId != 0 && t == Target(config.conformanceChatId, 0, 0)
      && route == Route(CONFORMANCE, CONFORMANCE, "", CONFORMANCE)
  {
    assert Trimmed(CONFORMANCE);
    TrimSpaceOfTrimmed(CONFORMANCE);
  }

  /** The lock of an update is chosen by the number its event prints. */
  lemma ContextIsChat(botId: int, update: TelegramUpdate, tables: RuneTables)
    requires MapUpdate(botId, update, tables).Admitted? && IsInt64(update.message.value.chat.id)
    ensures ParseInt(MapUpdate(botId, update, tables).event.contextId) == Some(update.message.value.chat.id)
  {
    ParseOfFormat(update.message.value.chat.id);
  }
}
