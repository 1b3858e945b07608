/** Which updates become events, and what of the update every event carries. */
module MappingLaws {
  import opened Prelude
  import opened SafeText
  import opened Decimal
  import opened ReplyTarget
  import TelegramClient
  import opened Routing

  // ---------------------------------------------------------------- the two text checks

  /** A rune that may not stand in a message at all. */
  predicate Forbidden(c: char) {
    var v := c as int;
    (v < 0x20 && v != 0x09 && v != 0x0A && v != 0x0D) || 0x7F <= v <= 0x9F
  }

  /** A rune one can see: no space, no control, nothing invisible. */
  predicate Seen(c: char, tables: RuneTables) {
    !IsSpace(c) && !IsControl(c) && !tables.format(c) && !tables.mark(c) && !tables.ignorable(c)
  }

  /** Text of an admissible length, without forbidden runes. */
  ghost predicate Presentable(text: string) {
    text != "" && ByteLen(text) <= 65536 && forall i :: 0 <= i < |text| ==> !Forbidden(text[i])
  }

  ghost predicate Shows(text: string, tables: RuneTables) {
    exists i :: 0 <= i < |text| && Seen(text[i], tables)
  }

  /** validMessageText */
  method ValidMessageText(text: string, tables: RuneTables) returns (valid: bool)
    ensures valid <==> Presentable(text) && Shows(text, tables)
  {
    if text == "" || ByteLen(text) > MAX_TEXT_BYTES {
      return false;
    }
    var hasVisibleRune, i := false, 0;
    while i < |text|
      invariant 0 <= i <= |text|
      invariant forall j :: 0 <= j < i ==> !Forbidden(text[j])
      invariant hasVisibleRune <==> exists j :: 0 <= j < i && Seen(text[j], tables)
    {
      if UnsafeControl(text[i]) {
        assert Forbidden(text[i]);
        return false;
      }
      if Visible(text[i], tables) {
        hasVisibleRune := true;
      }
      i := i + 1;
    }
    return hasVisibleRune;
  }

  /** ignorableMessageText */
  method IgnorableMessageText(text: string, tables: RuneTables) returns (ignorable: bool)
    ensures ignorable <==> Presentable(text) && !Shows(text, tables)
  {
    if text == "" || ByteLen(text) > MAX_TEXT_BYTES {
      return false;
    }
    var i := 0;
    while i < |text|
      invariant 0 <= i <= |text|
      invariant forall j :: 0 <= j < i ==> !Forbidden(text[j]) && !Seen(text[j], tables)
    {
      if UnsafeControl(text[i]) {
        assert Forbidden(text[i]);
        return false;
      }
      if Visible(text[i], tables) {
        assert Seen(text[i], tables);
        return false;
      }
      i := i + 1;
    }
    return true;
  }

  // ---------------------------------------------------------------- which updates become events

  /** A private text message. */
  predicate PrivateText(update: TelegramUpdate) {
    update.message.Some? && update.message.value.chat.kind == "private" && update.message.value.text != ""
  }

  /** All its identifiers are there and plausible. */
  predicate Identified(botId: int, update: TelegramUpdate)
    requires update.message.Some?
  {
    var m := update.message.value;
    && 0 < botId && 0 <= update.updateId && 0 < m.messageId && m.chat.id != 0
    && m.from.Some? && m.from.value.id != 0 && 0 < m.date
  }

  /**
   Exactly the private text messages that are identified, presentable and show
   something become events; the ones that show nothing are ignored, like all other
   kinds of update; and the rest are invalid.
   */
  lemma AdmissionIsExact(botId: int, update: TelegramUpdate, tables: RuneTables)
    ensures var result := MapUpdate(botId, update, tables);
      if !PrivateText(update) then result.Unsupported?
      else if !Identified(botId, update) || !Presentable(update.message.value.text) then result.Invalid?
      else if !Shows(update.message.value.text, tables) then result.Unsupported?
      else result.Admitted?
  {
    if PrivateText(update) {
      var text := update.message.value.text;
      assert forall i :: 0 <= i < |text| ==> (UnsafeControl(text[i]) <==> Forbidden(text[i]));
      assert forall i :: 0 <= i < |text| ==> (Visible(text[i], tables) <==> Seen(text[i], tables));
    }
  }

  // ---------------------------------------------------------------- what events carry

  /** The parts of an event that are read back as they were in the update. */
  lemma EventCarriesItsMessage(botId: int, update: TelegramUpdate, tables: RuneTables)
    requires MapUpdate(botId, update, tables).Admitted? && IsInt64(botId)
    requires var m := update.message.value; IsInt64(m.chat.id) && IsInt64(m.threadId) && IsInt64(m.messageId)
    requires update.message.value.from.Some? ==> IsInt64(update.message.value.from.value.id)
    ensures update.message.Some? && update.message.value.from.Some?
    ensures var (e, m) := (MapUpdate(botId, update, tables).event, update.message.value);
      && e.protocolVersion == "orka.gateway.v1" && e.text == m.text && e.occurredAt == m.date
      && ParseInt(e.accountId) == Some(botId)
      && ParseInt(e.contextId) == Some(m.chat.id)
      && ParseInt(e.senderId) == Some(m.from.value.id)
      && (if m.threadId > 0 then ParseInt(e.threadId) == Some(m.threadId) else e.threadId == "")
      && e.replyTarget == Format(Target(m.chat.id, m.threadId, m.messageId))
      && e.displayName == DisplayName(m.from.value, tables) && e.metadata == ReplyMetadata(m, tables)
  {
    var m := update.message.value;
    ParseOfFormat(botId);
    ParseOfFormat(m.chat.id);
    ParseOfFormat(m.from.value.id);
    ParseOfFormat(m.threadId);
  }

  /** Two events have the same ID exactly when they come from the same update of the same bot. */
  lemma EventIdsAreUnique(bot1: int, u1: TelegramUpdate, bot2: int, u2: TelegramUpdate, tables: RuneTables)
    requires MapUpdate(bot1, u1, tables).Admitted? && MapUpdate(bot2, u2, tables).Admitted?
    requires IsInt64(bot1) && IsInt64(bot2) && IsInt64(u1.updateId) && IsInt64(u2.updateId)
    ensures MapUpdate(bot1, u1, tables).event.externalEventId == MapUpdate(bot2, u2, tables).event.externalEventId
            <==> bot1 == bot2 && u1.updateId == u2.updateId
  {
    var (t, u) := (Target(bot1, 0, 0), Target(bot2, 0, 0));
    TelegramClient.ProviderMessageIdIsUnique(t, u1.updateId, u, u2.updateId);
  }

  /** The sender's name is its full name, or else its username, and tidy. */
  lemma NameIsTidy(user: User, tables: RuneTables)
    ensures var name := DisplayName(user, tables);
      && ByteLen(name) <= 256 && Trimmed(name)
      && DisplayText.Tidy(name, c => tables.format(c) || tables.ignorable(c))
      && (name == "" ==> CleanName(TrimSpace(user.firstName + " " + user.lastName), tables) == "")
      && (CleanName(TrimSpace(user.firstName + " " + user.lastName), tables) == "" ==> name == CleanName(user.username, tables))
  {
    var ignorable := (c: char) => tables.format(c) || tables.ignorable(c);
    DisplayText.SanitizedIsTidy(TrimSpace(user.firstName + " " + user.lastName), ignorable, MAX_NAME_BYTES);
    DisplayText.SanitizedIsTidy(user.username, ignorable, MAX_NAME_BYTES);
  }

  /** Metadata names the message that was replied to, if any, and quotes it and its quote where they say something. */
  lemma MetadataIs(m: Message, tables: RuneTables)
    requires m.replyTo.Some? ==> IsInt64(m.replyTo.value.messageId)
    ensures var data := ReplyMetadata(m, tables);
      var replied := m.replyTo.Some? && 0 < m.replyTo.value.messageId;
      && ("replyToMessageId" in data <==> replied)
      && (replied ==> ParseInt(data["replyToMessageId"]) == Some(m.replyTo.value.messageId))
      && ("replyToText" in data <==> replied && CleanName(m.replyTo.value.text, tables) != "")
      && ("replyToText" in data ==> data["replyToText"] == CleanName(m.replyTo.value.text, tables))
      && ("quoteText" in data <==> m.quote.Some? && CleanName(m.quote.value, tables) != "")
      && ("quoteText" in data ==> data["quoteText"] == CleanName(m.quote.value, tables))
      && data.Keys <= {"replyToMessageId", "replyToText", "quoteText"}
  {
    KeysDiffer();
    if m.replyTo.Some? {
      ParseOfFormat(m.replyTo.value.messageId);
    }
  }

  lemma KeysDiffer()
    ensures "replyToMessageId" != "replyToText" && "replyToMessageId" != "quoteText" && "replyToText" != "quoteText"
  {
    assert |"replyToMessageId"| == 16 && |"replyToText"| == 11 && |"quoteText"| == 9;
  }
}
