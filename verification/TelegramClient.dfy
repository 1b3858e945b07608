/** What one sendMessage exchange is worth: the classification every persisted outcome rests on. */
module TelegramClient {
  import opened Prelude
  import opened SafeText
  import opened MessageLaws
  import opened Decimal
  import opened ReplyTarget
  import opened DeliveryLedger

  datatype ResultClass = ResultDelivered | ResultRetryable | ResultNonRetryable | ResultAmbiguous

  datatype SendResult = SendResult(
    class_: ResultClass,
    description: string,
    retryAfterNs: int,
    providerMessageId: string)

  datatype SentMessage = SentMessage(messageId: int, chatId: int, threadId: int)

  /** How an exchange with Telegram can end, as the client observes it. */
  datatype Exchange =
    | NotEncoded                                      // the request could not be built
    | TransportFailed(wrote: bool, reason: string)    // no response; `wrote` is the WroteRequest trace
    | Unreadable(reason: string)                      // a response without a usable envelope
    | Declined(httpStatus: int, errorCode: int, reason: string, retryAfter: int)   // ok: false
    | Replied(message: Option<SentMessage>)           // ok: true, with its result if it decodes

  /** ClassifyTelegramFailure */
  function ClassifyFailure(httpStatus: int, errorCode: int): ResultClass {
    var code := if errorCode == 0 then httpStatus else errorCode;
    if code == 408 || code == 409 || code == 425 || code == 420 || code == 429 || 500 <= code <= 599 then ResultRetryable
    else if 400 <= code <= 499 then ResultNonRetryable
    else if 300 <= httpStatus <= 499 then ResultNonRetryable
    else if 500 <= httpStatus <= 599 then ResultRetryable
    else ResultAmbiguous
  }

  /** Two's complement wrap-around of a 64-bit product. */
  function WrapInt64(n: int): int {
    (n - MIN_INT64) % 0x1_0000_0000_0000_0000 + MIN_INT64
  }

  const NS_PER_SECOND := 1_000_000_000

  /** retryAfterDuration: seconds to a Go Duration, which is int64 nanoseconds. */
  function RetryAfterDuration(seconds: int): int {
    if seconds <= 0 then 0 else WrapInt64(seconds * NS_PER_SECOND)
  }

  /** The duration is the one Telegram asked for exactly below the wrap-around, about 292 years. */
  lemma RetryAfterIsExact(seconds: int)
    ensures RetryAfterDuration(seconds) == seconds * NS_PER_SECOND <==> 0 <= seconds <= 9_223_372_036
  {
    assert IsInt64(WrapInt64(seconds * NS_PER_SECOND));
    if 0 < seconds <= 9_223_372_036 {
      var n := seconds * NS_PER_SECOND - MIN_INT64;
      assert 0 <= n < 0x1_0000_0000_0000_0000;
      assert n % 0x1_0000_0000_0000_0000 == n;
    }
  }

  function ProviderMessageId(target: Target, messageId: int): string {
    "telegram:" + FormatInt(target.chatId) + ":" + FormatInt(messageId)
  }

  /** SendMessage, once its request was valid: the exchange and its classified result. */
  function ResultOf(target: Target, x: Exchange): SendResult {
    match x
    case NotEncoded => SendResult(ResultNonRetryable, "request could not be encoded", 0, "")
    case TransportFailed(wrote, reason) =>
      if wrote then SendResult(ResultAmbiguous, reason, 0, "")
      else SendResult(ResultRetryable, "request failed before it was sent", 0, "")
    case Unreadable(reason) => SendResult(ResultAmbiguous, reason, 0, "")
    case Declined(status, code, reason, retryAfter) =>
      SendResult(ClassifyFailure(status, code),
                 if reason == "" then "Telegram rejected the request" else reason,
                 RetryAfterDuration(retryAfter), "")
    case Replied(message) =>
      if message.None? then SendResult(ResultAmbiguous, "response result was invalid", 0, "")
      else
        var m := message.value;
        if m.messageId <= 0 || m.chatId != target.chatId || (target.threadId > 0 && m.threadId != target.threadId)
        then SendResult(ResultAmbiguous, "invalid message result", 0, "")
        else SendResult(ResultDelivered, "", 0, ProviderMessageId(target, m.messageId))
  }

  /** persistSendResult: the outcome a result is stored as. */
  function CompletionOf(result: SendResult, notBeforeMs: int): Completion {
    match result.class_
    case ResultDelivered => Completion(Delivered, result.providerMessageId, "", None)
    case ResultRetryable =>
      Completion(Retryable, "", result.description, if result.retryAfterNs > 0 then Some(notBeforeMs) else None)
    case ResultNonRetryable => Completion(Permanent, "", result.description, None)
    case ResultAmbiguous => Completion(Unknown, "", result.description, None)
  }

  function StateOf(c: ResultClass): DeliveryState {
    match c
    case ResultDelivered => Delivered
    case ResultRetryable => Retryable
    case ResultNonRetryable => Permanent
    case ResultAmbiguous => Unknown
  }

  /** What the provider did with one request, whatever the client got to see of it. */
  datatype CallStatus = Unwritten | Written | Accepted(messageId: int) | Rejected

  /**
   The assumptions about Telegram and the transport: a request that was never
   written is not accepted later, `ok: false` is an answer to a request that was
   not accepted, and `ok: true` to one that was, with the message it became.
   Anything else tells nothing.
   */
  predicate Observable(x: Exchange, status: CallStatus) {
    match x
    case NotEncoded => status == Unwritten
    case TransportFailed(wrote, _) => !wrote ==> status == Unwritten
    case Unreadable(_) => true
    case Declined(_, _, _, _) => status == Rejected
    case Replied(message) => status.Accepted? && (message.Some? ==> message.value.messageId == status.messageId)
  }

  /**
   The classification never guesses: only a request that was not accepted may be
   retried or given up, and a delivered one is reported as the message it became.
   */
  lemma ClassificationIsSafe(target: Target, x: Exchange, status: CallStatus)
    requires Observable(x, status)
    ensures var result := ResultOf(target, x);
      && (result.class_ == ResultRetryable || result.class_ == ResultNonRetryable ==>
            status == Unwritten || status == Rejected)
      && (result.class_ == ResultDelivered ==>
            status.Accepted? && result.providerMessageId == ProviderMessageId(target, status.messageId))
  {
  }

  /** A reply that confirms a message for `target`: its own chat, its own thread if it names one, and a message ID. */
  predicate Confirms(target: Target, x: Exchange) {
    && x.Replied? && x.message.Some? && 0 < x.message.value.messageId
    && x.message.value.chatId == target.chatId
    && (0 < target.threadId ==> x.message.value.threadId == target.threadId)
  }

  /**
   Exactly what each class of result stands for: delivered is a reply that confirms
   the message; retryable a request that never went out, or a temporary refusal;
   not retryable a request that could not be made, or a final refusal; and whatever
   else a request that went out can end in is ambiguous.
   */
  lemma ResultIsExact(target: Target, x: Exchange)
    ensures var class_ := ResultOf(target, x).class_;
      && (class_ == ResultDelivered <==> Confirms(target, x))
      && (class_ == ResultRetryable <==>
            || (x.TransportFailed? && !x.wrote)
            || (x.Declined? && ClassifyFailure(x.httpStatus, x.errorCode) == ResultRetryable))
      && (class_ == ResultNonRetryable <==>
            x.NotEncoded? || (x.Declined? && ClassifyFailure(x.httpStatus, x.errorCode) == ResultNonRetryable))
      && (class_ == ResultAmbiguous <==>
            || (x.TransportFailed? && x.wrote) || x.Unreadable? || (x.Replied? && !Confirms(target, x))
            || (x.Declined? && ClassifyFailure(x.httpStatus, x.errorCode) == ResultAmbiguous))
    ensures Confirms(target, x) ==>
              ResultOf(target, x).providerMessageId == ProviderMessageId(target, x.message.value.messageId)
    ensures !Confirms(target, x) ==> ResultOf(target, x).providerMessageId == ""
    ensures x.Declined? && x.reason != "" ==> ResultOf(target, x).description == x.reason
    ensures ResultOf(target, x).retryAfterNs == if x.Declined? then RetryAfterDuration(x.retryAfter) else 0
  {
    assert 0 < |ProviderMessageId(target, 0)|;
  }

  /** Refusals that pass: the server's own failures, timeouts, conflicts, and being asked to slow down. */
  predicate Passing(code: int) {
    code in {408, 409, 420, 425, 429} || 500 <= code < 600
  }

  /**
   A refusal is judged by the error code in its body, if there is one, and otherwise
   by the HTTP status; a body code that is neither a client's nor a server's error
   leaves the judgement to the status.
   */
  lemma FailureIsExact(httpStatus: int, errorCode: int)
    ensures var c := ClassifyFailure(httpStatus, errorCode);
      && (errorCode == 0 && 400 <= httpStatus < 600 ==>
            c == if Passing(httpStatus) then ResultRetryable else ResultNonRetryable)
      && (400 <= errorCode < 600 ==> c == if Passing(errorCode) then ResultRetryable else ResultNonRetryable)
      && (!(400 <= errorCode < 600) && !(400 <= httpStatus < 600) ==>
            c == if 300 <= httpStatus < 400 then ResultNonRetryable else ResultAmbiguous)
      && (errorCode != 0 && !(400 <= errorCode < 600) && 400 <= httpStatus < 600 ==>
            c == if httpStatus < 500 then ResultNonRetryable else ResultRetryable)
  {
  }

  /** Different messages have different IDs. */
  lemma ProviderMessageIdIsUnique(t: Target, m: int, u: Target, n: int)
    requires IsInt64(t.chatId) && IsInt64(u.chatId) && IsInt64(m) && IsInt64(n)
    ensures ProviderMessageId(t, m) == ProviderMessageId(u, n) <==> t.chatId == u.chatId && m == n
  {
    if ProviderMessageId(t, m) == ProviderMessageId(u, n) {
      var (a, b, c, d) := (FormatInt(t.chatId), FormatInt(m), FormatInt(u.chatId), FormatInt(n));
      FormatIntShape(t.chatId);
      FormatIntShape(m);
      FormatIntShape(u.chatId);
      FormatIntShape(n);
      assert "telegram:" + a + ":" + b == "telegram" + [':'] + (a + [':'] + b);
      assert "telegram:" + c + ":" + d == "telegram" + [':'] + (c + [':'] + d);
      SplitOfPair(a, b);
      SplitOfPair(c, d);
      assert (a + [':'] + b) == ProviderMessageId(t, m)[9..] == (c + [':'] + d);
      assert [a, b][0] == [c, d][0] && [a, b][1] == [c, d][1];
      ParseOfFormat(t.chatId);
      ParseOfFormat(u.chatId);
      ParseOfFormat(m);
      ParseOfFormat(n);
    }
  }

  lemma SplitOfPair(a: string, b: string)
    requires ':' !in a && ':' !in b
    ensures Split(a + [':'] + b, ':') == [a, b]
  {
    SplitOfPiece(a, b, ':');
    SplitOfLast(b, ':');
  }

  lemma ProviderMessageIdIsStored(target: Target, messageId: int)
    requires target.Valid() && IsInt64(messageId)
    ensures NormalizeProviderMessageId(ProviderMessageId(target, messageId)) == Some(ProviderMessageId(target, messageId))
  {
    var (c, m) := (FormatInt(target.chatId), FormatInt(messageId));
    var s := ProviderMessageId(target, messageId);
    FormatIntShape(target.chatId);
    FormatIntShape(messageId);
    forall i | 0 <= i < |s| ensures !IsControl(s[i]) && RuneLen(s[i]) == 1 {
      if 9 <= i < 9 + |c| {
        assert s[i] == c[i - 9] && IsDecimalChar(c[i - 9]);
      } else if 10 + |c| <= i {
        assert s[i] == m[i - 10 - |c|] && IsDecimalChar(m[i - 10 - |c|]);
      }
    }
    assert s[0] == 't';
    assert IsDecimalChar(m[|m| - 1]) && s[|s| - 1] == m[|m| - 1];
    TrimSpaceOfTrimmed(s);
    AsciiByteLen(s);
  }

  /** Every exchange of a valid request yields a completion the store accepts as an argument. */
  lemma CompletionIsStorable(target: Target, x: Exchange, notBeforeMs: int)
    requires target.Valid() && 0 < notBeforeMs
    requires x.Replied? && x.message.Some? ==> IsInt64(x.message.value.messageId)
    ensures var result := ResultOf(target, x);
      var o := Normalize(CompletionOf(result, notBeforeMs));
      && o.Some? && o.value.state == StateOf(result.class_)
      && o.value.retryNotBeforeMs ==
         (if result.class_ == ResultRetryable && result.retryAfterNs > 0 then notBeforeMs else 0)
      && o.value.providerMessageId == result.providerMessageId
  {
    var result := ResultOf(target, x);
    if result.class_ == ResultDelivered {
      ProviderMessageIdIsStored(target, x.message.value.messageId);
    } else {
      assert NormalizeProviderMessageId("") == Some("");
    }
  }
}
