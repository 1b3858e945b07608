/** The delivery half of the gateway protocol, and the digests taken of it. */
module Wire {
  import opened Prelude
  import opened SafeText

  type Id = string

  datatype ResourceReference = ResourceReference(namespaceName: string, name: string)

  datatype DeliveryRequest = DeliveryRequest(
    protocolVersion: string,
    deliveryId: Id,
    idempotencyId: Id,
    originatingEvent: string,
    taskRef: Option<ResourceReference>,
    sessionRef: Option<ResourceReference>,
    kind: string,
    accountId: string,
    contextId: string,
    threadId: string,
    replyTarget: string,
    text: string,
    metadata: map<string, string>)

  /**
   A SHA-256 value as the store keeps it.  Hashing the JSON of a request is taken
   to be injective, so the digest of a request is represented by the request; a
   persisted value that is no request's digest is `Foreign`.
   */
  datatype Digest = OfRequest(request: DeliveryRequest) | Foreign(hex: string)

  /** The version 1 digest: the request with its transport delivery ID. */
  function LegacyDigest(r: DeliveryRequest): Digest {
    OfRequest(r)
  }

  /** The logical digest: the same request with the delivery ID replaced by the stable ID. */
  function LogicalDigest(r: DeliveryRequest): Digest {
    OfRequest(r.(deliveryId := r.idempotencyId))
  }

  datatype DeliveryStatus = StatusDelivered | StatusRetryableError | StatusNonRetryableError

  datatype DeliveryResponse = DeliveryResponse(status: DeliveryStatus, providerMessageId: string, message: string)

  /** validateRequiredIdentity: what the protocol admits as an identity. */
  predicate ValidIdentity(value: string) {
    value != "" && value == TrimSpace(value) && ByteLen(value) <= MAX_IDENTITY_BYTES && !HasControl(value)
  }

  /** normalizeIdentity: what the store makes of one. */
  function NormalizeIdentity(value: string): Option<string> {
    var v := TrimSpace(value);
    if v == "" || ByteLen(v) > MAX_IDENTITY_BYTES || HasControl(v) then None else Some(v)
  }

  /** The store leaves an identity alone exactly when the protocol admits it, and makes nothing else of any other. */
  lemma NormalisingAdmittedIdentities(value: string)
    ensures NormalizeIdentity(value) == Some(value) <==> ValidIdentity(value)
    ensures NormalizeIdentity(value).Some? ==> ValidIdentity(NormalizeIdentity(value).value)
  {
    TrimSpaceOfTrimmed(TrimSpace(value));
  }
}
