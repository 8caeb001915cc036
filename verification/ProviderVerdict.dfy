/**
 From one HTTP submission to the state a mail job is left in: the provider's own classification,
 the service's distrust of malformed results, and the five-way branch that follows.
 */
module ProviderVerdict {
  import opened Base
  import opened MailTables

  datatype ProviderKind = Oci | Sandbox

  datatype Disposition = Accepted | Transient | Permanent | Suppressed | Unknown

  /** What MailProvider.send returns. The three receipt identifiers are kept only as present or absent. */
  datatype SendResult = SendResult(
    provider: ProviderKind, success: bool, disposition: Option<Disposition>, errorCode: Option<Reason>,
    hasMessageId: bool, hasEnvelopeId: bool, hasRequestId: bool)

  /** One completed submission to the OCI endpoint, as the provider class sees it. */
  datatype Submission =
    | Receipt(messageIdLength: nat, envelopeIdLength: nat, requestIdSafe: bool, suppressedIsArray: bool, suppressed: nat)
    | ServiceError(statusCode: int, serviceCode: string)
    | OtherError

  /** What the delivery service does with a result. */
  datatype Verdict =
    | Delivered
    | Reject(reason: Reason)      // terminal, certainly not accepted
    | Doubtful                    // terminal, may have been accepted
    | Retry(reason: Reason)       // certainly not accepted, may be tried again

  const UNKNOWN_RESULT := SendResult(Oci, false, Some(Unknown), Some(ProviderOutcomeUnknown), false, false, false)

  /** classifyOciSubmitError. */
  function ClassifyError(s: Submission): (Disposition, Reason)
    requires !s.Receipt?
  {
    match s
    case OtherError => (Unknown, ProviderOutcomeUnknown)
    case ServiceError(code, service) =>
      if code == 429 || (code == 400 && service in ["QuotaExceeded", "LimitExceeded"]) then (Transient, QuotaRejected)
      else if code == 401 || code == 403 then (Permanent, AuthRejected)
      else if 400 <= code < 500 && code !in [408, 425, 499] then (Permanent, RequestRejected)
      else (Unknown, ProviderOutcomeUnknown)
  }

  /** OciEmailDeliveryProvider.send: a malformed receipt throws, and the throw is classified. */
  function OciSend(s: Submission): SendResult {
    match s
    case Receipt(messageId, envelopeId, requestIdSafe, suppressedIsArray, suppressed) =>
      if messageId == 0 || messageId > 255 || envelopeId == 0 || envelopeId > 512 || !requestIdSafe || !suppressedIsArray then
        var (d, e) := ClassifyError(OtherError);
        SendResult(Oci, false, Some(d), Some(e), false, false, false)
      else if suppressed > 0 then
        SendResult(Oci, false, Some(Suppressed), Some(RecipientSuppressed), true, true, true)
      else
        SendResult(Oci, true, Some(Accepted), None, true, true, true)
    case _ =>
      var (d, e) := ClassifyError(s);
      SendResult(Oci, false, Some(d), Some(e), false, false, false)
  }

  /** An OCI result that contradicts itself or lacks its receipt is replaced by "unknown". */
  function Normalize(kind: ProviderKind, r: SendResult): SendResult {
    if kind == Oci
      && (r.provider != Oci
          || r.disposition.None?
          || (r.disposition == Some(Accepted)) != r.success
          || (r.disposition == Some(Accepted) && !(r.hasMessageId && r.hasEnvelopeId && r.hasRequestId)))
    then UNKNOWN_RESULT
    else r
  }

  /** The branch taken on a normalized result. */
  function Judge(kind: ProviderKind, result: SendResult): Verdict {
    var r := Normalize(kind, result);
    if r.success then Delivered
    else if kind == Oci && r.disposition != Some(Transient) then
      if r.disposition == Some(Suppressed) then Reject(RecipientSuppressed)
      else if r.disposition == Some(Permanent) then
        if r.errorCode == Some(AuthRejected) then Reject(AuthRejected) else Reject(RequestRejected)
      else Doubtful
    else if kind == Oci then Retry(if r.errorCode.Some? then r.errorCode.value else ProviderTransient)
    else Retry(ProviderFailure)
  }

  /** A well-formed receipt that names no suppressed recipient. */
  predicate CleanReceipt(s: Submission) {
    && s.Receipt? && 0 < s.messageIdLength <= 255 && 0 < s.envelopeIdLength <= 512
    && s.requestIdSafe && s.suppressedIsArray
  }

  /** The responses by which OCI says "over quota, nothing was sent". */
  predicate QuotaRefusal(s: Submission) {
    s.ServiceError? && (s.statusCode == 429
      || (s.statusCode == 400 && (s.serviceCode == "QuotaExceeded" || s.serviceCode == "LimitExceeded")))
  }

  /** Any other 4xx answer, except the three that do not say whether the request was processed. */
  predicate FirmRefusal(s: Submission) {
    s.ServiceError? && 400 <= s.statusCode < 500 && !QuotaRefusal(s)
    && s.statusCode != 408 && s.statusCode != 425 && s.statusCode != 499
  }

  /**
   End to end over every submission: a job is marked sent exactly on a clean receipt, retried
   exactly on a quota refusal, failed exactly on suppression or a firm refusal, and everything
   else (timeouts, 5xx, malformed receipts) is kept as doubtful and never retried.
   */
  lemma SubmissionOutcome(s: Submission)
    ensures Judge(Oci, OciSend(s)) == Delivered <==> CleanReceipt(s) && s.suppressed == 0
    ensures Judge(Oci, OciSend(s)).Retry? <==> QuotaRefusal(s)
    ensures Judge(Oci, OciSend(s)).Reject? <==> (CleanReceipt(s) && s.suppressed > 0) || FirmRefusal(s)
    ensures Judge(Oci, OciSend(s)).Doubtful? <==>
            (s.Receipt? && !CleanReceipt(s)) || s.OtherError? || (s.ServiceError? && !QuotaRefusal(s) && !FirmRefusal(s))
    ensures s.ServiceError? && s.statusCode >= 500 ==> Judge(Oci, OciSend(s)).Doubtful?
  {
    match s
    case Receipt(_, _, _, _, _) =>
    case OtherError =>
    case ServiceError(code, service) =>
      assert service in ["QuotaExceeded", "LimitExceeded"] <==> service == "QuotaExceeded" || service == "LimitExceeded";
      assert code in [408, 425, 499] <==> code == 408 || code == 425 || code == 499;
  }

  /**
   Distrust of arbitrary provider code: whatever an OCI provider object returns, the job is
   marked sent only if the result claims success, says "accepted" and carries all three
   identifiers, and it is retried only if the result says "transient" and claims no success.
   */
  lemma NormalizedResultIsTrustworthy(r: SendResult)
    ensures Judge(Oci, r) == Delivered <==>
            r.provider == Oci && r.success && r.disposition == Some(Accepted) && r.hasMessageId && r.hasEnvelopeId && r.hasRequestId
    ensures Judge(Oci, r).Retry? <==> r.provider == Oci && !r.success && r.disposition == Some(Transient)
    ensures Judge(Sandbox, r) == Delivered <==> r.success
  {
  }
}
