// Classification of HTTP replies (internal/congkong/classifier.go).
// A reply is the decoded record: JSON decoding leaves the fields it cannot fill empty.
module Classifier {
  import opened Domain

  /** The result texts the protocol knows, and any other. */
  datatype ResultText =
    | Success                // "success"
    | Duplication            // "success:duplication"
    | NotFound               // "fail:barcode-not-found"
    | Invalid                // "fail:barcode-invalid"
    | NoOwner                // "fail:barcode-no-owner"
    | Condition              // "fail:condition"
    | OtherResult(result: string)

  /** The messages of a 400 envelope the protocol knows, and any other. */
  datatype MessageText =
    | MustBeRfc3339          // "checkedAt must be RFC3339"
    | OutOfRange             // "checkedAt out of range"
    | ErrorBind              // "error bind"
    | UidRequired            // "barcodeString or invitationCode required"
    | OtherMessage(message: string)

  /** `result` is the top-level field of a 200 body, `dataResult` and `message` those of an error envelope. */
  datatype Reply = Reply(
    transportErr: bool,
    bodyErr: bool,
    status: int,
    result: ResultText,
    dataResult: ResultText,
    message: MessageText)

  datatype ReplyClass =
    | CheckinSuccess | ResponseLost | ProtocolAnomaly2XX | DuplicateSuccess | BarcodeNotFound
    | TokenRevoked | BarcodeInvalid | BarcodeNoOwner | ConditionFailed | CheckedAtFormat
    | CheckedAtRange | RequestBindBug | EmptyUidBug | Unknown4XX | Server5XX | NetworkFailure

  function Classify(r: Reply): (Decision, ReplyClass) {
    if r.transportErr then (Retry, NetworkFailure)
    else if r.bodyErr then (Retry, ResponseLost)
    else if r.status == 200 then
      if r.result.Success? then (Complete, CheckinSuccess) else (Drop, ProtocolAnomaly2XX)
    else if r.status == 409 then
      if r.dataResult.Duplication? then (Complete, DuplicateSuccess) else (Drop, Unknown4XX)
    else if r.status == 404 then
      if r.dataResult.NotFound? then (Drop, BarcodeNotFound) else (SuspendReader, TokenRevoked)
    else if r.status == 406 then
      (Drop, if r.dataResult.Invalid? then BarcodeInvalid else Unknown4XX)
    else if r.status == 424 then
      (Drop, if r.dataResult.NoOwner? then BarcodeNoOwner else Unknown4XX)
    else if r.status == 403 then
      (Drop, if r.dataResult.Condition? then ConditionFailed else Unknown4XX)
    else if r.status == 400 then
      if r.message.MustBeRfc3339? then (Drop, CheckedAtFormat)
      else if r.message.OutOfRange? then (Drop, CheckedAtRange)
      else if r.message.ErrorBind? then (HaltGlobal, RequestBindBug)
      else if r.message.UidRequired? then (Drop, EmptyUidBug)
      else (Drop, Unknown4XX)
    else if r.status >= 500 then (Retry, Server5XX)
    else if r.status >= 400 then (Drop, Unknown4XX)
    else (Drop, ProtocolAnomaly2XX)
  }

  predicate Arrived(r: Reply) {
    !r.transportErr && !r.bodyErr
  }

  /** The decision alone, read backwards: which replies lead to which fate of a row. */
  function Decide(r: Reply): (d: Decision)
    ensures d.Complete? <==> Arrived(r) &&
                             ((r.status == 200 && r.result.Success?) ||
                              (r.status == 409 && r.dataResult.Duplication?))
    ensures d.Retry? <==> !Arrived(r) || r.status >= 500
    ensures d.SuspendReader? <==> Arrived(r) && r.status == 404 && !r.dataResult.NotFound?
    ensures d.HaltGlobal? <==> Arrived(r) && r.status == 400 && r.message.ErrorBind?
  {
    Classify(r).0
  }

  /** The class of a reply, read backwards: it names the reply, and it alone fixes the decision. */
  lemma {:induction false} ClassExactly(r: Reply)
    ensures var (d, c) := Classify(r);
            && (c.NetworkFailure? <==> r.transportErr)
            && (c.ResponseLost? <==> !r.transportErr && r.bodyErr)
            && (c.CheckinSuccess? <==> Arrived(r) && r.status == 200 && r.result.Success?)
            && (c.DuplicateSuccess? <==> Arrived(r) && r.status == 409 && r.dataResult.Duplication?)
            && (c.BarcodeNotFound? <==> Arrived(r) && r.status == 404 && r.dataResult.NotFound?)
            && (c.TokenRevoked? <==> Arrived(r) && r.status == 404 && !r.dataResult.NotFound?)
            && (c.BarcodeInvalid? <==> Arrived(r) && r.status == 406 && r.dataResult.Invalid?)
            && (c.BarcodeNoOwner? <==> Arrived(r) && r.status == 424 && r.dataResult.NoOwner?)
            && (c.ConditionFailed? <==> Arrived(r) && r.status == 403 && r.dataResult.Condition?)
            && (c.CheckedAtFormat? <==> Arrived(r) && r.status == 400 && r.message.MustBeRfc3339?)
            && (c.CheckedAtRange? <==> Arrived(r) && r.status == 400 && r.message.OutOfRange?)
            && (c.RequestBindBug? <==> Arrived(r) && r.status == 400 && r.message.ErrorBind?)
            && (c.EmptyUidBug? <==> Arrived(r) && r.status == 400 && r.message.UidRequired?)
            && (c.Server5XX? <==> Arrived(r) && r.status >= 500)
            && (c.ProtocolAnomaly2XX? <==>
                  Arrived(r) && r.status < 400 && !(r.status == 200 && r.result.Success?))
            && (d.Complete? <==> c.CheckinSuccess? || c.DuplicateSuccess?)
            && (d.Retry? <==> c.NetworkFailure? || c.ResponseLost? || c.Server5XX?)
            && (d.SuspendReader? <==> c.TokenRevoked?)
            && (d.HaltGlobal? <==> c.RequestBindBug?)
  {
  }

  /** The decoded reply to a preflight GET; `meta` is None when the body is not a JSON object. */
  datatype PreflightReply = PreflightReply(transportErr: bool, bodyErr: bool, status: int, meta: Option<GateMeta>)

  /** A preflight body counts only if it names an event, a booth or a unit. */
  predicate ValidMeta(m: Option<GateMeta>) {
    m.Some? && !(m.value.boothName == "" && m.value.eventName == "" && m.value.unitName == "")
  }

  predicate PreflightUnreachable(r: PreflightReply) {
    r.transportErr || r.bodyErr || r.status >= 500
  }

  /** A 200 reply that satisfies the preflight contract. */
  predicate PreflightOk(r: PreflightReply) {
    !PreflightUnreachable(r) && r.status == 200 && ValidMeta(r.meta)
  }
}
