/**
 What a request can come to on the wire, and what Create makes of it: the result classes of
 internal/clients/signoz.go and Create in internal/resources/adapters/common_transport.go.
 */
module Transport {
  import opened Common
  import opened Errors

  /** A response body: Readable is JSON whose data.id reads as the given string, "" if it reads as nothing. */
  datatype Body = Empty | Readable(id: string) | NotJson | Oversized | CutShort

  datatype Wire =
    | NotSent(text: string)
    | NoAnswer(text: string)
    | Answer(status: int, body: Body)

  /** The id gjson finds in a body an exchange lets through; "" when there is none. */
  function IdIn(body: Body): string {
    if body.Readable? then body.id else ""
  }

  /** The status and the id in the body, or an error when the client never got a usable reply. */
  function Exchange(wire: Wire): Result<(int, string), Error> {
    match wire
    case NotSent(text) => Err(Base(InvalidInput, "could not build the request", Some(Plain(text))))
    case NoAnswer(text) => Err(Base(Unreachable, "could not reach SigNoz", Some(Plain(text))))
    case Answer(status, body) =>
      match body {
        case CutShort => Err(Base(Unreachable, "could not read the response body", None))
        case Oversized => Err(Base(Unreachable, "response body over the limit", None))
        case NotJson =>
          if IsSuccess(status) then Err(Base(Unreachable, "success status with a non-JSON body", None))
          else Ok((status, ""))
        case _ => Ok((status, IdIn(body)))
      }
  }

  /** A create: render the body, send it, classify the status, read the new id. */
  function Create(renderError: Option<Error>, wire: Wire): Result<string, Error> {
    match renderError
    case Some(err) => Err(err)
    case None =>
      match Exchange(wire) {
        case Err(err) => Err(err)
        case Ok((status, id)) =>
          match NewFromHTTPResponse(status, "") {
            case Some(err) => Err(err)
            case None => if id == "" then Err(Plain("no value at data.id")) else Ok(id)
          }
      }
  }

  /** The create ended in a way that makes the reconciler take its create-attempt annotation back. */
  predicate ClearsAttempt(created: Result<string, Error>) {
    && created.Err?
    && !ReasonForError(created.error).AlreadyExists?
    && !IsRetryable(created.error)
  }

  /** A usable reply: its status decides, whatever JSON, text or nothing it carries. */
  predicate Usable(body: Body) {
    !body.Oversized? && !body.CutShort?
  }

  /** The server turned the request down before creating anything. */
  predicate Refused(wire: Wire) {
    wire.Answer? && wire.status in {400, 401, 403}
  }

  /**
   Through all four layers of classification the annotation goes exactly when the body could not be
   rendered for a reason of the spec's own, the request was never sent, or a usable 400, 401 or 403
   came back. Every other end of a create keeps it.
   */
  lemma AttemptClearedIffSurelyNothingCreated(renderError: Option<Error>, wire: Wire)
    ensures ClearsAttempt(Create(renderError, wire)) <==>
            match renderError
            case Some(err) => ReasonForError(err) in {InvalidInput, Unauthorized, Forbidden}
            case None => wire.NotSent? || (Refused(wire) && Usable(wire.body))
  {
    if renderError.None? && wire.Answer? {
      var reason := NewFromHTTPResponse(wire.status, "");
      assert reason.Some? ==> ReasonForError(reason.value) == reason.value.reason;
    }
  }

  /** A create reads as a conflict exactly on a usable 409, unless its body failed to render as one. */
  lemma ConflictIffUsable409(renderError: Option<Error>, wire: Wire)
    ensures Create(renderError, wire).Err? && ReasonForError(Create(renderError, wire).error).AlreadyExists? <==>
            match renderError
            case Some(err) => FirstReason(err) == Some(AlreadyExists)
            case None => wire.Answer? && wire.status == 409 && !wire.body.Oversized? && !wire.body.CutShort?
  {
    if renderError.None? && wire.Answer? {
      var reason := NewFromHTTPResponse(wire.status, "");
      assert reason.Some? ==> ReasonForError(reason.value) == reason.value.reason;
    }
  }

  /** An id is only ever taken from a success status, and it is never empty. */
  lemma CreatedIffReadableSuccess(renderError: Option<Error>, wire: Wire, id: string)
    ensures Create(renderError, wire) == Ok(id) <==>
            renderError.None? && wire.Answer? && IsSuccess(wire.status) && id != "" && wire.body == Readable(id)
  {
  }
}
