/**
 Error chains and their classification by reason: internal/errors/error.go, reason.go and http.go.
 */
module Errors {
  import opened Common

  datatype Reason =
    | Unknown
    | InvalidInput
    | Unauthorized
    | Forbidden
    | NotFound
    | AlreadyExists
    | TooManyRequests
    | Internal
    | Unreachable
  {
    predicate Retryable() {
      !(InvalidInput? || Unauthorized? || Forbidden? || AlreadyExists?)
    }
  }

  /** A chain of wrapped errors; only a Base carries a reason. */
  datatype Error =
    | Base(reason: Reason, text: string, cause: Option<Error>)
    | Wrapped(prefix: string, inner: Error)
    | Plain(text: string)

  /** The reason of the first Base in the chain. */
  function FirstReason(err: Error): Option<Reason> {
    match err
    case Base(reason, _, _) => Some(reason)
    case Wrapped(_, inner) => FirstReason(inner)
    case Plain(_) => None
  }

  function ReasonForError(err: Error): Reason {
    match FirstReason(err)
    case Some(reason) => reason
    case None => Unknown
  }

  predicate IsRetryable(err: Error) {
    ReasonForError(err).Retryable()
  }

  predicate IsSuccess(status: int) {
    200 <= status < 300
  }

  function NewFromHTTPResponse(status: int, detail: string): Option<Error> {
    if IsSuccess(status) then None
    else if status == 400 then Some(Base(InvalidInput, detail, None))
    else if status == 401 then Some(Base(Unauthorized, detail, None))
    else if status == 403 then Some(Base(Forbidden, detail, None))
    else if status == 404 then Some(Base(NotFound, detail, None))
    else if status == 409 then Some(Base(AlreadyExists, detail, None))
    else if status == 429 then Some(Base(TooManyRequests, detail, None))
    else if status >= 500 then Some(Base(Internal, detail, None))
    else Some(Base(Unknown, detail, None))
  }

  /** The error and everything it wraps, outermost first. */
  function Chain(err: Error): seq<Error> {
    match err
    case Base(_, _, Some(cause)) => [err] + Chain(cause)
    case Wrapped(_, inner) => [err] + Chain(inner)
    case _ => [err]
  }

  /** The reason is that of the first Base in the chain, or Unknown, which a retry may fix. */
  lemma {:induction false} ReasonIsTheFirst(err: Error, reason: Reason)
    ensures FirstReason(err) == Some(reason) <==>
            exists i | 0 <= i < |Chain(err)| ::
              && Chain(err)[i].Base? && Chain(err)[i].reason == reason
              && forall j | 0 <= j < i :: !Chain(err)[j].Base?
    ensures FirstReason(err).None? <==> forall i | 0 <= i < |Chain(err)| :: !Chain(err)[i].Base?
    ensures ReasonForError(err) == (if FirstReason(err).None? then Unknown else FirstReason(err).value)
    ensures IsRetryable(err) <==> ReasonForError(err) !in {InvalidInput, Unauthorized, Forbidden, AlreadyExists}
  {
    match err
    case Base(_, _, _) => assert Chain(err)[0] == err;
    case Wrapped(_, inner) =>
      ReasonIsTheFirst(inner, reason);
      assert Chain(err)[0] == err;
      assert forall i | 0 < i < |Chain(err)| :: Chain(err)[i] == Chain(inner)[i - 1];
      assert forall i | 0 <= i < |Chain(inner)| :: Chain(err)[i + 1] == Chain(inner)[i];
    case Plain(_) =>
  }

  /** What each status says. */
  lemma StatusNamesTheReason(status: int, detail: string)
    requires !(200 <= status < 300)
    ensures NewFromHTTPResponse(status, detail).Some?
    ensures var reason := ReasonForError(NewFromHTTPResponse(status, detail).value);
            && (reason == NotFound <==> status == 404)
            && (reason == AlreadyExists <==> status == 409)
            && (reason == InvalidInput <==> status == 400)
            && (reason == Unauthorized <==> status == 401)
            && (reason == Forbidden <==> status == 403)
            && (reason == TooManyRequests <==> status == 429)
            && (reason == Internal <==> status >= 500)
  {
    var err := NewFromHTTPResponse(status, detail).value;
    assert FirstReason(err) == Some(err.reason);
  }
}
