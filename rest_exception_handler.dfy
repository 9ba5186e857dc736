/** The controller advice that turns exceptions into JSON error bodies. */
module RestErrors {
  import opened Wrappers
  import opened Basics

  datatype HttpStatus = OK | Created | NoContent | BadRequest | Unauthorized | Forbidden | NotFound
  {
    function Value(): int {
      match this
      case OK => 200
      case Created => 201
      case NoContent => 204
      case BadRequest => 400
      case Unauthorized => 401
      case Forbidden => 403
      case NotFound => 404
    }

    function ReasonPhrase(): string {
      match this
      case OK => "OK"
      case Created => "Created"
      case NoContent => "No Content"
      case BadRequest => "Bad Request"
      case Unauthorized => "Unauthorized"
      case Forbidden => "Forbidden"
      case NotFound => "Not Found"
    }
  }

  /** The `details` entry: absent, a map from field to message, or the exception's message. */
  datatype Details = NoDetails | FieldMessages(messages: map<string, string>) | Message(text: string)

  /** The JSON error body. The `timestamp` entry reads the clock and is not modelled. */
  datatype ErrorPayload = ErrorPayload(status: int, error: string, message: string, details: Details)

  datatype ErrorResponse = ErrorResponse(status: HttpStatus, payload: ErrorPayload)

  /** The four exception types the bad-request handler catches. */
  datatype BadRequestCause =
    | MethodArgumentNotValid(fieldErrors: seq<FieldError>)
    | ConstraintViolation(violations: seq<FieldError>)
    | TypeMismatch(exceptionMessage: string)
    | NotReadable(exceptionMessage: string)

  const InvalidRequest := "Invalid request"

  function BuildPayload(status: HttpStatus, message: string): (p: ErrorPayload)
    ensures p.status == status.Value() && p.error == status.ReasonPhrase()
    ensures p.message == message && p.details == NoDetails
  {
    ErrorPayload(status.Value(), status.ReasonPhrase(), message, NoDetails)
  }

  /** A missing entity: 404, and the exception's message becomes the payload's message. */
  function HandleEntityNotFound(message: string): (r: ErrorResponse)
    ensures r.status == NotFound && r.payload.status == 404 && r.payload.error == "Not Found"
    ensures r.payload.message == message && r.payload.details == NoDetails
  {
    ErrorResponse(NotFound, BuildPayload(NotFound, message))
  }

  /** No later error names the same field as `errors[i]`. */
  predicate LastForField(errors: seq<FieldError>, i: int)
    requires 0 <= i < |errors|
  {
    forall j :: i < j < |errors| ==> errors[j].field != errors[i].field
  }

  /** `d` has an entry exactly for the fields some error names. */
  ghost predicate KeysAreFields(errors: seq<FieldError>, d: map<string, string>) {
    forall f :: f in d <==> exists i :: 0 <= i < |errors| && errors[i].field == f
  }

  /** Each field's entry holds the message of the last error for that field. */
  ghost predicate LastMessageWins(errors: seq<FieldError>, d: map<string, string>) {
    forall i :: 0 <= i < |errors| && LastForField(errors, i) ==>
      errors[i].field in d && d[errors[i].field] == errors[i].message
  }

  /** The map built by putting every error in turn, a later put overwriting an earlier one. */
  function FieldDetails(errors: seq<FieldError>): map<string, string> {
    if errors == [] then map[]
    else
      var n := |errors| - 1;
      FieldDetails(errors[..n])[errors[n].field := errors[n].message]
  }

  /** The map has one entry per reported field, holding the message of the last error
      reported for that field. */
  lemma {:induction false} FieldDetailsMeaning(errors: seq<FieldError>)
    ensures KeysAreFields(errors, FieldDetails(errors)) && LastMessageWins(errors, FieldDetails(errors))
    decreases |errors|
  {
    if errors != [] {
      var n := |errors| - 1;
      assert errors == errors[..n] + [errors[n]];
      FieldDetailsMeaning(errors[..n]);
      PutPreservesDetails(errors[..n], errors[n], FieldDetails(errors[..n]));
    }
  }

  lemma PutPreservesDetails(prefix: seq<FieldError>, e: FieldError, d: map<string, string>)
    requires KeysAreFields(prefix, d) && LastMessageWins(prefix, d)
    ensures KeysAreFields(prefix + [e], d[e.field := e.message])
    ensures LastMessageWins(prefix + [e], d[e.field := e.message])
  {
    var errors := prefix + [e];
    var d' := d[e.field := e.message];
    var n := |prefix|;
    assert errors[n] == e;
    forall f
      ensures f in d' <==> exists i :: 0 <= i < |errors| && errors[i].field == f
    {
      if f in d' && f != e.field {
        var i :| 0 <= i < n && prefix[i].field == f;
        assert errors[i] == prefix[i];
      }
      if exists i :: 0 <= i < |errors| && errors[i].field == f {
        var i :| 0 <= i < |errors| && errors[i].field == f;
        if i < n {
          assert errors[i] == prefix[i];
        }
      }
    }
    forall i | 0 <= i < |errors| && LastForField(errors, i)
      ensures errors[i].field in d' && d'[errors[i].field] == errors[i].message
    {
      if i < n {
        assert errors[i] == prefix[i];
        assert errors[n].field != errors[i].field;
        assert LastForField(prefix, i) by {
          forall j | i < j < n
            ensures prefix[j].field != prefix[i].field
          {
            assert errors[j] == prefix[j];
          }
        }
      }
    }
  }

  /** Putting the errors of `a` and then those of `b` gives `a`'s map overridden by `b`'s. */
  lemma {:induction false} FieldDetailsAppend(a: seq<FieldError>, b: seq<FieldError>)
    ensures FieldDetails(a + b) == FieldDetails(a) + FieldDetails(b)
    decreases |b|
  {
    if b == [] {
      assert a + b == a;
    } else {
      var n := |b| - 1;
      var e := b[n];
      assert (a + b)[..|a + b| - 1] == a + b[..n];
      assert (a + b)[|a + b| - 1] == e;
      assert b[..|b| - 1] == b[..n];
      var before := FieldDetails(a + b[..n]);
      assert FieldDetails(a + b) == before[e.field := e.message];
      assert FieldDetails(b) == FieldDetails(b[..n])[e.field := e.message];
      FieldDetailsAppend(a, b[..n]);
      assert before == FieldDetails(a) + FieldDetails(b[..n]);
    }
  }

  lemma FieldDetailsSingle(e: FieldError)
    ensures FieldDetails([e]) == map[e.field := e.message]
  {
    assert [e][..0] == [];
  }

  /** The `forEach(... put ...)` loop of the bad-request handler. */
  method CollectFieldDetails(errors: seq<FieldError>) returns (d: map<string, string>)
    ensures d == FieldDetails(errors)
  {
    d := map[];
    var i := 0;
    while i < |errors|
      invariant 0 <= i <= |errors|
      invariant d == FieldDetails(errors[..i])
    {
      assert errors[..i + 1][..i] == errors[..i];
      d := d[errors[i].field := errors[i].message];
      i := i + 1;
    }
    assert errors[..|errors|] == errors;
  }

  /** The bad-request body: 400, "Invalid request", and details by exception type. */
  function BadRequestResponse(cause: BadRequestCause): (r: ErrorResponse)
    ensures r.status == BadRequest && r.payload.status == 400 && r.payload.error == "Bad Request"
    ensures r.payload.message == "Invalid request"
    ensures cause.MethodArgumentNotValid? ==> r.payload.details == FieldMessages(FieldDetails(cause.fieldErrors))
    ensures cause.ConstraintViolation? ==> r.payload.details == FieldMessages(FieldDetails(cause.violations))
    ensures cause.TypeMismatch? || cause.NotReadable? ==> r.payload.details == Message(cause.exceptionMessage)
  {
    var payload := BuildPayload(BadRequest, InvalidRequest);
    var details := match cause
      case MethodArgumentNotValid(errors) => FieldMessages(FieldDetails(errors))
      case ConstraintViolation(violations) => FieldMessages(FieldDetails(violations))
      case TypeMismatch(message) => Message(message)
      case NotReadable(message) => Message(message);
    ErrorResponse(BadRequest, payload.(details := details))
  }

  method HandleBadRequest(cause: BadRequestCause) returns (r: ErrorResponse)
    ensures r == BadRequestResponse(cause)
  {
    var payload := BuildPayload(BadRequest, InvalidRequest);
    match cause {
      case MethodArgumentNotValid(errors) =>
        var d := CollectFieldDetails(errors);
        payload := payload.(details := FieldMessages(d));
      case ConstraintViolation(violations) =>
        var d := CollectFieldDetails(violations);
        payload := payload.(details := FieldMessages(d));
      case TypeMismatch(message) =>
        payload := payload.(details := Message(message));
      case NotReadable(message) =>
        payload := payload.(details := Message(message));
    }
    r := ErrorResponse(BadRequest, payload);
  }
}
