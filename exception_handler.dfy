/** The API's exception handler (apps/utils/exception_handler.py): the
    framework's own handler turns an exception into a response or into
    nothing; when there is a response, the project's handler derives an
    error code from the exception's class name and a one-line message from
    its `detail`, and wraps both in the project's error envelope
    (apps/utils/responses.py). */
module ExceptionHandler {
  import opened Common

  // ---------------------------------------------------------------------
  // Error codes
  // ---------------------------------------------------------------------

  /** The fixed codes of the framework's exception classes, by class name. */
  const ExceptionCodes: map<string, string> := map[
    "AuthenticationFailed" := "AUTHENTICATION_FAILED",
    "NotAuthenticated" := "NOT_AUTHENTICATED",
    "PermissionDenied" := "PERMISSION_DENIED",
    "NotFound" := "NOT_FOUND",
    "ValidationError" := "VALIDATION_ERROR",
    "ParseError" := "PARSE_ERROR",
    "MethodNotAllowed" := "METHOD_NOT_ALLOWED",
    "NotAcceptable" := "NOT_ACCEPTABLE",
    "Throttled" := "RATE_LIMIT_EXCEEDED"
  ]

  const FallbackPrefix: string := "HTTP_"

  /** get_error_code_from_exception: the class's fixed code, or "HTTP_"
      followed by the response's status code for any other class. */
  function ErrorCode(excName: string, statusCode: nat): (r: string)
    ensures excName in ExceptionCodes ==> r == ExceptionCodes[excName]
    ensures excName !in ExceptionCodes ==> r == FallbackPrefix + NatToString(statusCode)
  {
    if excName in ExceptionCodes then ExceptionCodes[excName] else FallbackPrefix + NatToString(statusCode)
  }

  /** The fallback code carries the status code: its digits after the
      prefix read back as the status. */
  lemma FallbackReadsBackStatus(excName: string, statusCode: nat)
    requires excName !in ExceptionCodes
    ensures var r := ErrorCode(excName, statusCode);
            && |r| > |FallbackPrefix| && r[..|FallbackPrefix|] == FallbackPrefix
            && AllDigits(r[|FallbackPrefix|..]) && DigitsValue(r[|FallbackPrefix|..]) == statusCode
  {
    var r := ErrorCode(excName, statusCode);
    assert r[|FallbackPrefix|..] == NatToString(statusCode);
    NatToStringRoundTrip(statusCode);
  }

  /** Two different statuses never share a fallback code, and a fixed code
      does not depend on the status. */
  lemma CodeDeterminesStatus(excName: string, s1: nat, s2: nat)
    ensures excName !in ExceptionCodes && s1 != s2 ==> ErrorCode(excName, s1) != ErrorCode(excName, s2)
    ensures excName in ExceptionCodes ==> ErrorCode(excName, s1) == ErrorCode(excName, s2)
  {
    if excName !in ExceptionCodes && ErrorCode(excName, s1) == ErrorCode(excName, s2) {
      FallbackReadsBackStatus(excName, s1);
      FallbackReadsBackStatus(excName, s2);
    }
  }

  /** A fallback code is never one of the fixed codes: none of those starts
      with the letter H. */
  lemma FallbackIsNotAFixedCode(excName: string, statusCode: nat, other: string)
    requires excName !in ExceptionCodes && other in ExceptionCodes
    ensures ErrorCode(excName, statusCode) != ExceptionCodes[other]
  {
    var code := ExceptionCodes[other];
    assert code[0] != 'H' by {
      if other == "AuthenticationFailed" { assert code == "AUTHENTICATION_FAILED"; }
      else if other == "NotAuthenticated" { assert code == "NOT_AUTHENTICATED"; }
      else if other == "PermissionDenied" { assert code == "PERMISSION_DENIED"; }
      else if other == "NotFound" { assert code == "NOT_FOUND"; }
      else if other == "ValidationError" { assert code == "VALIDATION_ERROR"; }
      else if other == "ParseError" { assert code == "PARSE_ERROR"; }
      else if other == "MethodNotAllowed" { assert code == "METHOD_NOT_ALLOWED"; }
      else if other == "NotAcceptable" { assert code == "NOT_ACCEPTABLE"; }
      else { assert code == "RATE_LIMIT_EXCEEDED"; }
    }
    assert ErrorCode(excName, statusCode)[0] == 'H';
  }

  // ---------------------------------------------------------------------
  // The user-facing message
  // ---------------------------------------------------------------------

  /** An exception's `detail`: a string, a list or a dict of further
      details. A list or dict carries the text str() gives for it. */
  datatype Detail =
    | Text(s: string)
    | Items(xs: seq<Detail>, repr: string)
    | Fields(entries: seq<(string, Detail)>, repr: string)

  /** str() of a detail. */
  function Show(d: Detail): string {
    match d
    case Text(s) => s
    case Items(_, repr) => repr
    case Fields(_, repr) => repr
  }

  /** The value stored under a key of a dict detail (the first entry with
      that key; a dict holds each key once). */
  function Lookup(entries: seq<(string, Detail)>, key: string): (r: Option<Detail>)
    ensures r.None? <==> forall k :: 0 <= k < |entries| ==> entries[k].0 != key
    ensures r.Some? ==> exists k :: 0 <= k < |entries| && entries[k] == (key, r.value)
  {
    if entries == [] then None
    else if entries[0].0 == key then Some(entries[0].1)
    else
      var rest := Lookup(entries[1..], key);
      assert forall k :: 1 <= k < |entries| ==> entries[k] == entries[1..][k - 1];
      rest
  }

  /** `value[0]`: the first element of a list, the first character of a
      string; None where Python raises (an empty list or string, or a dict,
      whose keys are strings and so never 0). */
  function First(d: Detail): (r: Option<Detail>)
    ensures r.Some? <==> (d.Items? && d.xs != []) || (d.Text? && d.s != [])
  {
    match d
    case Text(s) => if s == [] then None else Some(Text([s[0]]))
    case Items(xs, _) => if xs == [] then None else Some(xs[0])
    case Fields(_, _) => None
  }

  const NonFieldErrors: string := "non_field_errors"
  const DefaultMessage: string := "An error occurred"

  /** "Error in <field>: <errors>", using the first error of a non-empty
      list. */
  function FieldMessage(field: string, errors: Detail): string {
    var shown := if errors.Items? && errors.xs != [] then Show(errors.xs[0]) else Show(errors);
    "Error in " + field + ": " + shown
  }

  /** get_user_friendly_message, given the exception's `detail` (None when it
      has none). The result is None when the lookup of the first non-field
      error raises. */
  function UserFriendlyMessage(detail: Option<Detail>): (r: Option<string>)
    ensures detail.None? ==> r == Some(DefaultMessage)
    ensures detail.Some? && !detail.value.Fields? ==> r == Some(Show(detail.value))
    ensures r.None? <==>
              detail.Some? && detail.value.Fields?
              && Lookup(detail.value.entries, NonFieldErrors).Some?
              && First(Lookup(detail.value.entries, NonFieldErrors).value).None?
  {
    match detail
    case None => Some(DefaultMessage)
    case Some(d) =>
      if !d.Fields? then Some(Show(d))
      else
        match Lookup(d.entries, NonFieldErrors)
        case Some(v) =>
          (match First(v)
           case Some(x) => Some(Show(x))
           case None => None)
        case None =>
          if d.entries == [] then Some(Show(d))
          else Some(FieldMessage(d.entries[0].0, d.entries[0].1))
  }

  /** A dict with non-field errors reports the first of them, whatever the
      other fields hold. */
  lemma NonFieldErrorComesFirst(entries: seq<(string, Detail)>, repr: string, k: nat, first: Detail, rest: seq<Detail>, listRepr: string)
    requires k < |entries| && entries[k] == (NonFieldErrors, Items([first] + rest, listRepr))
    requires forall j :: 0 <= j < k ==> entries[j].0 != NonFieldErrors
    ensures UserFriendlyMessage(Some(Fields(entries, repr))) == Some(Show(first))
  {
    LookupFindsFirst(entries, NonFieldErrors, k);
  }

  /** Lookup returns the value of the first entry with the key. */
  lemma {:induction false} LookupFindsFirst(entries: seq<(string, Detail)>, key: string, k: nat)
    requires k < |entries| && entries[k].0 == key
    requires forall j :: 0 <= j < k ==> entries[j].0 != key
    ensures Lookup(entries, key) == Some(entries[k].1)
  {
    if k > 0 {
      assert entries[0].0 != key;
      LookupFindsFirst(entries[1..], key, k - 1);
    }
  }

  /** Without non-field errors only the first field is reported: two dicts
      with the same first entry give the same message, and it names that
      field. */
  lemma OnlyFirstFieldReported(a: seq<(string, Detail)>, b: seq<(string, Detail)>, ra: string, rb: string)
    requires a != [] && b != [] && a[0] == b[0]
    requires Lookup(a, NonFieldErrors).None? && Lookup(b, NonFieldErrors).None?
    ensures UserFriendlyMessage(Some(Fields(a, ra))) == UserFriendlyMessage(Some(Fields(b, rb)))
    ensures var m := UserFriendlyMessage(Some(Fields(a, ra)));
            m.Some? && m.value[..|"Error in " + a[0].0 + ": "|] == "Error in " + a[0].0 + ": "
    ensures UserFriendlyMessage(Some(Fields(a, ra))) == Some(FieldMessage(a[0].0, a[0].1))
  {
  }

  /** A field holding a non-empty list reports its first error; any other
      value is reported whole. */
  lemma FieldMessageShowsFirstError(field: string, errors: Detail)
    ensures errors.Items? && errors.xs != [] ==> FieldMessage(field, errors) == "Error in " + field + ": " + Show(errors.xs[0])
    ensures !(errors.Items? && errors.xs != []) ==> FieldMessage(field, errors) == "Error in " + field + ": " + Show(errors)
  {
  }

  /** An empty dict is reported as its own text. */
  lemma EmptyDictShownWhole(repr: string)
    ensures UserFriendlyMessage(Some(Fields([], repr))) == Some(repr)
  {
  }

  // ---------------------------------------------------------------------
  // The handler
  // ---------------------------------------------------------------------

  /** The exception: its class name and its `detail` attribute, if any. */
  datatype Exception = Exception(name: string, detail: Option<Detail>)

  /** What the framework's own handler produced. */
  datatype BaseResponse = BaseResponse(statusCode: nat, data: Detail)

  /** The project's error envelope, with the error code. */
  datatype ErrorBody = ErrorBody(success: bool, message: string, errors: Detail, errorCode: string)

  datatype HandlerError =
    | MessageLookupFailed  // IndexError or KeyError from the non-field error lookup
    | UnexpectedKeyword    // TypeError: error_response() got an unexpected keyword argument

  datatype HandlerOutcome =
    | NoResponse
    | Responded(statusCode: nat, body: ErrorBody)
    | Raised(error: HandlerError)

  /** custom_exception_handler as written: the call to error_response passes
      `error_code=`, a keyword that function does not take, so every
      exception the framework answers ends in a TypeError. */
  function HandleAsWritten(exc: Exception, base: Option<BaseResponse>): (r: HandlerOutcome)
    ensures base.None? <==> r == NoResponse
    ensures base.Some? ==> r.Raised?
  {
    match base
    case None => NoResponse
    case Some(response) =>
      var _ := ErrorCode(exc.name, response.statusCode);
      match UserFriendlyMessage(exc.detail)
      case None => Raised(MessageLookupFailed)
      case Some(_) => Raised(UnexpectedKeyword)
  }

  /** The handler as written never produces a response. */
  lemma AsWrittenNeverResponds(exc: Exception, base: Option<BaseResponse>)
    ensures !HandleAsWritten(exc, base).Responded?
    ensures base.Some? && UserFriendlyMessage(exc.detail).Some? ==> HandleAsWritten(exc, base) == Raised(UnexpectedKeyword)
  {
  }

  /** A concrete case: a 404 from NotFound raises instead of answering. */
  lemma NotFoundRaises()
    ensures HandleAsWritten(Exception("NotFound", Some(Text("Not found."))), Some(BaseResponse(404, Fields([("detail", Text("Not found."))], "{'detail': 'Not found.'}"))))
            == Raised(UnexpectedKeyword)
  {
  }

  /** A concrete case: Django's Http404, as get_object raises it, carries
      no detail, so the default message is formed and the call raises. */
  lemma Http404Raises()
    ensures HandleAsWritten(Exception("Http404", None), Some(BaseResponse(404, Fields([("detail", Text("Not found."))], "{'detail': 'Not found.'}"))))
            == Raised(UnexpectedKeyword)
  {
  }

  /** custom_exception_handler as evidently intended: the error envelope
      with the framework's data as its errors, the friendly message and the
      error code, under the framework's status code. */
  function Handle(exc: Exception, base: Option<BaseResponse>): (r: HandlerOutcome)
    ensures base.None? <==> r == NoResponse
    ensures r.Raised? <==> base.Some? && UserFriendlyMessage(exc.detail).None?
    ensures r.Responded? ==> r.statusCode == base.value.statusCode && !r.body.success
                             && r.body.errors == base.value.data
  {
    match base
    case None => NoResponse
    case Some(response) =>
      var code := ErrorCode(exc.name, response.statusCode);
      match UserFriendlyMessage(exc.detail)
      case None => Raised(MessageLookupFailed)
      case Some(message) => Responded(response.statusCode, ErrorBody(false, message, response.data, code))
  }

  /** Whenever the framework answers and the message can be formed, the
      handler answers with the same status, the message and the code of the
      exception's class. */
  lemma HandlerRespondsWhenBaseDoes(exc: Exception, response: BaseResponse)
    requires UserFriendlyMessage(exc.detail).Some?
    ensures Handle(exc, Some(response)) ==
            Responded(response.statusCode,
                      ErrorBody(false, UserFriendlyMessage(exc.detail).value, response.data,
                                ErrorCode(exc.name, response.statusCode)))
  {
  }
}
