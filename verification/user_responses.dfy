/**
  The mock response builder: the 201 envelope a successful user creation
  returns, and the 4xx/5xx error envelopes built from two tables of defaults,
  with the `||` fallbacks that pick a custom message, the table's text or a
  generic one.
 */
module UserResponses {
  import opened JsValues
  import opened TypeValidator
  import opened UserFactory

  /** A response object: `{ status, statusText, data }`. */
  datatype Response = Response(status: int, statusText: Value, data: Record)

  /** One row of a defaults table: `{ statusText, data: { error } }`. */
  datatype Defaults = Defaults(statusText: string, error: string)

  /** What buildMockError throws for a status code outside 400..599. */
  datatype MockError = UnsupportedStatusCode(status: int) {
    /** The text is the same for every rejected code: it does not name the status. */
    function Message(): (m: string)
      ensures m == "Unsupported status code for mockError"
    {
      "Unsupported status code for mockError"
    }
  }

  /** The key of the only property of an error body. */
  const ERROR: string := "error"

  /**
    mockPostUserSuccess with the random id passed in: status 201, and a body holding the
    id and the user's username, email and password under the factory's field names.
   */
  function MockPostUserSuccess(user: Record, id: nat): (r: Response)
    ensures r.status == 201 && r.statusText == Str("Created")
    ensures r.data.Keys == {ID, USERNAME, EMAIL, PASSWORD}
    ensures r.data[ID] == Num(id)
    ensures forall k | k in STRING_FIELDS :: r.data[k] == Get(user, k)
  {
    Response(201, Str("Created"),
      map[ID := Num(id),
          USERNAME := Get(user, USERNAME),
          EMAIL := Get(user, EMAIL),
          PASSWORD := Get(user, PASSWORD)])
  }

  /** The defaults table of mockClientError. */
  const CLIENT_DEFAULTS: map<int, Defaults> := map[
    400 := Defaults("Bad Request", "Invalid request"),
    401 := Defaults("Unauthorized", "Authentication required"),
    403 := Defaults("Forbidden", "Access denied"),
    404 := Defaults("Not Found", "Resource not found")]

  /** The defaults table of mockServerError. */
  const SERVER_DEFAULTS: map<int, Defaults> := map[
    500 := Defaults("Internal Server Error", "Server error"),
    502 := Defaults("Bad Gateway", "Server error"),
    503 := Defaults("Service Unavailable", "Server error")]

  /** `defaults[status]?.statusText`: undefined when the table has no row for `status`. */
  function DefaultStatusText(defaults: map<int, Defaults>, status: int): Value {
    if status in defaults then Str(defaults[status].statusText) else Undefined
  }

  /** `defaults[status]?.data?.error`: undefined when the table has no row for `status`. */
  function DefaultError(defaults: map<int, Defaults>, status: int): Value {
    if status in defaults then Str(defaults[status].error) else Undefined
  }

  /**
    buildError: the status as given, the table's status text or `Unknown Error`, and a body
    whose only property is the error: the custom message when it is truthy, else the
    table's text, else `Unknown error`.
   */
  function BuildError(status: int, defaults: map<int, Defaults>, customMessage: Value): (r: Response)
    ensures r.status == status && r.data.Keys == {ERROR}
    ensures IsString(r.statusText)
    ensures r.statusText == (if status in defaults && defaults[status].statusText != ""
                             then Str(defaults[status].statusText) else Str("Unknown Error"))
    ensures Truthy(customMessage) ==> r.data[ERROR] == customMessage
    ensures !Truthy(customMessage) ==>
      r.data[ERROR] == (if status in defaults && defaults[status].error != ""
                        then Str(defaults[status].error) else Str("Unknown error"))
  {
    Response(status,
      Or(DefaultStatusText(defaults, status), Str("Unknown Error")),
      map[ERROR := Or(Or(customMessage, DefaultError(defaults, status)), Str("Unknown error"))])
  }

  /** mockClientError: buildError over the 4xx table. */
  function MockClientError(status: int, message: Value): (r: Response)
    ensures r.status == status && r.data.Keys == {ERROR}
  {
    BuildError(status, CLIENT_DEFAULTS, message)
  }

  /** mockServerError: buildError over the 5xx table. */
  function MockServerError(status: int, message: Value): (r: Response)
    ensures r.status == status && r.data.Keys == {ERROR}
  {
    BuildError(status, SERVER_DEFAULTS, message)
  }

  /**
    buildMockError: 400..499 go to the client table, 500..599 to the server table, and any
    other status throws. An omitted message is undefined.
   */
  function BuildMockError(status: int, message: Value := Undefined): (r: Result<Response, MockError>)
    ensures r.Err? <==> status < 400 || status >= 600
    ensures r.Err? ==> r.error.Message() == "Unsupported status code for mockError"
    ensures r.Ok? ==> r.value.status == status && r.value.data.Keys == {ERROR}
    ensures r.Ok? ==> IsString(r.value.statusText) && (Truthy(message) || IsString(r.value.data[ERROR]))
  {
    if status >= 400 && status < 500 then Ok(MockClientError(status, message))
    else if status >= 500 && status < 600 then Ok(MockServerError(status, message))
    else Err(UnsupportedStatusCode(status))
  }

  /** Each client code of the table gets its own status text and error text. */
  lemma ClientErrorDefaults()
    ensures BuildMockError(400) == Ok(Response(400, Str("Bad Request"), map[ERROR := Str("Invalid request")]))
    ensures BuildMockError(401) == Ok(Response(401, Str("Unauthorized"), map[ERROR := Str("Authentication required")]))
    ensures BuildMockError(403) == Ok(Response(403, Str("Forbidden"), map[ERROR := Str("Access denied")]))
    ensures BuildMockError(404) == Ok(Response(404, Str("Not Found"), map[ERROR := Str("Resource not found")]))
  {
  }

  /** The server codes of the table share the error `Server error` but not their status texts. */
  lemma ServerErrorDefaults()
    ensures BuildMockError(500) == Ok(Response(500, Str("Internal Server Error"), map[ERROR := Str("Server error")]))
    ensures BuildMockError(502) == Ok(Response(502, Str("Bad Gateway"), map[ERROR := Str("Server error")]))
    ensures BuildMockError(503) == Ok(Response(503, Str("Service Unavailable"), map[ERROR := Str("Server error")]))
    ensures BuildMockError(500).value.statusText != BuildMockError(502).value.statusText
    ensures BuildMockError(500).value.statusText != BuildMockError(503).value.statusText
    ensures BuildMockError(502).value.statusText != BuildMockError(503).value.statusText
  {
  }

  /** An in-range code missing from both tables falls back to the generic texts. */
  lemma UnknownStatusDefaults(status: int, message: Value)
    requires 400 <= status < 600 && status !in {400, 401, 403, 404, 500, 502, 503}
    requires !Truthy(message)
    ensures BuildMockError(status, message) == Ok(Response(status, Str("Unknown Error"), map[ERROR := Str("Unknown error")]))
  {
  }

  /** A truthy custom message replaces the error text and nothing else. */
  lemma CustomMessageReplacesError(status: int, message: Value)
    requires 400 <= status < 600 && Truthy(message)
    ensures BuildMockError(status, message).Ok? && BuildMockError(status).Ok?
    ensures BuildMockError(status, message).value
      == BuildMockError(status).value.(data := map[ERROR := message])
  {
  }

  /** A falsy custom message, the empty string among them, is as good as none. */
  lemma FalsyMessageFallsBack(status: int, message: Value)
    requires !Truthy(message)
    ensures BuildMockError(status, message) == BuildMockError(status)
  {
  }

  /** Properties of the sent user other than the three copied fields do not reach the response. */
  lemma SuccessDropsExtraProperties(user: Record, id: nat, key: string, value: Value)
    requires key !in {ID, USERNAME, EMAIL, PASSWORD}
    ensures MockPostUserSuccess(user[key := value], id) == MockPostUserSuccess(user, id)
  {
    assert forall k | k in STRING_FIELDS :: Get(user[key := value], k) == Get(user, k);
  }

  /** The success body has the four field keys, and five once the server adds a property of its own. */
  lemma SuccessKeyCount(user: Record, id: nat, key: string, value: Value)
    requires key !in {ID, USERNAME, EMAIL, PASSWORD}
    ensures |MockPostUserSuccess(user, id).data.Keys| == 4
    ensures |MockPostUserSuccess(user, id).data[key := value].Keys| == 5
  {
    FieldNamesDistinct();
    var keys := MockPostUserSuccess(user, id).data.Keys;
    assert MockPostUserSuccess(user, id).data[key := value].Keys == keys + {key};
  }

  /**
    Round trip: the body of the success response validates against the user that was sent
    exactly when the drawn id is not 0 and the user's own fields pass the type phase.
   */
  lemma SuccessRoundTrip(user: Record, id: nat)
    ensures Validate(MockPostUserSuccess(user, id).data, user).Pass? <==>
      && id != 0
      && IsString(Get(user, USERNAME)) && IsString(Get(user, EMAIL)) && IsString(Get(user, PASSWORD))
      && IsValidEmail(Get(user, EMAIL))
  {
    var data := MockPostUserSuccess(user, id).data;
    assert Get(data, ID) == Num(id);
    assert Get(data, USERNAME) == Get(user, USERNAME);
    assert Get(data, EMAIL) == Get(user, EMAIL);
    assert Get(data, PASSWORD) == Get(user, PASSWORD);
  }

  /** A generic user survives the round trip for every draw, unless the id drawn for it is 0. */
  lemma GenericUserRoundTrip(r: nat, id: nat)
    ensures Validate(MockPostUserSuccess(CreateGenericUser(r), id).data, CreateGenericUser(r)).Pass? <==> id != 0
  {
    GenericUserIsWellFormed(r);
    SuccessRoundTrip(CreateGenericUser(r), id);
  }

  /**
    Extra properties on either side change nothing: one added to the sent user is dropped,
    one added to the response body is ignored by the validator.
   */
  lemma RoundTripWithExtraProperties(user: Record, id: nat, key: string, value: Value)
    requires key !in {ID, USERNAME, EMAIL, PASSWORD}
    ensures Validate(MockPostUserSuccess(user[key := value], id).data, user[key := value])
         == Validate(MockPostUserSuccess(user, id).data, user)
    ensures Validate(MockPostUserSuccess(user, id).data[key := value], user)
         == Validate(MockPostUserSuccess(user, id).data, user)
  {
    var data := MockPostUserSuccess(user, id).data;
    SuccessDropsExtraProperties(user, id, key, value);
    ValidateIgnoresExtraKeys(data, user, key, value);
  }
}
