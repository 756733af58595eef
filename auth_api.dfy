/** The browser-side authentication client (frontend/src/api/auth.js): the
    token store in `localStorage`, the default `Authorization` header, the
    login/refresh/verify calls and the mapping from a failed request to the
    message shown to the user.

    A request is replaced by its reply, given as a parameter: a body on
    success, or the error axios throws (with or without a response). */
module AuthApi {
  import opened Text

  const AccessKey := "access_token"
  const RefreshKey := "refresh_token"

  const NoRefreshToken := "Session expired. Please login again."
  const NetworkError := "Network error. Please check your connection."
  const DefaultError := "Authentication failed. Please try again."
  const ServerError := "Server error. Please try again later."

  /** A JSON value of a response body field: a list of messages or a
      string. */
  datatype JsonValue = JsonList(items: seq<string>) | JsonText(text: string)

  /** JavaScript truthiness: every array is truthy, a string unless empty. */
  predicate TruthyValue(v: JsonValue)
  {
    v.JsonList? || v.text != ""
  }

  /** `String(v)`: an array's elements joined by commas. */
  function ValueText(v: JsonValue): string
  {
    match v
    case JsonList(items) => Join(items, ",")
    case JsonText(t) => t
  }

  /** A response body: nothing (an empty string), a plain string, or a JSON
      object given by its entries in order. */
  datatype Body = NoBody | TextBody(text: string) | ObjectBody(entries: seq<(string, JsonValue)>)

  /** The error axios throws: without a response (network failure), or with
      the response's status and body. */
  datatype HttpError = NoResponse | Response(status: int, body: Body)

  /** `data?.detail`: the value of the object's "detail" entry. */
  function DetailOf(body: Body): Option<JsonValue>
  {
    match body
    case ObjectBody(entries) => Find(entries, "detail")
    case _ => None
  }

  function Find(entries: seq<(string, JsonValue)>, key: string): (r: Option<JsonValue>)
    ensures r.Some? ==> exists i :: 0 <= i < |entries| && entries[i] == (key, r.value)
    ensures r.None? ==> forall i :: 0 <= i < |entries| ==> entries[i].0 != key
  {
    if entries == [] then None
    else if entries[0].0 == key then Some(entries[0].1)
    else
      var r := Find(entries[1..], key);
      if r.Some? then
        ghost var i :| 0 <= i < |entries[1..]| && entries[1..][i] == (key, r.value);
        assert entries[i + 1] == (key, r.value);
        r
      else r
  }

  predicate HasTruthyDetail(body: Body)
  {
    var d := DetailOf(body);
    d.Some? && TruthyValue(d.value)
  }

  /** One line per field: "field: e1, e2" for a list, "field: text" otherwise. */
  function FieldLine(entry: (string, JsonValue)): string
  {
    entry.0 + ": " + (match entry.1 case JsonList(items) => Join(items, ", ") case JsonText(t) => t)
  }

  function FieldLines(entries: seq<(string, JsonValue)>): (r: seq<string>)
    ensures |r| == |entries|
    ensures forall i :: 0 <= i < |entries| ==> r[i] == FieldLine(entries[i])
  {
    if entries == [] then [] else [FieldLine(entries[0])] + FieldLines(entries[1..])
  }

  /** `a || b` on two values. */
  function Or(a: JsonValue, b: JsonValue): JsonValue
  {
    if TruthyValue(a) then a else b
  }

  /** `data?.detail || DEFAULT_ERROR`. */
  function Detail(body: Body): JsonValue
  {
    var d := DetailOf(body);
    if d.Some? then Or(d.value, JsonText(DefaultError)) else JsonText(DefaultError)
  }

  /** `handleAuthError`, with the `detail || '…'` fallbacks of the 400, 401
      and 403 cases written out. */
  function HandleAuthError(e: HttpError): (message: string)
    ensures e.NoResponse? ==> message == NetworkError
    ensures e.Response? && e.status == 400 && e.body.ObjectBody? && !HasTruthyDetail(e.body) ==>
      message == Join(FieldLines(e.body.entries), "\n")
    ensures e.Response? && e.status == 500 ==> message == ServerError
  {
    match e
    case NoResponse => NetworkError
    case Response(status, body) =>
      if status == 400 && body.ObjectBody? && !HasTruthyDetail(body) then
        Join(FieldLines(body.entries), "\n")
      else
        var detail := Detail(body);
        if status == 400 then ValueText(Or(detail, JsonText("Invalid request data")))
        else if status == 401 then ValueText(Or(detail, JsonText("Invalid credentials")))
        else if status == 403 then ValueText(Or(detail, JsonText("Access denied")))
        else if status == 500 then ServerError
        else ValueText(detail)
  }

  /** `detail` is never falsy, so the status-specific fallbacks are never
      used: apart from field errors and 500, the message is the server's
      `detail` when it is truthy and the default message otherwise. */
  lemma {:induction false} FallbacksUnreachable(e: HttpError)
    requires e.Response? && e.status != 500
    requires !(e.status == 400 && e.body.ObjectBody? && !HasTruthyDetail(e.body))
    ensures HandleAuthError(e) ==
      if HasTruthyDetail(e.body) then ValueText(DetailOf(e.body).value) else DefaultError
    ensures HandleAuthError(e) != "Invalid request data" || HasTruthyDetail(e.body)
    ensures HandleAuthError(e) != "Invalid credentials" || HasTruthyDetail(e.body)
    ensures HandleAuthError(e) != "Access denied" || HasTruthyDetail(e.body)
  {
    var detail := Detail(e.body);
    assert TruthyValue(detail);
    assert Or(detail, JsonText("Invalid request data")) == detail;
    assert Or(detail, JsonText("Invalid credentials")) == detail;
    assert Or(detail, JsonText("Access denied")) == detail;
  }

  /** A validation error on one field becomes "field: e1, e2". */
  lemma FieldErrorExample()
    ensures HandleAuthError(Response(400, ObjectBody([("email", JsonList(["required", "invalid"]))])))
      == "email" + ": " + "required" + ", " + "invalid"
  {
    var entries := [("email", JsonList(["required", "invalid"]))];
    assert Find(entries, "detail").None?;
    assert Join(["required", "invalid"], ", ") == "required" + ", " + "invalid" by {
      assert Join(["required", "invalid"][1..], ", ") == "invalid";
    }
    assert FieldLines(entries) == [FieldLine(entries[0])];
  }

  /** The outcome of a request: the response body, or the error thrown. */
  datatype Reply<T> = Succeeded(data: T) | Failed(error: HttpError)

  /** `register`: the reply's body, or the mapped error thrown. */
  function Register(reply: Reply<Body>): (r: Result<Body, string>)
    ensures reply.Succeeded? ==> r == Ok(reply.data)
    ensures reply.Failed? ==> r == Err(HandleAuthError(reply.error))
  {
    match reply
    case Succeeded(data) => Ok(data)
    case Failed(error) => Err(HandleAuthError(error))
  }

  /** What the token endpoints answer with. */
  datatype TokenData = TokenData(access: Option<string>, refresh: Option<string>)

  /** Pick the new value of a slot: a truthy value replaces it, anything else
      leaves it. */
  function Keep(supplied: Option<string>, stored: Option<string>): (r: Option<string>)
    ensures Present(supplied) ==> r == supplied
    ensures !Present(supplied) ==> r == stored
  {
    if Present(supplied) then supplied else stored
  }

  function Bearer(token: string): string
  {
    "Bearer " + token
  }

  /** The `Authorization` header after `setAuthTokens` with this access
      token: set to it when it is truthy, otherwise as it was. */
  function HeaderAfter(token: Option<string>, before: Option<string>): (h: Option<string>)
    ensures Present(token) ==> h == Some(Bearer(token.value))
    ensures !Present(token) ==> h == before
  {
    if Present(token) then Some(Bearer(token.value)) else before
  }

  /** `localStorage` (the two token keys) and the client's default
      `Authorization` header. */
  class AuthStore {
    var access: Option<string>
    var refresh: Option<string>
    var header: Option<string>

    /** A header, when set, carries the stored access token. */
    predicate Consistent()
      reads this
    {
      header.Some? ==> access.Some? && header.value == Bearer(access.value)
    }

    /** A fresh page: whatever `localStorage` still holds, and no header. */
    constructor (access: Option<string>, refresh: Option<string>)
      ensures this.access == access && this.refresh == refresh && header.None?
      ensures Consistent()
    {
      this.access := access;
      this.refresh := refresh;
      header := None;
    }

    /** `setAuthTokens`: writes only the tokens supplied (truthy). */
    method SetAuthTokens(data: TokenData)
      modifies this
      ensures access == Keep(data.access, old(access))
      ensures refresh == Keep(data.refresh, old(refresh))
      ensures header == HeaderAfter(data.access, old(header))
      ensures old(Consistent()) ==> Consistent()
    {
      if Present(data.access) {
        access := data.access;
        header := Some(Bearer(data.access.value));
      }
      if Present(data.refresh) {
        refresh := data.refresh;
      }
    }

    /** `clearAuthTokens` (and `logout`). */
    method ClearAuthTokens()
      modifies this
      ensures access.None? && refresh.None? && header.None?
      ensures Consistent()
    {
      access, refresh, header := None, None, None;
    }

    /** `initializeAuthHeader`. */
    method InitializeAuthHeader()
      modifies this
      ensures access == old(access) && refresh == old(refresh)
      ensures Present(access) ==> header == Some(Bearer(access.value))
      ensures !Present(access) ==> header == old(header)
      ensures old(Consistent()) ==> Consistent()
    {
      if Present(access) {
        header := Some(Bearer(access.value));
      }
    }

    /** `login`: on success the tokens of the reply are stored and returned;
        on failure both tokens and the header are cleared and the mapped
        error is thrown. */
    method Login(reply: Reply<TokenData>) returns (r: Result<TokenData, string>)
      modifies this
      ensures reply.Succeeded? ==>
        r == Ok(reply.data) &&
        access == Keep(reply.data.access, old(access)) && refresh == Keep(reply.data.refresh, old(refresh))
      ensures reply.Succeeded? ==> header == HeaderAfter(reply.data.access, old(header))
      ensures reply.Failed? ==>
        r == Err(HandleAuthError(reply.error)) && access.None? && refresh.None? && header.None?
      ensures old(Consistent()) ==> Consistent()
    {
      match reply
      case Succeeded(data) =>
        SetAuthTokens(data);
        r := Ok(data);
      case Failed(error) =>
        ClearAuthTokens();
        r := Err(HandleAuthError(error));
    }

    /** `refreshToken`. Without a stored refresh token no request is made
        (`requested` is false); a successful reply that omits a new refresh
        token keeps the old one. */
    method RefreshToken(reply: Reply<TokenData>) returns (r: Result<TokenData, string>, requested: bool)
      modifies this
      ensures !Present(old(refresh)) ==>
        !requested && r == Err(NoRefreshToken) &&
        access == old(access) && refresh == old(refresh) && header == old(header)
      ensures Present(old(refresh)) && reply.Succeeded? ==>
        requested && r == Ok(reply.data) &&
        access == Keep(reply.data.access, old(access)) &&
        refresh == Keep(reply.data.refresh, old(refresh)) && Present(refresh)
      ensures Present(old(refresh)) && reply.Succeeded? ==> header == HeaderAfter(reply.data.access, old(header))
      ensures Present(old(refresh)) && reply.Failed? ==>
        requested && r == Err(HandleAuthError(reply.error)) &&
        access.None? && refresh.None? && header.None?
      ensures old(Consistent()) ==> Consistent()
    {
      if !Present(refresh) {
        return Err(NoRefreshToken), false;
      }
      requested := true;
      match reply
      case Succeeded(data) =>
        var newRefresh := if Present(data.refresh) then data.refresh else refresh;
        SetAuthTokens(TokenData(data.access, newRefresh));
        r := Ok(data);
      case Failed(error) =>
        ClearAuthTokens();
        r := Err(HandleAuthError(error));
    }

    /** `verifyToken`: false without an access token; true when the token
        verifies or, failing that, when a refresh succeeds. */
    method VerifyToken(verified: bool, refreshReply: Reply<TokenData>) returns (valid: bool)
      modifies this
      ensures !Present(old(access)) ==>
        !valid && access == old(access) && refresh == old(refresh) && header == old(header)
      ensures Present(old(access)) && verified ==>
        valid && access == old(access) && refresh == old(refresh) && header == old(header)
      ensures Present(old(access)) && !verified ==>
        (valid <==> Present(old(refresh)) && refreshReply.Succeeded?)
      ensures Present(old(access)) && !verified && !Present(old(refresh)) ==>
        access == old(access) && refresh == old(refresh) && header == old(header)
      ensures Present(old(access)) && !verified && Present(old(refresh)) && refreshReply.Succeeded? ==>
        && access == Keep(refreshReply.data.access, old(access))
        && refresh == Keep(refreshReply.data.refresh, old(refresh))
        && header == HeaderAfter(refreshReply.data.access, old(header))
      ensures Present(old(access)) && !verified && Present(old(refresh)) && refreshReply.Failed? ==>
        access.None? && refresh.None? && header.None?
      ensures valid ==> Present(refresh) || verified
      ensures old(Consistent()) ==> Consistent()
    {
      if !Present(access) {
        return false;
      }
      if verified {
        return true;
      }
      var r, requested := RefreshToken(refreshReply);
      valid := r.Ok?;
    }
  }
}
