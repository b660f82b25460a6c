/** The HTTP client of `src/lib/api.js`: the request interceptor that attaches the
    bearer token, the response interceptor that unwraps `response.data` or turns any
    failure into an `Error` carrying one user-facing message, and the cart and account
    endpoints the stores call. */
module Api {
  import opened Js

  const BASE_URL: string := "https://admin.bonang.my.id/wp-json/dw/v1"
  const AUTHORIZATION: string := "Authorization"
  const BEARER_PREFIX: string := "Bearer "

  const DEFAULT_MESSAGE: string := "Terjadi kesalahan. Silakan coba lagi nanti."
  const CRITICAL_MESSAGE: string := "Terjadi error kritis di server (500)."
  const NETWORK_MESSAGE: string := "Gagal terhubung ke server. Periksa koneksi internet Anda."

  // ---------------------------------------------------------------------------------
  // Requests

  datatype Verb = Get | Post | Delete

  /** The JSON bodies the modelled endpoints send; `T` is the cart line type. */
  datatype Payload<T> =
    | NoPayload
    | Credentials(username: string, password: string)
    | Registration(username: string, email: string, password: string, namaLengkap: string)
    | CartPayload(cart: seq<T>)

  /** A request as it leaves the interceptor: path relative to `BASE_URL` and the
      `Authorization` header, if one was attached. */
  datatype Request<T> = Request(verb: Verb, path: string, authorization: Option<string>, payload: Payload<T>)

  function BearerValue(token: string): string {
    BEARER_PREFIX + token
  }

  /** The header the request interceptor attaches for the token in the auth store at
      the moment of the request (the `Bearer` scheme of section 2.1 of RFC 6750). */
  function AuthHeader(token: Option<string>): (h: Option<string>)
    ensures h.Some? <==> Truthy(token)
    ensures h.Some? ==> StartsWith(h.value, BEARER_PREFIX) && |h.value| > |BEARER_PREFIX|
  {
    if Truthy(token) then Some(BearerValue(token.value)) else None
  }

  /** The token a `Bearer` header carries; `None` when it is not one. */
  function TokenOf(h: string): Option<string> {
    if StartsWith(h, BEARER_PREFIX) && |h| > |BEARER_PREFIX| then Some(h[|BEARER_PREFIX|..]) else None
  }

  /** The header carries exactly the token it was made from. */
  lemma AuthHeaderRoundTrip(token: Option<string>)
    ensures AuthHeader(token).Some? ==> TokenOf(AuthHeader(token).value) == token
    ensures AuthHeader(token).None? ==> token.None? || token.value == ""
  {
    if Truthy(token) {
      assert BearerValue(token.value)[|BEARER_PREFIX|..] == token.value;
    }
  }

  /** Every `Bearer` header is the one its token produces. */
  lemma TokenOfRoundTrip(h: string)
    ensures TokenOf(h).Some? ==> AuthHeader(TokenOf(h)) == Some(h)
  {
    if TokenOf(h).Some? {
      assert BEARER_PREFIX + h[|BEARER_PREFIX|..] == h;
    }
  }

  /** The request interceptor works on a mutable request config. */
  class RequestConfig {
    var headers: map<string, string>

    constructor (headers: map<string, string>)
      ensures this.headers == headers
    {
      this.headers := headers;
    }

    /** `if (token) config.headers.Authorization = `Bearer ${token}``; other headers are
        untouched and nothing is attached without a token. */
    method Intercept(token: Option<string>)
      modifies this
      ensures Truthy(token) ==> headers == old(headers)[AUTHORIZATION := BearerValue(token.value)]
      ensures !Truthy(token) ==> headers == old(headers)
    {
      if Truthy(token) {
        headers := headers[AUTHORIZATION := BearerValue(token.value)];
      }
    }
  }

  /** A request from `apiFetch` made while the auth store holds `token`. */
  function Send<T>(verb: Verb, path: string, token: Option<string>, payload: Payload<T>): Request<T> {
    Request(verb, path, AuthHeader(token), payload)
  }

  function LoginRequest<T>(username: string, password: string, token: Option<string>): Request<T> {
    Send(Post, "/auth/login", token, Credentials(username, password))
  }

  function RegisterRequest<T>(username: string, email: string, password: string, namaLengkap: string,
                              token: Option<string>): Request<T> {
    Send(Post, "/auth/register", token, Registration(username, email, password, namaLengkap))
  }

  function GetMyCartRequest<T>(token: Option<string>): Request<T> {
    Send(Get, "/pembeli/cart", token, NoPayload)
  }

  /** `apiSyncMyCart(items)` POSTs the items wrapped as `{ cart: items }`; the header,
      when the token is truthy, carries exactly that token. */
  function SyncMyCartRequest<T>(items: seq<T>, token: Option<string>): (r: Request<T>)
    ensures r.verb == Post && r.path == "/pembeli/cart/sync"
    ensures r.payload.CartPayload? && r.payload.cart == items
    ensures r.authorization.Some? <==> Truthy(token)
    ensures r.authorization.Some? ==> TokenOf(r.authorization.value) == token
  {
    AuthHeaderRoundTrip(token);
    Send(Post, "/pembeli/cart/sync", token, CartPayload(items))
  }

  function ClearMyCartRequest<T>(token: Option<string>): Request<T> {
    Send(Delete, "/pembeli/cart", token, NoPayload)
  }

  // ---------------------------------------------------------------------------------
  // Stripping HTML tags: `message.replace(/<\/?[^>]+(>|$)/g, "")`

  /** Index just past the first `>` at or after `i`, or `|s|` when there is none. */
  function TagEnd(s: string, i: nat): (j: nat)
    requires i <= |s|
    ensures i <= j <= |s|
    ensures j < |s| ==> j > i && s[j - 1] == '>'
    ensures forall k :: i <= k < j - 1 ==> s[k] != '>'
    decreases |s| - i
  {
    if i == |s| then |s| else if s[i] == '>' then i + 1 else TagEnd(s, i + 1)
  }

  /** The global replace. At a `<` followed by a character other than `>`, the pattern
      matches up to and including the next `>`, or to the end of the string (`[^>]+` may
      itself contain `<` or `/`); anywhere else the character is kept and the scan moves
      on by one. */
  function StripTags(s: string): (r: string)
    ensures |r| <= |s|
    ensures forall i :: 0 <= i < |r| ==> r[i] in s
    decreases |s|
  {
    if |s| >= 2 && s[0] == '<' && s[1] != '>' then StripTags(s[TagEnd(s, 2)..])
    else if s == [] then []
    else [s[0]] + StripTags(s[1..])
  }

  /** No `<` is followed by a character other than `>`: nothing the pattern would match. */
  predicate NoTagOpen(s: string) {
    forall i :: 0 <= i < |s| - 1 && s[i] == '<' ==> s[i + 1] == '>'
  }

  lemma {:induction false} StripTagsHead(s: string)
    requires s != [] && s[0] != '<'
    ensures StripTags(s) == [s[0]] + StripTags(s[1..])
  {
  }

  /** After the replace, nothing the pattern matches is left. */
  lemma {:induction false} StripTagsLeavesNoTag(s: string)
    ensures NoTagOpen(StripTags(s))
    decreases |s|
  {
    if |s| >= 2 && s[0] == '<' && s[1] != '>' {
      StripTagsLeavesNoTag(s[TagEnd(s, 2)..]);
    } else if s != [] {
      var rest := StripTags(s[1..]);
      StripTagsLeavesNoTag(s[1..]);
      if s[0] == '<' && |s| >= 2 {
        StripTagsHead(s[1..]);
        assert rest[0] == '>';
      } else if s[0] == '<' {
        assert s[1..] == [];
      }
      var r := [s[0]] + rest;
      forall i | 0 <= i < |r| - 1 && r[i] == '<' ensures r[i + 1] == '>' {
        if i > 0 {
          assert rest[i - 1] == '<';
        }
      }
    }
  }

  /** A string without a tag is left unchanged. */
  lemma {:induction false} StripTagsIdentity(s: string)
    requires NoTagOpen(s)
    ensures StripTags(s) == s
    decreases |s|
  {
    if s != [] {
      assert NoTagOpen(s[1..]) by {
        forall i | 0 <= i < |s[1..]| - 1 && s[1..][i] == '<' ensures s[1..][i + 1] == '>' {
          assert s[i + 1] == '<';
        }
      }
      StripTagsIdentity(s[1..]);
    }
  }

  /** Stripping twice is stripping once. */
  lemma StripTagsIdempotent(s: string)
    ensures StripTags(StripTags(s)) == StripTags(s)
  {
    StripTagsLeavesNoTag(s);
    StripTagsIdentity(StripTags(s));
  }

  lemma NoTagOpenSubstring(s: string, r: string, at: int)
    requires NoTagOpen(s) && OccursAt(s, r, at)
    ensures NoTagOpen(r)
  {
    forall i | 0 <= i < |r| - 1 && r[i] == '<' ensures r[i + 1] == '>' {
      assert s[at + i] == r[i] && s[at + i + 1] == r[i + 1];
    }
  }

  /** What the interceptor shows for a server message: tags removed, then trimmed. */
  function CleanMessage(m: string): (r: string)
    ensures NoTagOpen(r)
    ensures r == [] || (!IsSpace(r[0]) && !IsSpace(r[|r| - 1]))
  {
    var stripped := StripTags(m);
    StripTagsLeavesNoTag(m);
    var r := Trim(stripped);
    var at :| PaddedBy(stripped, r, at);
    NoTagOpenSubstring(stripped, r, at);
    r
  }

  // ---------------------------------------------------------------------------------
  // The response interceptor

  /** `error.response.data`: absent, a JSON object (with only the fields read here), or
      a text body such as an HTML error page. */
  datatype Body = Absent | Object(message: Option<string>, error: Option<string>) | Text(text: string)

  datatype HttpResponse = HttpResponse(status: int, statusText: string, data: Body)

  /** How a request failed: the server answered with an error status, nobody answered,
      or the request could not be set up. */
  datatype AxiosError = WithResponse(response: HttpResponse) | NoResponse | Setup(message: string)

  /** The outcome of one call, before the interceptors run. */
  datatype Reply<T> = Success(data: T) | Failure(error: AxiosError)

  /** `data && data.message` */
  predicate HasMessage(b: Body) {
    b.Object? && Truthy(b.message)
  }

  /** `data && data.error` */
  predicate HasError(b: Body) {
    b.Object? && Truthy(b.error)
  }

  /** `typeof data === 'string' && data.includes('<p>')` */
  predicate IsHtmlPage(b: Body) {
    b.Text? && Contains(b.text, "<p>")
  }

  /** The message of the `Error` the interceptor rejects with. */
  function RejectMessage(e: AxiosError): (m: string)
    ensures e.NoResponse? ==> m == NETWORK_MESSAGE
    ensures e.Setup? ==> m == e.message
    ensures e.WithResponse? && HasMessage(e.response.data) ==> NoTagOpen(m)
  {
    match e
    case WithResponse(resp) =>
      var data := resp.data;
      if HasMessage(data) then CleanMessage(data.message.value)
      else if HasError(data) then data.error.value
      else if IsHtmlPage(data) then CRITICAL_MESSAGE
      else if resp.statusText != "" then IntToString(resp.status) + ": " + resp.statusText
      else DEFAULT_MESSAGE
    case NoResponse => NETWORK_MESSAGE
    case Setup(message) => message
  }

  /** The error interceptor as written: a default message overwritten by the first
      branch of the chain that applies. It rejects with exactly `RejectMessage(e)`. */
  method ErrorInterceptor(e: AxiosError) returns (specificMessage: string)
    ensures specificMessage == RejectMessage(e)
  {
    specificMessage := DEFAULT_MESSAGE;
    if e.WithResponse? {
      var data := e.response.data;
      if HasMessage(data) {
        specificMessage := CleanMessage(data.message.value);
      } else if HasError(data) {
        specificMessage := data.error.value;
      } else if IsHtmlPage(data) {
        specificMessage := CRITICAL_MESSAGE;
      } else if e.response.statusText != "" {
        specificMessage := IntToString(e.response.status) + ": " + e.response.statusText;
      }
    } else if e.NoResponse? {
      specificMessage := NETWORK_MESSAGE;
    } else {
      specificMessage := e.message;
    }
  }

  /** The server's own message takes precedence: whatever the error field, the status
      and its text, a body with a message yields that message, cleaned. */
  lemma MessageTakesPrecedence(m: string, err: Option<string>, status: int, statusText: string)
    requires m != ""
    ensures RejectMessage(WithResponse(HttpResponse(status, statusText, Object(Some(m), err)))) == CleanMessage(m)
  {
  }

  /** Without a message, the error field wins over the status line. */
  lemma ErrorFieldBeforeStatus(msg: Option<string>, err: string, status: int, statusText: string)
    requires !Truthy(msg) && err != ""
    ensures RejectMessage(WithResponse(HttpResponse(status, statusText, Object(msg, Some(err))))) == err
  {
  }

  /** An HTML error page is never shown to the user: it is replaced by a fixed message,
      whatever the status. */
  lemma HtmlPageNeverShown(page: string, status: int, statusText: string)
    requires Contains(page, "<p>")
    ensures RejectMessage(WithResponse(HttpResponse(status, statusText, Text(page)))) == CRITICAL_MESSAGE
  {
  }

  /** A response without anything usable falls back to the status line, and only then
      to the generic message. Nothing usable is any body without a message, without an
      error field and that is not an HTML page: an absent body, an object with neither
      field, or a text without `<p>`. */
  lemma StatusLineFallback(status: int, statusText: string, body: Body)
    requires !HasMessage(body) && !HasError(body) && !IsHtmlPage(body)
    ensures var m := RejectMessage(WithResponse(HttpResponse(status, statusText, body)));
            && (statusText != "" ==> m == IntToString(status) + ": " + statusText)
            && (statusText == "" ==> m == DEFAULT_MESSAGE)
  {
  }

  lemma StripTagsOfTagOnlyMessage()
    ensures StripTags("<b> </b>") == " "
  {
    assert TagEnd("<b> </b>", 2) == 3;
    assert "<b> </b>"[3..] == " </b>";
    assert StripTags("</b>") == [] by {
      assert TagEnd("</b>", 2) == 4;
      assert "</b>"[4..] == [];
    }
    StripTagsHead(" </b>");
    assert " </b>"[1..] == "</b>";
  }

  /** `s` is a run of white space characters and tags, a tag being what the pattern
      matches: a `<` not followed by `>`, up to the next `>` or the end. */
  predicate TagsAndSpaces(s: string)
    decreases |s|
  {
    if s == [] then true
    else if |s| >= 2 && s[0] == '<' && s[1] != '>' then TagsAndSpaces(s[TagEnd(s, 2)..])
    else IsSpace(s[0]) && TagsAndSpaces(s[1..])
  }

  /** Removing the tags of such a string leaves only white space. */
  lemma {:induction false} StripTagsOfTagsAndSpaces(s: string)
    requires TagsAndSpaces(s)
    ensures AllSpace(StripTags(s))
    decreases |s|
  {
    if |s| >= 2 && s[0] == '<' && s[1] != '>' {
      StripTagsOfTagsAndSpaces(s[TagEnd(s, 2)..]);
    } else if s != [] {
      StripTagsOfTagsAndSpaces(s[1..]);
      assert StripTags(s) == [s[0]] + StripTags(s[1..]);
    }
  }

  /** A server message made only of tags and white space becomes an empty `Error`
      message, whatever the other fields, so the pages' `err.message || …` fallbacks
      apply. */
  lemma TagOnlyMessageIsEmpty(status: int, statusText: string, m: string, err: Option<string>)
    requires m != "" && TagsAndSpaces(m)
    ensures RejectMessage(WithResponse(HttpResponse(status, statusText, Object(Some(m), err)))) == ""
  {
    StripTagsOfTagsAndSpaces(m);
    TrimOfBlank(StripTags(m));
  }

  /** Every call settles as `response.data` on success and as an `Error` carrying the
      interceptor's message on failure. */
  function Settle<T>(r: Reply<T>): (s: Result<T>)
    ensures s.Ok? <==> r.Success?
    ensures r.Success? ==> s == Ok(r.data)
    ensures r.Failure? ==> s == Err(RejectMessage(r.error))
  {
    match r
    case Success(data) => Ok(data)
    case Failure(e) => Err(RejectMessage(e))
  }
}
