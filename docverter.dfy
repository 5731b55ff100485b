/** The `Docverter` module of the Ruby client: the process-wide API key and base
  * URL, the authenticated URL builder, the request wrapper with its default
  * headers, and the translation of transport failures into the library's errors. */
module Docverter {
  import opened Wrappers
  import opened Http
  import Uri
  import Numerals

  /** The library's error classes, plus the Ruby errors its code can end in. */
  datatype Error =
    | AuthenticationError(message: string)
    | APIConnectionError(message: string)
    | APIError(message: string)
    | InvalidConversionError(message: string)
    // URI::InvalidURIError, raised by `URI()` on a text no URI may hold, and by
    // `user=` / `password=` when the URL cannot take them
    | InvalidUriError(message: string)
    // Errno::ENOENT from File.open
    | FileNotFound(message: string)
    // OkJson::Error from a body that is not JSON
    | ParserError(message: string)
    // the two Ruby errors the code as written raises by accident (see the README's findings)
    | TypeError(message: string)
    | NameError(message: string)
    // an exception `request` does not rescue, or rescues and raises again, unchanged
    | Propagated(name: string, message: string)

  const DefaultBaseUrl: string := "https://api.docverter.com/v1"

  /** Seconds the transport may take to open the connection. */
  const OpenTimeout: nat := 30

  const NoKeyMessage: string :=
    "No API key provided. (HINT: set " +
    "your API key using " +
    "\"Docverter.api_key = " +
    "<API-KEY>\". You can find your " +
    "API in the Docverter web " +
    "interface. See " +
    "http://www.docverter.com/api.html " +
    "for details, or email " +
    "pete@docverter.com if you have " +
    "any questions.)"

  const UserAgentHeader: string := "user_agent"
  const ContentTypeHeader: string := "content_type"
  const MultipartFormData: string := "multipart/form-data"

  const DnsGuidance: string :=
    "Unexpected error communicating " +
    "when trying to connect to " +
    "Docverter.  HINT: You may be " +
    "seeing this message because " +
    "your DNS is not working.  To " +
    "check, try running 'host " +
    "docverter.com' from the command " +
    "line."
  const GenericGuidance: string :=
    "Unexpected error communicating " +
    "with Docverter.  If this " +
    "problem persists, let me know " +
    "at pete@docverter.com."
  const UnexpectedCodeMessage: string := "Unexpected HTTP response code"
  const NoMethodErrorName: string := "NoMethodError"
  const RequestFailedName: string := "RequestFailed"
  const UndefinedApiBase: string := "uninitialized class variable @@api_base in Docverter"
  const TypeErrorMessage: string := "no implicit conversion of String into Integer"

  // ---------------------------------------------------------------------------
  // Authenticated URL

  /** `api_url(path)` for key `key` and base URL `base`: `URI(base + path)` refuses a
    * text no URI may hold; then a missing key is an error only while the base URL is
    * still the production default; a key is set as the user (`user=`), then the
    * password is set to the empty text (`password=`), and either step may be refused. */
  function AuthenticatedUrl(key: Option<string>, base: string, path: string): (r: Result<string, Error>)
    ensures (r.Failure? && r.error.AuthenticationError?) <==> (Uri.Acceptable(base + path) && key.None? && base == DefaultBaseUrl)
    ensures !Uri.Acceptable(base + path) ==> r == Failure(InvalidUriError(Uri.BadUriMessage(base + path)))
    ensures r.Failure? ==> r.error == AuthenticationError(NoKeyMessage) || r.error.InvalidUriError?
  {
    match Uri.Make(base + path)
    case Failure(m) => Failure(InvalidUriError(m))
    case Success(u) =>
      if key.None? && base == DefaultBaseUrl then Failure(AuthenticationError(NoKeyMessage))
      else if key.None? then Success(Uri.ToString(u))
      else match Uri.SetUser(u, key.value)
        case Failure(m) => Failure(InvalidUriError(m))
        case Success(v) =>
          match Uri.SetPassword(v, "")
          case Failure(m) => Failure(InvalidUriError(m))
          case Success(w) => Success(Uri.ToString(w))
  }

  /** Without a key, against an overridden base URL, the URL is `base + path` unchanged
    * (unless its user-info is empty, whose '@' Ruby drops). */
  lemma AuthenticatedUrlWithoutKey(base: string, path: string)
    requires base != DefaultBaseUrl
    requires Uri.Acceptable(base + path) && !Uri.EmptyUserInfo(base + path)
    ensures AuthenticatedUrl(None, base, path) == Success(base + path)
  {
    Uri.PrintParse(base + path);
  }

  /** With key `k`, the URL is `base + path` with "user:@" inserted right after
    * "scheme://", the user being `k` up to its first ':'. */
  lemma AuthenticatedUrlWithKey(k: string, base: string, path: string)
    requires Uri.Acceptable(base + path) && !Uri.EmptyUserInfo(base + path)
    requires Uri.Parse(base + path).Hierarchical? && Uri.Parse(base + path).user.None?
    requires k != ""
    ensures |Uri.Parse(base + path).scheme| + |Uri.Separator| <= |base + path|
    ensures var s, n := base + path, |Uri.Parse(base + path).scheme| + |Uri.Separator|;
      AuthenticatedUrl(Some(k), base, path) == Success(s[..n] + Uri.UserPart(k) + ":@" + s[n..])
  {
    Uri.InsertUserInfo(base + path, k);
  }

  /** An empty key clears the user, so setting the password is refused. */
  lemma EmptyKeyRefused(base: string, path: string)
    requires Uri.Acceptable(base + path)
    requires Uri.Parse(base + path).Hierarchical? && Uri.Parse(base + path).password.None?
    ensures AuthenticatedUrl(Some(""), base, path) == Failure(InvalidUriError(Uri.PasswordWithoutUserMessage))
  {
    Uri.EmptyUserRefused(Uri.Parse(base + path));
  }

  /** A path no URI may hold is refused by `URI()` before the key is looked at. */
  lemma MalformedPathRefused()
    ensures AuthenticatedUrl(None, DefaultBaseUrl, "/a b") == Failure(InvalidUriError(Uri.BadUriMessage(DefaultBaseUrl + "/a b")))
  {
    assert !Uri.UriChar((DefaultBaseUrl + "/a b")[30]);
  }

  /** For a URL given as its parts, a key without ':' lands between "scheme://" and the host. */
  lemma {:induction false} AuthenticatedUrlOfParts(k: string, base: string, path: string, scheme: string, hostPort: string, rest: string, url: string)
    requires base + path == scheme + Uri.Separator + hostPort + rest
    requires Uri.Acceptable(base + path)
    requires url == scheme + "://" + k + ":@" + hostPort + rest
    requires Uri.NoColon(scheme) && Uri.PlainHost(hostPort)
    requires rest == [] || rest[0] in Uri.AuthorityEnd
    requires k != "" && Uri.NoColon(k)
    ensures AuthenticatedUrl(Some(k), base, path) == Success(url)
  {
    var u := Uri.Parse(base + path);
    Uri.ParseOfParts(scheme, hostPort, rest);
    Uri.SetUserThenPassword(u, k);
    assert Uri.UserPart(k) == k;
    var v := Uri.Hierarchical(scheme, Some(k), Some(""), hostPort, rest);
    assert Uri.UserInfo(Some(k), Some("")) == k + ":@";
    calc {
      Uri.ToString(v);
      scheme + Uri.Separator + (k + ":@") + hostPort + rest;
      { Uri.AppendAssoc(scheme + Uri.Separator, k, ":@"); }
      scheme + "://" + k + ":@" + hostPort + rest;
    }
  }

  /** The production base URL, cut into its parts. */
  lemma DefaultBaseUrlParts()
    ensures DefaultBaseUrl == "https" + Uri.Separator + "api.docverter.com" + "/v1"
    ensures Uri.NoColon("https") && Uri.PlainHost("api.docverter.com")
  {
  }

  /** `URI()` accepts the production base URL, and the "/convert" URL built on it. */
  lemma DefaultBaseUrlAcceptable()
    ensures Uri.Acceptable(DefaultBaseUrl)
  {
    DefaultBaseUrlParts();
    DefaultPiecesAcceptable();
    AcceptableParts("https", "api.docverter.com", "/v1");
  }

  lemma DefaultPiecesAcceptable()
    ensures Uri.Acceptable("https") && Uri.Acceptable("api.docverter.com") && Uri.Acceptable("/v1")
  {
  }

  lemma ConvertUrlAcceptable()
    ensures Uri.Acceptable(DefaultBaseUrl + "/convert")
  {
    DefaultBaseUrlAcceptable();
    assert Uri.Acceptable("/convert");
    Uri.AcceptableAppend(DefaultBaseUrl, "/convert");
  }

  /** A URL written as scheme, "://", host and rest is accepted when each piece is. */
  lemma AcceptableParts(scheme: string, hostPort: string, rest: string)
    requires Uri.Acceptable(scheme) && Uri.Acceptable(hostPort) && Uri.Acceptable(rest)
    ensures Uri.Acceptable(scheme + Uri.Separator + hostPort + rest)
  {
    assert Uri.Acceptable(Uri.Separator);
    Uri.AcceptableAppend(scheme, Uri.Separator);
    Uri.AcceptableAppend(scheme + Uri.Separator, hostPort);
    Uri.AcceptableAppend(scheme + Uri.Separator + hostPort, rest);
  }

  /** The key the library's tests use. */
  lemma TestKey()
    ensures "test_key" != "" && Uri.NoColon("test_key")
  {
  }

  /** The URLs the library's tests expect for the key "test_key". */
  lemma DefaultUrlWithTestKey()
    ensures AuthenticatedUrl(Some("test_key"), DefaultBaseUrl, "") == Success("https://test_key:@api.docverter.com/v1")
  {
    DefaultBaseUrlParts();
    DefaultBaseUrlAcceptable();
    TestKey();
    DefaultUrlText();
    assert DefaultBaseUrl + "" == DefaultBaseUrl;
    AuthenticatedUrlOfParts("test_key", DefaultBaseUrl, "", "https", "api.docverter.com", "/v1", "https://test_key:@api.docverter.com/v1");
  }

  lemma ConvertUrlWithTestKey()
    ensures AuthenticatedUrl(Some("test_key"), DefaultBaseUrl, "/convert") == Success("https://test_key:@api.docverter.com/v1/convert")
  {
    ConvertUrlAcceptable();
    TestKey();
    ConvertUrlParts();
    ConvertUrlText();
    AuthenticatedUrlOfParts("test_key", DefaultBaseUrl, "/convert", "https", "api.docverter.com", "/v1/convert", "https://test_key:@api.docverter.com/v1/convert");
  }

  lemma ConvertUrlParts()
    ensures DefaultBaseUrl + "/convert" == "https" + Uri.Separator + "api.docverter.com" + "/v1/convert"
  {
  }

  lemma OverriddenUrlWithTestKey()
    ensures AuthenticatedUrl(Some("test_key"), "http://localhost:5000/v1", "") == Success("http://test_key:@localhost:5000/v1")
  {
    OverriddenUrlParts();
    OverriddenUrlAcceptable();
    TestKey();
    OverriddenUrlText();
    AuthenticatedUrlOfParts("test_key", "http://localhost:5000/v1", "", "http", "localhost:5000", "/v1", "http://test_key:@localhost:5000/v1");
  }

  lemma OverriddenUrlParts()
    ensures "http://localhost:5000/v1" + "" == "http" + Uri.Separator + "localhost:5000" + "/v1"
    ensures Uri.NoColon("http") && Uri.PlainHost("localhost:5000")
  {
    assert "http://localhost:5000/v1" + "" == "http://localhost:5000/v1";
  }

  lemma OverriddenUrlAcceptable()
    ensures Uri.Acceptable("http://localhost:5000/v1" + "")
  {
    OverriddenUrlParts();
    assert Uri.Acceptable("http") && Uri.Acceptable("localhost:5000") && Uri.Acceptable("/v1");
    AcceptableParts("http", "localhost:5000", "/v1");
  }

  /** Each expected URL cut into scheme, "://", "test_key:@", host and rest. */
  lemma DefaultUrlText()
    ensures "https://test_key:@api.docverter.com/v1" == "https" + "://" + "test_key" + ":@" + "api.docverter.com" + "/v1"
  {
  }

  lemma ConvertUrlText()
    ensures "https://test_key:@api.docverter.com/v1/convert" == "https" + "://" + "test_key" + ":@" + "api.docverter.com" + "/v1/convert"
  {
  }

  lemma OverriddenUrlText()
    ensures "http://test_key:@localhost:5000/v1" == "http" + "://" + "test_key" + ":@" + "localhost:5000" + "/v1"
  {
  }

  // ---------------------------------------------------------------------------
  // Headers

  function UserAgent(version: string): string {
    "Docverter/v1 RubyBindings/" + version
  }

  function DefaultHeaders(version: string): map<string, string> {
    map[UserAgentHeader := UserAgent(version), ContentTypeHeader := MultipartFormData]
  }

  /** The headers of every request: the defaults, overridden key by key by the caller's. */
  function MergeHeaders(version: string, headers: map<string, string>): (h: map<string, string>)
    ensures h.Keys == {UserAgentHeader, ContentTypeHeader} + headers.Keys
    ensures forall k :: k in headers ==> h[k] == headers[k]
    ensures UserAgentHeader !in headers ==> h[UserAgentHeader] == UserAgent(version)
    ensures ContentTypeHeader !in headers ==> h[ContentTypeHeader] == MultipartFormData
  {
    DefaultHeaders(version) + headers
  }

  // ---------------------------------------------------------------------------
  // Errors

  function ApiErrorMessage(error: string, code: int): string {
    "Docverter API Error: " + error + " (status: " + Numerals.IntToString(code) + ")"
  }

  function NetworkErrorSuffix(message: string): string {
    "\n\n(Network error: " + message + ")"
  }

  predicate EndsWith(s: string, suffix: string) {
    |suffix| <= |s| && s[|s| - |suffix|..] == suffix
  }

  /** `handle_api_error` as written: a body that decodes to a JSON object yields its
    * "error" member (nil, so empty, when missing); one that does not decode yields
    * itself. A body that decodes to a JSON array reaches `obj['error']` on an Array,
    * which raises `TypeError` instead of `APIError`. */
  function HandleApiErrorAsWritten(code: int, body: string, decode: string -> Option<Doc>): Error {
    match decode(body)
    case None => APIError(ApiErrorMessage(body, code))
    case Some(Hash(fields)) => APIError(ApiErrorMessage(if "error" in fields then fields["error"] else "", code))
    case Some(List(_)) => TypeError(TypeErrorMessage)
  }

  /** The text `handle_api_error` reports for a body: the decoded "error" member, or
    * the raw body when the body does not decode to a JSON object. */
  function ErrorText(body: string, decode: string -> Option<Doc>): string {
    match decode(body)
    case Some(Hash(fields)) => if "error" in fields then fields["error"] else ""
    case _ => body
  }

  /** `handle_api_error`, with an array body handled like an undecodable one. */
  function HandleApiError(code: int, body: string, decode: string -> Option<Doc>): (e: Error)
    ensures e.APIError?
    ensures decode(body).None? ==> e.message == ApiErrorMessage(body, code)
    ensures decode(body).Some? && decode(body).value.Hash? && "error" in decode(body).value.fields ==>
      e.message == ApiErrorMessage(decode(body).value.fields["error"], code)
    ensures decode(body).Some? && decode(body).value.Hash? && "error" !in decode(body).value.fields ==>
      e.message == ApiErrorMessage("", code)
    ensures decode(body).Some? && decode(body).value.List? ==> e.message == ApiErrorMessage(body, code)
  {
    APIError(ApiErrorMessage(ErrorText(body, decode), code))
  }

  /** The two versions of `handle_api_error` agree on every body that does not decode
    * to a JSON array. */
  lemma HandleApiErrorAgrees(code: int, body: string, decode: string -> Option<Doc>)
    requires !(decode(body).Some? && decode(body).value.List?)
    ensures HandleApiErrorAsWritten(code, body, decode) == HandleApiError(code, body, decode)
  {
  }

  /** The status-422 example: the message names both the error and the status. */
  lemma BadFormatMessage(body: string, decode: string -> Option<Doc>)
    requires decode(body) == Some(Hash(map["error" := "bad format"]))
    ensures HandleApiError(422, body, decode) == APIError("Docverter API Error: bad format (status: 422)")
  {
    assert ErrorText(body, decode) == "bad format";
    BadFormatText();
  }

  lemma BadFormatText()
    ensures ApiErrorMessage("bad format", 422) == "Docverter API Error: bad format (status: 422)"
  {
    Text422();
  }

  lemma Text422()
    ensures Numerals.IntToString(422) == "422"
  {
    assert Numerals.NatToString(4) == "4";
    assert Numerals.NatToString(42) == "42";
  }

  /** An array body makes the code as written raise something other than `APIError`. */
  lemma ArrayBodyRaisesTypeError(decode: string -> Option<Doc>)
    requires decode("[1]") == Some(List(["1"]))
    ensures !HandleApiErrorAsWritten(500, "[1]", decode).APIError?
    ensures HandleApiErrorAsWritten(500, "[1]", decode) == TypeError(TypeErrorMessage)
  {
  }

  /** `handle_restclient_error` as written: the branch for a broken connection or a
    * timeout interpolates `@@api_base`, which is never assigned, so it raises
    * `NameError` instead of building its message. */
  function HandleRestclientErrorAsWritten(f: Failure): Error {
    match f
    case ServerBrokeConnection(_) => NameError(UndefinedApiBase)
    case RequestTimeout(_) => NameError(UndefinedApiBase)
    case SocketError(m) => APIConnectionError(DnsGuidance + NetworkErrorSuffix(m))
    case _ => APIConnectionError(GenericGuidance + NetworkErrorSuffix(f.message))
  }

  function ConnectGuidance(base: string): string {
    "Could not connect to Docverter (" + base +
    ").  Please check your internet " +
    "connection and try again.  If " +
    "this problem persists, you " +
    "should let me know at " +
    "pete@docverter.com."
  }

  /** `handle_restclient_error`, with the broken-connection branch naming the base URL. */
  function HandleRestclientError(f: Failure, base: string): (e: Error)
    ensures e.APIConnectionError?
    ensures EndsWith(e.message, NetworkErrorSuffix(f.message))
    ensures f.SocketError? ==> e.message == DnsGuidance + NetworkErrorSuffix(f.message)
    ensures f.ServerBrokeConnection? || f.RequestTimeout? ==> e.message == ConnectGuidance(base) + NetworkErrorSuffix(f.message)
  {
    var guidance := Guidance(f, base);
    EndsWithAppend(guidance, NetworkErrorSuffix(f.message));
    APIConnectionError(guidance + NetworkErrorSuffix(f.message))
  }

  function Guidance(f: Failure, base: string): (g: string)
    ensures f.SocketError? ==> g == DnsGuidance
    ensures f.ServerBrokeConnection? || f.RequestTimeout? ==> g == ConnectGuidance(base)
  {
    if f.ServerBrokeConnection? || f.RequestTimeout? then ConnectGuidance(base)
    else if f.SocketError? then DnsGuidance
    else GenericGuidance
  }

  lemma EndsWithAppend(s: string, suffix: string)
    ensures EndsWith(s + suffix, suffix)
  {
    assert (s + suffix)[|s|..] == suffix;
  }

  /** The two versions of `handle_restclient_error` agree outside the broken-connection
    * and timeout branch. */
  lemma HandleRestclientErrorAgrees(f: Failure, base: string)
    requires !f.ServerBrokeConnection? && !f.RequestTimeout?
    ensures HandleRestclientErrorAsWritten(f) == HandleRestclientError(f, base)
  {
  }

  /** A timeout makes the code as written raise something other than `APIConnectionError`. */
  lemma TimeoutRaisesNameError()
    ensures HandleRestclientErrorAsWritten(RequestTimeout("Request Timeout")) == NameError(UndefinedApiBase)
    ensures !HandleRestclientErrorAsWritten(RequestTimeout("Request Timeout")).APIConnectionError?
  {
  }

  /** A transport exception carrying both a status code and a body is a service error. */
  predicate HasResponse(f: Failure) {
    f.ResponseError? && f.httpCode.Some? && f.httpBody.Some?
  }

  predicate WordChar(c: char) {
    'a' <= c <= 'z' || 'A' <= c <= 'Z' || '0' <= c <= '9' || c == '_'
  }

  /** `message =~ /\WRequestFailed\W/`: "RequestFailed" with a non-word character on each side. */
  predicate MentionsRequestFailed(message: string) {
    exists i :: 0 <= i && i + |RequestFailedName| + 2 <= |message| && !WordChar(message[i])
      && message[i + 1..i + 1 + |RequestFailedName|] == RequestFailedName
      && !WordChar(message[i + 1 + |RequestFailedName|])
  }

  /** The exceptions the `rescue` clauses of `request` catch and do not raise again: all
    * but the unrescued ones and a `NoMethodError` that does not mention RequestFailed. */
  predicate Rescued(f: Failure) {
    match f
    case Unrescued(_, _) => false
    case NoMethod(m) => MentionsRequestFailed(m)
    case _ => true
  }

  /** The exception `request` hands to `handle_restclient_error`: a rescued
    * `NoMethodError` is first replaced by an `APIConnectionError` with a fixed message,
    * which, like a RestClient exception of no class singled out there, gets the
    * generic guidance. */
  function Handled(f: Failure): Failure {
    if f.NoMethod? then OtherRestClientError(UnexpectedCodeMessage) else f
  }

  /** The exception an unrescued failure leaves `request` with. */
  function Reraised(f: Failure): Error {
    match f
    case Unrescued(name, m) => Propagated(name, m)
    case _ => Propagated(NoMethodErrorName, f.message)
  }

  /** The `rescue` clauses of `request` as written. */
  function DispatchAsWritten(f: Failure, decode: string -> Option<Doc>): Error {
    if !Rescued(f) then Reraised(f)
    else if HasResponse(f) then HandleApiErrorAsWritten(f.httpCode.value, f.httpBody.value, decode)
    else HandleRestclientErrorAsWritten(Handled(f))
  }

  /** The `rescue` clauses of `request`: a service error when the exception carries both
    * a status code and a body, a connection error for every other exception they catch,
    * and any other exception left to propagate unchanged. */
  function Dispatch(f: Failure, base: string, decode: string -> Option<Doc>): (e: Error)
    ensures e.APIError? <==> HasResponse(f)
    ensures e.APIConnectionError? <==> Rescued(f) && !HasResponse(f)
    ensures e.Propagated? <==> !Rescued(f)
    ensures f.Unrescued? ==> e == Propagated(f.name, f.message)
    ensures f.NoMethod? && !Rescued(f) ==> e == Propagated(NoMethodErrorName, f.message)
    ensures HasResponse(f) ==> e == HandleApiError(f.httpCode.value, f.httpBody.value, decode)
    ensures Rescued(f) && !HasResponse(f) && !f.NoMethod? ==> EndsWith(e.message, NetworkErrorSuffix(f.message))
    ensures f.NoMethod? && Rescued(f) ==> e.message == GenericGuidance + NetworkErrorSuffix(UnexpectedCodeMessage)
  {
    if !Rescued(f) then Reraised(f)
    else if HasResponse(f) then HandleApiError(f.httpCode.value, f.httpBody.value, decode)
    else HandleRestclientError(Handled(f), base)
  }

  /** Where the code as written does not end in `TypeError` or `NameError`, it ends in
    * the error `Dispatch` gives. */
  lemma DispatchAgrees(f: Failure, base: string, decode: string -> Option<Doc>)
    requires !DispatchAsWritten(f, decode).TypeError? && !DispatchAsWritten(f, decode).NameError?
    ensures DispatchAsWritten(f, decode) == Dispatch(f, base, decode)
  {
    if !Rescued(f) {
    } else if HasResponse(f) {
      HandleApiErrorAgrees(f.httpCode.value, f.httpBody.value, decode);
    } else {
      HandleRestclientErrorAgrees(Handled(f), base);
    }
  }

  // ---------------------------------------------------------------------------
  // The process-wide settings and the request wrapper

  /** `@@api_key` and `@@base_url`, and the operations that read and write them. */
  class Settings {
    /** `Docverter::VERSION`, sent in the user agent. */
    const version: string
    var apiKey: Option<string>
    var baseUrl: string

    /** The state at load time: no key, the production URL. */
    constructor(version: string)
      ensures this.version == version
      ensures apiKey == None && baseUrl == DefaultBaseUrl
    {
      this.version := version;
      apiKey := None;
      baseUrl := DefaultBaseUrl;
    }

    /** `Docverter.api_key`. */
    method ApiKey() returns (key: Option<string>)
      ensures key == apiKey
    {
      key := apiKey;
    }

    /** `Docverter.api_key = key`; nil clears the key. */
    method SetApiKey(key: Option<string>)
      modifies this
      ensures apiKey == key && baseUrl == old(baseUrl)
    {
      apiKey := key;
    }

    /** `Docverter.base_url = url`. */
    method SetBaseUrl(url: string)
      modifies this
      ensures baseUrl == url && apiKey == old(apiKey)
    {
      baseUrl := url;
    }

    /** `Docverter.reset`: back to the load-time state, whatever the state was. */
    method Reset()
      modifies this
      ensures apiKey == None && baseUrl == DefaultBaseUrl
    {
      apiKey := None;
      baseUrl := DefaultBaseUrl;
    }

    /** `Docverter.api_url(path)`: `URI(baseUrl + path)`, then a missing key refused
      * against the production URL, then the key set as user and an empty password. */
    method ApiUrl(path: string) returns (r: Result<string, Error>)
      ensures r == AuthenticatedUrl(apiKey, baseUrl, path)
      ensures (r.Failure? && r.error.AuthenticationError?) <==> (Uri.Acceptable(baseUrl + path) && apiKey.None? && baseUrl == DefaultBaseUrl)
      ensures apiKey.None? && baseUrl != DefaultBaseUrl && Uri.Acceptable(baseUrl + path) && !Uri.EmptyUserInfo(baseUrl + path) ==>
        r == Success(baseUrl + path)
    {
      var made := Uri.Make(baseUrl + path);
      if made.Failure? {
        return Failure(InvalidUriError(made.error));
      }
      var u := made.value;
      var key := apiKey;
      if key.None? && baseUrl == DefaultBaseUrl {
        return Failure(AuthenticationError(NoKeyMessage));
      }
      if key.Some? {
        var named := Uri.SetUser(u, key.value);
        if named.Failure? {
          return Failure(InvalidUriError(named.error));
        }
        var secured := Uri.SetPassword(named.value, "");
        if secured.Failure? {
          return Failure(InvalidUriError(secured.error));
        }
        u := secured.value;
      } else if !Uri.EmptyUserInfo(baseUrl + path) {
        AuthenticatedUrlWithoutKey(baseUrl, path);
      }
      r := Success(Uri.ToString(u));
    }

    /** The options `request` hands to the transport. */
    function Outgoing(verb: Verb, url: string, params: map<string, Value>, headers: map<string, string>): HttpRequest {
      HttpRequest(verb, url, MergeHeaders(version, headers), OpenTimeout, params)
    }

    /** `Docverter.request`: one attempt at `path` on the authenticated URL. A missing
      * key fails before anything is sent; otherwise the body comes back unchanged, or
      * the transport's exception is translated by `Dispatch`. */
    function Request(verb: Verb, path: string, params: map<string, Value>, headers: map<string, string>,
                     exec: HttpRequest -> Transport, decode: string -> Option<Doc>): (r: Result<string, Error>)
      reads this
      ensures AuthenticatedUrl(apiKey, baseUrl, path).Failure? ==> r == Failure(AuthenticatedUrl(apiKey, baseUrl, path).error)
      ensures AuthenticatedUrl(apiKey, baseUrl, path).Success? ==>
        var t := exec(Outgoing(verb, AuthenticatedUrl(apiKey, baseUrl, path).value, params, headers));
        && (r.Success? <==> t.Response?)
        && (t.Response? ==> r.value == t.body)
        && (t.Raised? ==> r.error == Dispatch(t.failure, baseUrl, decode))
    {
      match AuthenticatedUrl(apiKey, baseUrl, path)
      case Failure(e) => Failure(e)
      case Success(url) =>
        match exec(Outgoing(verb, url, params, headers))
        case Response(body) => Success(body)
        case Raised(f) => Failure(Dispatch(f, baseUrl, decode))
    }
  }
}
