/** What the HTTP transport (RestClient, through `Docverter.execute_request`) is
  * handed and what it gives back or raises. The transport itself is not modelled:
  * operations that send a request take it as a function `exec` from the request to
  * its `Transport` outcome, and the JSON decoder as a function `decode`. */
module Http {
  import opened Wrappers

  datatype Verb = Get | Post | Delete

  /** An open file: the path it was opened from and the bytes it reads. */
  datatype FileHandle = FileHandle(path: string, data: string)

  /** A parameter value sent in a request: nil, a string, or a list of open files. */
  datatype Value = Nil | Text(text: string) | Files(handles: seq<FileHandle>)

  /** The options hash passed to `RestClient::Request.execute`. */
  datatype HttpRequest = HttpRequest(
    verb: Verb,
    url: string,
    headers: map<string, string>,
    openTimeout: nat,
    payload: map<string, Value>)

  /** The exceptions the transport can raise, by the class `Docverter.request` and
    * `Docverter.handle_restclient_error` tell apart. `ResponseError` is a
    * `RestClient::ExceptionWithResponse`, whose `http_code` and `http_body` may be nil. */
  datatype Failure =
    | SocketError(message: string)
    | ConnectionRefused(message: string)
    | ServerBrokeConnection(message: string)
    | RequestTimeout(message: string)
    | ResponseError(httpCode: Option<int>, httpBody: Option<string>, message: string)
    | OtherRestClientError(message: string)
    // a NoMethodError, which RestClient raises by its own bug
    | NoMethod(message: string)
    // any other exception (Errno::ECONNRESET, OpenSSL::SSL::SSLError, ...), which no
    // rescue clause of `Docverter.request` catches
    | Unrescued(name: string, message: string)

  /** What one request attempt produces: a response body, or an exception. */
  datatype Transport = Response(body: string) | Raised(failure: Failure)

  /** A decoded JSON document (`OkJson.decode` accepts an object or an array at the
    * top level). Member values are kept as the text Ruby's interpolation gives them. */
  datatype Doc = Hash(fields: map<string, string>) | List(items: seq<string>)
}
