# Docverter Ruby client — a Dafny model

The Docverter client sends conversion jobs to the Docverter HTTP service. A job names a source format, a target format, inline content or input files, auxiliary files and extra options such as a stylesheet or a callback URL. The service replies with the converted document, or with a status report when a callback URL is set. This project models and proves the client's logic:

- **`Docverter` (lib/docverter.rb)**: the process-wide API key and base URL (class `Settings`, with its setters and `reset`) and the authenticated URL builder `api_url`. It also covers the header merge, the translation of transport exceptions into `APIError` / `APIConnectionError`, and `request`.
- **`ConversionJob` (lib/docverter/conversion.rb)**: the `Conversion` class and its methods:
  - the constructor, `add_input_file`, `add_other_file`, attribute assignment, `to_h` and `convert`;
  - the class-level `run`, `status` and `pickup`.

  A job's state is also available as a value (`Job`). `convert` and the payload are specified as functions of that value.
- **Supporting modules**:
  - `Uri`: the part of Ruby's `URI` that `api_url` uses. It splits a URL into scheme, user-info, host and rest, sets the user and password, and prints the URL.
  - `Numerals`: `Integer#to_s`, used for status codes and job ids, with a parse-back round trip.
  - `Http`: what the transport is given, returns and raises.
  - `Wrappers`: `Option` / `Result` / `Outcome` in place of nil and exceptions.

The HTTP transport is a parameter: `exec`, a function from the request options to a response body or a raised exception. The JSON decoder is a parameter `decode`. The filesystem is a parameter `fs`, a map from path to contents. The temporary file's path is a parameter `tempPath`. The global class variables are fields of a `Settings` object that is passed to the operations that read them.

`convert` adds the content as one more input file whenever content is set, even when input files already exist (lib/docverter/conversion.rb:116-121).

## Model

| member | source | states |
|---|---|---|
| `Uri.Make` | lib/docverter.rb:24 | `URI(s)` succeeds exactly when every character of `s` may occur in a URI, and otherwise fails with `bad URI(is not URI?): s`. |
| `Uri.PrintParse` | lib/docverter.rb:24-29 | Parsing a URL and printing it again reproduces the text exactly, unless its user-info is empty. So such a URL is not altered when no user is set. |
| `Uri.PrintParseDropsAt` | lib/docverter.rb:24-29 | A URL with an empty user-info (`http://@host`) prints back without that '@' and is otherwise unchanged. |
| `Uri.SplitUserInfo` | lib/docverter.rb:27 | The text given to `user=` on a URL without a password is split at its first ':': user, ':' and password join back to the text, and without a ':' the whole text is the user. An empty text gives neither user nor password. |
| `Uri.UserPart` | lib/docverter.rb:27 | The user taken from a key is the longest prefix of the key without ':'. It ends at the key's first ':' or at its end. |
| `Uri.SetUser` | lib/docverter.rb:27 | `user=` succeeds exactly on a hierarchical URL and keeps scheme, host and rest. With a password already set it stores the user whole. Without one, the user is the text up to its first ':', and an empty text clears user and password. |
| `Uri.SetPassword` | lib/docverter.rb:28 | `password=` succeeds exactly on a hierarchical URL that has a user. It is refused with `can not set password with opaque` or `password component depends user component` otherwise. |
| `Uri.SetUserThenPassword` | lib/docverter.rb:27-28 | On a hierarchical URL without a password, a non-empty key `k` leaves the user `k` up to its first ':' and an empty password. |
| `Uri.EmptyUserRefused` | lib/docverter.rb:27-28 | On a hierarchical URL without a password, an empty key clears the user, so setting the password is refused. |
| `Uri.InsertUserInfo` | lib/docverter.rb:27-29 | On a URL without user-info, a non-empty key `k` with an empty password inserts `user:@` right after `scheme://`, `user` being `k` up to its first ':'. Nothing else changes. |
| `Uri.ParseOfParts` | lib/docverter.rb:24 | `scheme://host/rest` parses to exactly those parts with no user-info, when the scheme has no ':' and the host has no '@', '/', '?' or '#'. |
| `Numerals.ParseIntToString` | lib/docverter.rb:90 | The decimal text of an integer (the status code in the API error message, the job id in a path) reads back as that integer. |
| `Docverter.AuthenticatedUrl` | lib/docverter.rb:23-30 | A text no URI may hold raises `InvalidURIError` before the key is looked at. Otherwise `api_url` fails with `AuthenticationError` exactly when the key is nil and the base URL is the production default. Its only other failures are the `InvalidURIError`s of `user=` and `password=`. |
| `Docverter.AuthenticatedUrlWithoutKey` | lib/docverter.rb:24-29 | With a nil key and an overridden base URL, a URL that `URI()` accepts and whose user-info is not empty is returned as `base_url + path`, unchanged. |
| `Docverter.AuthenticatedUrlWithKey` | lib/docverter.rb:24-29 | With a non-empty key `k`, the URL is `base_url + path` with `user:@` inserted after `scheme://`, `user` being `k` up to its first ':'. |
| `Docverter.EmptyKeyRefused` | lib/docverter.rb:27-28 | An empty key makes `api_url` raise `InvalidURIError` with `password component depends user component`. |
| `Docverter.MalformedPathRefused` | lib/docverter.rb:24-26 | With no key and the production URL, the path "/a b" raises `InvalidURIError`, not `AuthenticationError`, because `URI()` runs first. |
| `Docverter.DefaultUrlWithTestKey` | test/test_docverter.rb:24-26 | Key "test_key" with the default base gives `https://test_key:@api.docverter.com/v1`. |
| `Docverter.ConvertUrlWithTestKey` | test/test_docverter.rb:78-79 | Key "test_key" with the default base and path "/convert" gives `https://test_key:@api.docverter.com/v1/convert`. |
| `Docverter.OverriddenUrlWithTestKey` | test/test_docverter.rb:28-31 | Key "test_key" with base `http://localhost:5000/v1` gives `http://test_key:@localhost:5000/v1`. |
| `Docverter.MergeHeaders` | lib/docverter.rb:46-49 | The request headers are `user_agent` and `content_type: multipart/form-data` plus the caller's. A caller header overrides the default with the same key, and each default survives when the caller does not set it. |
| `Docverter.HandleApiError` | lib/docverter.rb:88-91 | The result is always an `APIError` with message `Docverter API Error: <error> (status: <code>)`. `<error>` is the decoded "error" member, the empty text when a decoded object has none, and the raw body when the body does not decode or decodes to an array. |
| `Docverter.HandleApiErrorAgrees` | lib/docverter.rb:88-91 | The corrected `handle_api_error` equals the code as written on every body that does not decode to a JSON array. |
| `Docverter.BadFormatMessage` | lib/docverter.rb:88-91 | Status 422 with body `{"error":"bad format"}` gives the message `Docverter API Error: bad format (status: 422)`. |
| `Docverter.ArrayBodyRaisesTypeError` | lib/docverter.rb:89-90 | As written, a body that decodes to a JSON array raises `TypeError`, not `APIError`. |
| `Docverter.HandleRestclientError` | lib/docverter.rb:93-104 | The result is always an `APIConnectionError` whose message ends with `\n\n(Network error: <message>)`. The DNS guidance is used for `SocketError`, and the base URL is named for a broken connection or a timeout. |
| `Docverter.HandleRestclientErrorAgrees` | lib/docverter.rb:97-103 | Outside the broken-connection and timeout branch, the corrected version equals the code as written. |
| `Docverter.TimeoutRaisesNameError` | lib/docverter.rb:95-96 | As written, a timeout raises `NameError` from the unassigned `@@api_base`, not `APIConnectionError`. |
| `Docverter.Dispatch` | lib/docverter.rb:59-79 | A transport exception becomes `APIError` exactly when it carries both a status code and a body. Every other rescued exception becomes `APIConnectionError` ending with the network-error suffix. A `NoMethodError` mentioning RequestFailed gets the suffix for "Unexpected HTTP response code". Any other `NoMethodError`, and any exception no clause rescues, propagates unchanged. |
| `Docverter.DispatchAgrees` | lib/docverter.rb:59-79 | Wherever the rescue clauses as written do not end in `TypeError` or `NameError`, they end in the error `Dispatch` gives. |
| `Docverter.Settings.constructor` | lib/docverter.rb:12-13 | At load time the key is nil and the base URL is `https://api.docverter.com/v1`. |
| `Docverter.Settings.ApiKey` | lib/docverter.rb:15-17 | Returns the stored key, so reading it after `api_key = k` gives `k`. |
| `Docverter.Settings.SetApiKey` | lib/docverter.rb:19-21 | Stores the key, nil included, and leaves the base URL unchanged. |
| `Docverter.Settings.SetBaseUrl` | lib/docverter.rb:32-34 | Stores the base URL and leaves the key unchanged. |
| `Docverter.Settings.Reset` | lib/docverter.rb:36-39 | Whatever the earlier state, the key becomes nil and the base URL becomes the production default. |
| `Docverter.Settings.ApiUrl` | lib/docverter.rb:23-30 | The steps `URI()`, key check, `user=`, `password=` and `to_s` compute `AuthenticatedUrl`. The call fails with `AuthenticationError` iff `URI()` accepts the text and the key is nil on the default base. With a nil key on another base it returns `base_url + path` (user-info not empty). |
| `Docverter.Settings.Request` | lib/docverter.rb:41-82 | An authentication failure is returned before anything is sent. Otherwise one request goes out with the authenticated URL, the merged headers, a 30-second open timeout and the params. Its body is returned unchanged, and its exception is translated by `Dispatch`. |
| `ConversionJob.RequestNeverInvalid` | lib/docverter.rb:41-82 | `request` fails only with an authentication error, an invalid-URI error, the `APIError` / `APIConnectionError` of a transport exception, or an exception it leaves to propagate. |
| `ConversionJob.Table` | lib/docverter/conversion.rb:85-93 | The attribute table holds `from`, `to`, `content`, `input_files` and `other_files` plus every extra attribute set, each with its value, nil included. |
| `ConversionJob.Payload` | lib/docverter/conversion.rb:132-140 | `to_h` holds exactly the attributes whose value is not nil, each with its unchanged value. |
| `ConversionJob.AssignTable` | lib/docverter/conversion.rb:15-21 | Assigning an attribute sets that entry of the table and leaves every other entry as it was. |
| `ConversionJob.AssignFilesTable` | lib/docverter/conversion.rb:85-93 | Assigning a list of open files to `input_files` or `other_files` sets that entry of the table and leaves every other entry as it was. |
| `ConversionJob.FreshPayload` | test/test_docverter.rb:62-73 | `to_h` of `new("markdown", "pdf")` is exactly `{from, to, input_files: [], other_files: []}`. |
| `ConversionJob.ConvertRejectsExactly` | lib/docverter/conversion.rb:112-114 | `convert` raises `InvalidConversionError` exactly when there is no input file and the content is nil. No other failure takes that form. |
| `ConversionJob.ContentAddsOneInput` | lib/docverter/conversion.rb:116-121 | Content adds exactly one input file holding the content, after the existing ones, whose positions are kept. Every other posted attribute is unchanged. |
| `ConversionJob.NoContentNoFile` | lib/docverter/conversion.rb:116 | Without content the job is posted as it stands. |
| `ConversionJob.Interpret` | lib/docverter/conversion.rb:124-128 | Reading the reply fails only with a callback URL set, and then only with a parser error carrying the body. |
| `ConversionJob.ConvertReply` | lib/docverter/conversion.rb:123-128 | The job is posted to "/convert" with its attributes. The reply is the raw body without a callback URL and the decoded body with one. Transport failures go through `Dispatch`. |
| `ConversionJob.ConvertNeedsKey` | lib/docverter/conversion.rb:123 | A valid job with no key against the production URL fails with `AuthenticationError`. |
| `ConversionJob.FormatsOnlyRaises` | test/test_docverter.rb:114-122 | A run whose block only sets the formats raises `InvalidConversionError`. |
| `ConversionJob.ContentRequest` | test/test_docverter.rb:96-112 | With key "test_key", the content job goes to `https://test_key:@api.docverter.com/v1/convert` with one input file holding "Some Content" and no other files. An echoing transport makes `convert` return "Some Content". |
| `ConversionJob.StatusPathNamesId` | lib/docverter/conversion.rb:62-64 | The status path is "/status/" followed by the id's decimal text, and that text reads back as the id. |
| `ConversionJob.PickupPathNamesId` | lib/docverter/conversion.rb:71-73 | The pickup path is "/pickup/" followed by the id's decimal text, and that text reads back as the id. |
| `ConversionJob.PathsForJobOne` | lib/docverter/conversion.rb:63 | Job 1 is polled at "/status/1" and picked up at "/pickup/1". |
| `ConversionJob.Conversion.constructor` | lib/docverter/conversion.rb:85-93 | `from`, `to` and `content` are stored as given, and both file lists and the extras start empty. |
| `ConversionJob.Conversion.SetAttribute` | lib/docverter/conversion.rb:15-21 | Assigning `from`, `to`, `content` or any other attribute changes that attribute only. |
| `ConversionJob.Conversion.SetFileList` | lib/docverter/conversion.rb:85-93 | Assigning a list of open files to `input_files` or `other_files` replaces that list whole and changes nothing else. |
| `ConversionJob.Conversion.AddInputFile` | lib/docverter/conversion.rb:98-100 | Appends exactly one handle on the file at `path`, holding its contents, to the end of the input files. Nothing else changes. A missing file fails and changes nothing. |
| `ConversionJob.Conversion.AddOtherFile` | lib/docverter/conversion.rb:105-107 | Appends exactly one handle to the end of the other files. The input files and the attributes are unchanged. A missing file fails and changes nothing. |
| `ConversionJob.Conversion.Apply` | lib/docverter/conversion.rb:50-52 | One statement of the block passed to `run` has the effect `ApplyStep` gives, and a failing statement changes nothing. |
| `ConversionJob.Conversion.ToH` | lib/docverter/conversion.rb:132-140 | The loop over the table returns `Payload` of the current state: every non-nil attribute and nothing else. |
| `ConversionJob.Conversion.Convert` | lib/docverter/conversion.rb:110-129 | The return value is `ConvertResult` of the old state. An invalid job is left unchanged, and a valid one gains the content file. |
| `ConversionJob.Conversion.Run` | lib/docverter/conversion.rb:47-55 | Runs a new job, then the block's statements in order (the first failure stops it), then `convert`. |
| `ConversionJob.Conversion.Status` | lib/docverter/conversion.rb:62-64 | GETs the status path. A request failure is passed on, a decodable body is returned decoded, and a body that does not decode raises a parser error. |
| `ConversionJob.Conversion.Pickup` | lib/docverter/conversion.rb:71-73 | GETs the pickup path and returns the response body undecoded. |

## Findings

| source | as written | input that shows it | evidently intended | confidence | as-written member | corrected member |
|---|---|---|---|---|---|---|
| lib/docverter.rb:95-96 | The broken-connection / timeout branch interpolates `@@api_base`, which is never assigned. Reading it raises `NameError`. | `RestClient::RequestTimeout` raised by the transport | `APIConnectionError` naming the base URL (`@@base_url`) | high, not executed | `Docverter.TimeoutRaisesNameError` | `Docverter.HandleRestclientError` |
| lib/docverter.rb:89-90 | Only decoding is rescued. A body that decodes to a JSON array reaches `obj['error']` on an `Array`, which raises `TypeError`. | error response with body `[1]` | `APIError` carrying the raw body, as for a body that does not decode | medium (relies on the decoder accepting a top-level array, as JSON allows), not executed | `Docverter.ArrayBodyRaisesTypeError` | `Docverter.HandleApiError` |

`Docverter.Settings.Request` uses the corrected definitions through `Docverter.Dispatch`. `Docverter.DispatchAgrees` shows that they agree with the code as written wherever that code does not end in one of the two errors above.

## Left out

- The HTTP transport (`execute_request`, RestClient) is the parameter `exec`. Retries, timing and streaming are not modelled. The 30-second open timeout is only recorded in the request options.
- The JSON decoder (OkJson) is the parameter `decode`. A decoded document keeps each member as the text Ruby's interpolation would give it, so nested values are not modelled.
- Exceptions are told apart by class only. Which Ruby exception classes the transport raises in which situation is part of `exec`.
- `Uri.Make`: only characters no URI may contain are refused. Ruby's further structural checks are not modelled: a '%' not followed by two hex digits, brackets outside the host, a second '#', and a bad port. The model accepts such text.
- `Uri.Parse`: Ruby's full URI grammar is not modelled. That covers scheme syntax, percent-encoding, and default-port removal when printing. Text without "://" is treated as opaque, so setting a user on it fails.
- `Uri.SetUser`: the check of user and password characters (`URI::InvalidComponentError` for a key with, say, '@' or '/' in it) is not modelled. Such a key is accepted.
- `ConversionJob.Conversion.SetAttribute`: assigning a list to an attribute other than the two file lists is not modelled. Assigning anything but a list of open files to `input_files` or `other_files` is not modelled either; for instance, nil there makes `convert` raise `NoMethodError` at lib/docverter/conversion.rb:112.
- `ConversionJob.Conversion.Run`: the block is arbitrary Ruby code. It is modelled as a sequence of attribute assignments and file additions.
- File access: opening a file is a lookup in `fs`, and only a missing file (`Errno::ENOENT`) is modelled. Permission errors are not modelled, and neither is closing the handles. The temporary file for content is written into `fs` at `tempPath`, and creating it is not modelled.
- `Docverter::VERSION` comes from lib/docverter/version.rb, which is not part of this model. The version text is given when `Settings` is constructed.
- Job ids are integers. Ruby's `to_i` coercion of other kinds of value is not modelled.
- The class variables are process-wide and unsynchronised. The model passes one `Settings` object explicitly and assumes a single thread.
- A second `convert` on the same job adds the content file again. The model reproduces this and does not prevent it.
- The error message of a body that does not decode (`OkJson::Error`) is not modelled. `ParserError` carries the body instead.
