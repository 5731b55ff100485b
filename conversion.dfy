/** `Docverter::Conversion`: a conversion job built up attribute by attribute
  * (an OpenStruct in Ruby), checked, and posted to the service; and the two
  * class-level calls that poll a job's status and pick up its document. */
module ConversionJob {
  import opened Wrappers
  import opened Http
  import Numerals
  import opened Docverter

  const InvalidConversionMessage: string := "Cannot convert without an input_file or content"

  const ConvertPath: string := "/convert"
  const StatusPrefix: string := "/status/"
  const PickupPrefix: string := "/pickup/"

  /** Attribute names with a field of their own; every other name is an extra. */
  const FromField: string := "from"
  const ToField: string := "to"
  const ContentField: string := "content"
  const InputFilesField: string := "input_files"
  const OtherFilesField: string := "other_files"
  const CallbackUrlField: string := "callback_url"

  /** The attributes of a conversion: the formats, the inline content, the two file
    * lists in the order they were added, and every other attribute set on it
    * (stylesheet, callback_url, ...), nil included. */
  datatype Job = Job(
    from: Option<string>,
    to: Option<string>,
    content: Option<string>,
    inputFiles: seq<FileHandle>,
    otherFiles: seq<FileHandle>,
    extras: map<string, Option<string>>)

  /** `Conversion.new(from, to, content)`. */
  function Initial(from: Option<string>, to: Option<string>, content: Option<string>): Job {
    Job(from, to, content, [], [], map[])
  }

  function AsValue(o: Option<string>): Value {
    match o
    case None => Nil
    case Some(s) => Text(s)
  }

  /** The attributes a new conversion starts with. */
  predicate IsFixed(name: string) {
    name == FromField || name == ToField || name == ContentField || IsFileList(name)
  }

  predicate IsFileList(name: string) {
    name == InputFilesField || name == OtherFilesField
  }

  /** The entries of the attributes set beyond the five a conversion starts with. */
  function ExtrasTable(extras: map<string, Option<string>>): (t: map<string, Value>)
    ensures t.Keys == extras.Keys
    ensures forall k :: k in extras ==> t[k] == AsValue(extras[k])
  {
    map k | k in extras :: AsValue(extras[k])
  }

  function FixedTable(j: Job): map<string, Value> {
    map[FromField := AsValue(j.from), ToField := AsValue(j.to), ContentField := AsValue(j.content),
        InputFilesField := Files(j.inputFiles), OtherFilesField := Files(j.otherFiles)]
  }

  /** The OpenStruct table: every attribute of the job with its value, nil ones included. */
  function Table(j: Job): (t: map<string, Value>)
    ensures t.Keys == {FromField, ToField, ContentField, InputFilesField, OtherFilesField} + j.extras.Keys
    ensures t[FromField] == AsValue(j.from) && t[ToField] == AsValue(j.to) && t[ContentField] == AsValue(j.content)
    ensures t[InputFilesField] == Files(j.inputFiles) && t[OtherFilesField] == Files(j.otherFiles)
    ensures forall k :: k in j.extras && !IsFixed(k) ==> t[k] == AsValue(j.extras[k])
  {
    ExtrasTable(j.extras) + FixedTable(j)
  }

  /** What `to_h` returns: the table without its nil-valued attributes. */
  function Payload(j: Job): (p: map<string, Value>)
    ensures forall k :: k in p <==> k in Table(j) && Table(j)[k] != Nil
    ensures forall k :: k in p ==> p[k] == Table(j)[k]
  {
    map k | k in Table(j) && Table(j)[k] != Nil :: Table(j)[k]
  }

  /** `conversion.name = value`: the three named attributes have their own fields,
    * any other name is an extra. The file lists are only appended to. */
  function Assign(j: Job, name: string, value: Option<string>): Job
    requires !IsFileList(name)
  {
    if name == FromField then j.(from := value)
    else if name == ToField then j.(to := value)
    else if name == ContentField then j.(content := value)
    else j.(extras := j.extras[name := value])
  }

  /** Assigning an attribute sets that one entry of the table and leaves every other. */
  lemma AssignTable(j: Job, name: string, value: Option<string>)
    requires !IsFileList(name)
    ensures Table(Assign(j, name, value)) == Table(j)[name := AsValue(value)]
  {
    var e, f := ExtrasTable(j.extras), FixedTable(j);
    if IsFixed(name) {
      AssignFixed(j, name, value);
      UpdateRight(e, f, name, AsValue(value));
    } else {
      AssignExtra(j.extras, name, value);
      UpdateLeft(e, f, name, AsValue(value));
    }
  }

  lemma AssignFixed(j: Job, name: string, value: Option<string>)
    requires IsFixed(name) && !IsFileList(name)
    ensures Assign(j, name, value).extras == j.extras
    ensures FixedTable(Assign(j, name, value)) == FixedTable(j)[name := AsValue(value)]
  {
  }

  lemma AssignExtra(extras: map<string, Option<string>>, name: string, value: Option<string>)
    ensures ExtrasTable(extras[name := value]) == ExtrasTable(extras)[name := AsValue(value)]
  {
  }

  lemma UpdateRight<K, V>(a: map<K, V>, b: map<K, V>, k: K, v: V)
    ensures (a + b)[k := v] == a + b[k := v]
  {
  }

  lemma UpdateLeft<K, V>(a: map<K, V>, b: map<K, V>, k: K, v: V)
    requires k !in b
    ensures (a + b)[k := v] == a[k := v] + b
  {
  }

  /** `conversion.input_files = files` / `conversion.other_files = files`: the list is
    * replaced whole by the handles given. */
  function AssignFiles(j: Job, name: string, files: seq<FileHandle>): Job
    requires IsFileList(name)
  {
    if name == InputFilesField then j.(inputFiles := files) else j.(otherFiles := files)
  }

  /** Assigning a file list sets that one entry of the table and leaves every other. */
  lemma AssignFilesTable(j: Job, name: string, files: seq<FileHandle>)
    requires IsFileList(name)
    ensures Table(AssignFiles(j, name, files)) == Table(j)[name := Files(files)]
  {
    var e, f := ExtrasTable(j.extras), FixedTable(j);
    assert FixedTable(AssignFiles(j, name, files)) == f[name := Files(files)];
    UpdateRight(e, f, name, Files(files));
  }

  /** `add_input_file(path)` / `add_other_file(path)` on values: the file must exist. */
  function AddFile(j: Job, fs: map<string, string>, path: string, input: bool): Result<Job, Error> {
    if path !in fs then Failure(FileNotFound(path))
    else if input then Success(j.(inputFiles := j.inputFiles + [FileHandle(path, fs[path])]))
    else Success(j.(otherFiles := j.otherFiles + [FileHandle(path, fs[path])]))
  }

  /** One statement of the block given to `Conversion.run`. */
  datatype Step =
    | SetAttribute(name: string, value: Option<string>)
    | SetFileList(list: string, files: seq<FileHandle>)
    | AddInputFile(path: string)
    | AddOtherFile(path: string)

  /** Text values go to the other attributes, lists of open files to the two file lists. */
  predicate ValidStep(s: Step) {
    && (s.SetAttribute? ==> !IsFileList(s.name))
    && (s.SetFileList? ==> IsFileList(s.list))
  }

  function ApplyStep(j: Job, s: Step, fs: map<string, string>): Result<Job, Error>
    requires ValidStep(s)
  {
    match s
    case SetAttribute(name, value) => Success(Assign(j, name, value))
    case SetFileList(list, files) => Success(AssignFiles(j, list, files))
    case AddInputFile(path) => AddFile(j, fs, path, true)
    case AddOtherFile(path) => AddFile(j, fs, path, false)
  }

  /** The job after the block's statements, run in order; the first failing one stops it. */
  function Configure(j: Job, steps: seq<Step>, fs: map<string, string>): Result<Job, Error>
    requires forall i :: 0 <= i < |steps| ==> ValidStep(steps[i])
    decreases |steps|
  {
    if steps == [] then Success(j)
    else match ApplyStep(j, steps[0], fs)
      case Failure(e) => Failure(e)
      case Success(j') => Configure(j', steps[1..], fs)
  }

  /** A job can be submitted when it has an input file or inline content. */
  predicate CanConvert(j: Job) {
    |j.inputFiles| > 0 || j.content.Some?
  }

  /** The job as `convert` posts it: inline content becomes one more input file,
    * the temporary file at `tempPath` holding exactly the content. */
  function Prepared(j: Job, tempPath: string): Job {
    match j.content
    case None => j
    case Some(c) => j.(inputFiles := j.inputFiles + [FileHandle(tempPath, c)])
  }

  /** Asynchronous mode: a callback URL is set (to anything but nil). */
  predicate HasCallback(j: Job) {
    CallbackUrlField in j.extras && j.extras[CallbackUrlField].Some?
  }

  /** What `convert` returns: the converted document, or in asynchronous mode the
    * decoded status report. */
  datatype Reply = Document(body: string) | StatusReport(status: Doc)

  /** The response to a conversion request: decoded when a callback is set, raw otherwise. */
  function Interpret(body: string, async: bool, decode: string -> Option<Doc>): (r: Result<Reply, Error>)
    ensures r.Failure? ==> async && r == Failure(ParserError(body))
  {
    if !async then Success(Document(body))
    else match decode(body)
      case None => Failure(ParserError(body))
      case Some(d) => Success(StatusReport(d))
  }

  /** `convert` on the value of a job. */
  function ConvertResult(j: Job, settings: Settings, tempPath: string,
                         exec: HttpRequest -> Transport, decode: string -> Option<Doc>): Result<Reply, Error>
    reads settings
  {
    if !CanConvert(j) then Failure(InvalidConversionError(InvalidConversionMessage))
    else
      var p := Prepared(j, tempPath);
      match settings.Request(Post, ConvertPath, Payload(p), map[], exec, decode)
      case Failure(e) => Failure(e)
      case Success(body) => Interpret(body, HasCallback(p), decode)
  }

  function StatusPath(id: int): string {
    StatusPrefix + Numerals.IntToString(id)
  }

  function PickupPath(id: int): string {
    PickupPrefix + Numerals.IntToString(id)
  }

  /** `to_h` of `Conversion.new("markdown", "pdf")`: the formats and the two empty file
    * lists, and no entry for the nil content. */
  lemma FreshPayload()
    ensures Payload(Initial(Some("markdown"), Some("pdf"), None)) ==
      map[FromField := Text("markdown"), ToField := Text("pdf"), InputFilesField := Files([]), OtherFilesField := Files([])]
  {
    var j := Initial(Some("markdown"), Some("pdf"), None);
    var expected := map[FromField := Text("markdown"), ToField := Text("pdf"), InputFilesField := Files([]), OtherFilesField := Files([])];
    assert ContentField !in Payload(j);
    assert Payload(j).Keys == expected.Keys;
  }

  /** `convert` raises `InvalidConversionError` exactly when the job has neither an
    * input file nor content; no other failure is reported as that error. */
  lemma ConvertRejectsExactly(j: Job, settings: Settings, tempPath: string,
                              exec: HttpRequest -> Transport, decode: string -> Option<Doc>)
    ensures var r := ConvertResult(j, settings, tempPath, exec, decode);
      (r.Failure? && r.error.InvalidConversionError?) <==> !CanConvert(j)
  {
    if CanConvert(j) {
      var p := Prepared(j, tempPath);
      var q := settings.Request(Post, ConvertPath, Payload(p), map[], exec, decode);
      RequestNeverInvalid(settings, ConvertPath, Payload(p), exec, decode);
    }
  }

  /** A request fails only with an authentication, URI or transport error, or with an
    * exception it leaves to propagate. */
  lemma RequestNeverInvalid(settings: Settings, path: string, params: map<string, Value>,
                            exec: HttpRequest -> Transport, decode: string -> Option<Doc>)
    ensures var q := settings.Request(Post, path, params, map[], exec, decode);
      q.Failure? ==> (q.error.AuthenticationError? || q.error.InvalidUriError? || q.error.APIError? || q.error.APIConnectionError?
                      || q.error.Propagated?)
  {
  }

  /** Content becomes exactly one more input file, after the existing ones, holding
    * the content; every other entry of the posted attributes is as before. */
  lemma ContentAddsOneInput(j: Job, tempPath: string)
    requires j.content.Some?
    ensures var posted := Payload(Prepared(j, tempPath));
      posted[InputFilesField] == Files(j.inputFiles + [FileHandle(tempPath, j.content.value)])
    ensures var posted, before := Payload(Prepared(j, tempPath)), Payload(j);
      forall k :: k != InputFilesField ==> (k in posted <==> k in before) && (k in before ==> posted[k] == before[k])
  {
    var p, files := Prepared(j, tempPath), Files(j.inputFiles + [FileHandle(tempPath, j.content.value)]);
    assert FixedTable(p) == FixedTable(j)[InputFilesField := files];
    UpdateRight(ExtrasTable(j.extras), FixedTable(j), InputFilesField, files);
    assert Table(p) == Table(j)[InputFilesField := files];
  }

  /** Without content nothing is added: the job is posted as it stands. */
  lemma NoContentNoFile(j: Job, tempPath: string)
    requires j.content.None?
    ensures Payload(Prepared(j, tempPath)) == Payload(j)
  {
  }

  /** A job that can be converted is posted to "/convert" with its attributes (after the
    * content file is added), and the reply is the raw body, or the decoded status when
    * a callback URL is set; a transport failure is translated by `Dispatch`. */
  lemma ConvertReply(j: Job, settings: Settings, tempPath: string,
                     exec: HttpRequest -> Transport, decode: string -> Option<Doc>)
    requires CanConvert(j)
    requires AuthenticatedUrl(settings.apiKey, settings.baseUrl, ConvertPath).Success?
    ensures var url := AuthenticatedUrl(settings.apiKey, settings.baseUrl, ConvertPath).value;
      var t := exec(settings.Outgoing(Post, url, Payload(Prepared(j, tempPath)), map[]));
      var r := ConvertResult(j, settings, tempPath, exec, decode);
      && (t.Response? && !HasCallback(j) ==> r == Success(Document(t.body)))
      && (t.Response? && HasCallback(j) && decode(t.body).Some? ==> r == Success(StatusReport(decode(t.body).value)))
      && (t.Response? && HasCallback(j) && decode(t.body).None? ==> r.Failure? && r.error.ParserError?)
      && (t.Raised? ==> r == Failure(Dispatch(t.failure, settings.baseUrl, decode)))
  {
    assert HasCallback(Prepared(j, tempPath)) == HasCallback(j);
  }

  /** A missing key against the production URL fails before anything is sent. */
  lemma ConvertNeedsKey(j: Job, settings: Settings, tempPath: string,
                        exec: HttpRequest -> Transport, decode: string -> Option<Doc>)
    requires CanConvert(j)
    requires settings.apiKey.None? && settings.baseUrl == DefaultBaseUrl
    ensures ConvertResult(j, settings, tempPath, exec, decode) == Failure(AuthenticationError(NoKeyMessage))
  {
    ConvertUrlAcceptable();
  }

  /** The block of the library's test: formats set, no file, no content. */
  lemma FormatsOnlyRaises(settings: Settings, fs: map<string, string>, tempPath: string,
                          exec: HttpRequest -> Transport, decode: string -> Option<Doc>)
    ensures var block := [SetAttribute(FromField, Some("markdown")), SetAttribute(ToField, Some("pdf"))];
      && Configure(Initial(None, None, None), block, fs).Success?
      && ConvertResult(Configure(Initial(None, None, None), block, fs).value, settings, tempPath, exec, decode)
         == Failure(InvalidConversionError(InvalidConversionMessage))
  {
    var block := [SetAttribute(FromField, Some("markdown")), SetAttribute(ToField, Some("pdf"))];
    var j1 := Assign(Initial(None, None, None), FromField, Some("markdown"));
    var j2 := Assign(j1, ToField, Some("pdf"));
    assert block[1..] == [SetAttribute(ToField, Some("pdf"))];
    assert Configure(j1, block[1..], fs) == Configure(j2, [], fs);
  }

  /** The content example of the library's tests: with key "test_key", the job goes to
    * the authenticated "/convert" URL with one input file holding the content, and a
    * transport that echoes the content makes `convert` return it. */
  lemma ContentRequest(settings: Settings, tempPath: string,
                       exec: HttpRequest -> Transport, decode: string -> Option<Doc>)
    requires settings.apiKey == Some("test_key") && settings.baseUrl == DefaultBaseUrl
    ensures var j := Job(Some("markdown"), Some("pdf"), Some("Some Content"), [], [], map[]);
      var sent := settings.Outgoing(Post, "https://test_key:@api.docverter.com/v1/convert", Payload(Prepared(j, tempPath)), map[]);
      && sent.payload[InputFilesField] == Files([FileHandle(tempPath, "Some Content")])
      && sent.payload[OtherFilesField] == Files([])
      && (exec(sent) == Response("Some Content") ==>
            ConvertResult(j, settings, tempPath, exec, decode) == Success(Document("Some Content")))
  {
    var j := Job(Some("markdown"), Some("pdf"), Some("Some Content"), [], [], map[]);
    ContentJobPayload(j, tempPath);
    ConvertUrlWithTestKey();
    ConvertReply(j, settings, tempPath, exec, decode);
  }

  lemma ContentJobPayload(j: Job, tempPath: string)
    requires j == Job(Some("markdown"), Some("pdf"), Some("Some Content"), [], [], map[])
    ensures Payload(Prepared(j, tempPath))[InputFilesField] == Files([FileHandle(tempPath, "Some Content")])
    ensures Payload(Prepared(j, tempPath))[OtherFilesField] == Files([])
  {
    assert Prepared(j, tempPath).inputFiles == [FileHandle(tempPath, "Some Content")];
  }

  /** The job id can be read back from the status path: distinct ids poll distinct paths. */
  lemma StatusPathNamesId(id: int)
    ensures |StatusPrefix| <= |StatusPath(id)| && StatusPath(id)[..|StatusPrefix|] == StatusPrefix
    ensures Numerals.ParseInt(StatusPath(id)[|StatusPrefix|..]) == Some(id)
  {
    Numerals.ParseIntToString(id);
    assert StatusPath(id)[|StatusPrefix|..] == Numerals.IntToString(id);
  }

  /** The same for the pickup path. */
  lemma PickupPathNamesId(id: int)
    ensures |PickupPrefix| <= |PickupPath(id)| && PickupPath(id)[..|PickupPrefix|] == PickupPrefix
    ensures Numerals.ParseInt(PickupPath(id)[|PickupPrefix|..]) == Some(id)
  {
    Numerals.ParseIntToString(id);
    assert PickupPath(id)[|PickupPrefix|..] == Numerals.IntToString(id);
  }

  /** The paths of the library's examples. */
  lemma PathsForJobOne()
    ensures StatusPath(1) == "/status/1" && PickupPath(1) == "/pickup/1"
  {
    assert Numerals.IntToString(1) == "1";
  }

  /** A conversion job as the Ruby object holds it. */
  class Conversion {
    var from: Option<string>
    var to: Option<string>
    var content: Option<string>
    var inputFiles: seq<FileHandle>
    var otherFiles: seq<FileHandle>
    var extras: map<string, Option<string>>

    function State(): Job
      reads this
    {
      Job(from, to, content, inputFiles, otherFiles, extras)
    }

    /** `Conversion.new(from, to, content)`: the three values as given, both file lists empty. */
    constructor(from: Option<string>, to: Option<string>, content: Option<string>)
      ensures State() == Initial(from, to, content)
      ensures this.from == from && this.to == to && this.content == content
      ensures inputFiles == [] && otherFiles == [] && extras == map[]
    {
      this.from := from;
      this.to := to;
      this.content := content;
      inputFiles := [];
      otherFiles := [];
      extras := map[];
    }

    /** `conversion.name = value`. */
    method SetAttribute(name: string, value: Option<string>)
      requires !IsFileList(name)
      modifies this
      ensures State() == Assign(old(State()), name, value)
    {
      if name == FromField {
        from := value;
      } else if name == ToField {
        to := value;
      } else if name == ContentField {
        content := value;
      } else {
        extras := extras[name := value];
      }
    }

    /** `conversion.input_files = files` or `conversion.other_files = files`. */
    method SetFileList(list: string, files: seq<FileHandle>)
      requires IsFileList(list)
      modifies this
      ensures State() == AssignFiles(old(State()), list, files)
    {
      if list == InputFilesField {
        inputFiles := files;
      } else {
        otherFiles := files;
      }
    }

    /** `add_input_file(path)`: appends one handle on the file at `path` to the input
      * files; nothing else changes. A missing file fails and changes nothing. */
    method AddInputFile(fs: map<string, string>, path: string) returns (r: Outcome<Error>)
      modifies this
      ensures path in fs ==> r == Pass && inputFiles == old(inputFiles) + [FileHandle(path, fs[path])]
      ensures path !in fs ==> r == Fail(FileNotFound(path)) && inputFiles == old(inputFiles)
      ensures State() == old(State()).(inputFiles := inputFiles)
    {
      if path !in fs {
        return Fail(FileNotFound(path));
      }
      inputFiles := inputFiles + [FileHandle(path, fs[path])];
      r := Pass;
    }

    /** `add_other_file(path)`: appends one handle to the other files; the input files
      * and the attributes are unchanged. A missing file fails and changes nothing. */
    method AddOtherFile(fs: map<string, string>, path: string) returns (r: Outcome<Error>)
      modifies this
      ensures path in fs ==> r == Pass && otherFiles == old(otherFiles) + [FileHandle(path, fs[path])]
      ensures path !in fs ==> r == Fail(FileNotFound(path)) && otherFiles == old(otherFiles)
      ensures State() == old(State()).(otherFiles := otherFiles)
    {
      if path !in fs {
        return Fail(FileNotFound(path));
      }
      otherFiles := otherFiles + [FileHandle(path, fs[path])];
      r := Pass;
    }

    /** Runs one statement of the block given to `run`. */
    method Apply(s: Step, fs: map<string, string>) returns (r: Outcome<Error>)
      requires ValidStep(s)
      modifies this
      ensures ApplyStep(old(State()), s, fs).Success? ==> r == Pass && State() == ApplyStep(old(State()), s, fs).value
      ensures ApplyStep(old(State()), s, fs).Failure? ==> r == Fail(ApplyStep(old(State()), s, fs).error) && State() == old(State())
    {
      match s {
        case SetAttribute(name, value) =>
          SetAttribute(name, value);
          r := Pass;
        case SetFileList(list, files) =>
          SetFileList(list, files);
          r := Pass;
        case AddInputFile(path) =>
          r := AddInputFile(fs, path);
        case AddOtherFile(path) =>
          r := AddOtherFile(fs, path);
      }
    }

    /** `to_h`: walks the table and keeps the attributes whose value is not nil. */
    method ToH() returns (h: map<string, Value>)
      ensures h == Payload(State())
    {
      var table := Table(State());
      var pending := table.Keys;
      h := map[];
      while pending != {}
        invariant pending <= table.Keys
        invariant forall k :: k in h <==> k in table && k !in pending && table[k] != Nil
        invariant forall k :: k in h ==> h[k] == table[k]
        decreases pending
      {
        var field :| field in pending;
        if table[field] != Nil {
          h := h[field := table[field]];
        }
        pending := pending - {field};
      }
    }

    /** `convert`: refuses a job with neither input files nor content before sending
      * anything; otherwise adds the content as one more input file, posts the
      * attributes to "/convert", and returns the body raw, or decoded when a callback
      * URL is set. */
    method Convert(settings: Settings, fs: map<string, string>, tempPath: string,
                   exec: HttpRequest -> Transport, decode: string -> Option<Doc>) returns (r: Result<Reply, Error>)
      modifies this
      ensures r == ConvertResult(old(State()), settings, tempPath, exec, decode)
      ensures State() == if CanConvert(old(State())) then Prepared(old(State()), tempPath) else old(State())
    {
      if |inputFiles| == 0 && content == None {
        return Failure(InvalidConversionError(InvalidConversionMessage));
      }
      if content.Some? {
        var written := AddInputFile(fs[tempPath := content.value], tempPath);
      }
      var payload := ToH();
      var response := settings.Request(Post, ConvertPath, payload, map[], exec, decode);
      if response.Failure? {
        return Failure(response.error);
      }
      if CallbackUrlField in extras && extras[CallbackUrlField].Some? {
        var decoded := decode(response.value);
        if decoded.None? {
          return Failure(ParserError(response.value));
        }
        r := Success(StatusReport(decoded.value));
      } else {
        r := Success(Document(response.value));
      }
    }

    /** `Conversion.run(from, to, content) { |c| ... }`: a new job, the block's
      * statements in order, then `convert`. */
    static method Run(from: Option<string>, to: Option<string>, content: Option<string>, block: seq<Step>,
                      settings: Settings, fs: map<string, string>, tempPath: string,
                      exec: HttpRequest -> Transport, decode: string -> Option<Doc>) returns (r: Result<Reply, Error>)
      requires forall i :: 0 <= i < |block| ==> ValidStep(block[i])
      ensures r == match Configure(Initial(from, to, content), block, fs)
        case Failure(e) => Failure(e)
        case Success(j) => ConvertResult(j, settings, tempPath, exec, decode)
    {
      var c := new Conversion(from, to, content);
      var i := 0;
      while i < |block|
        invariant 0 <= i <= |block|
        invariant Configure(Initial(from, to, content), block, fs) == Configure(c.State(), block[i..], fs)
      {
        var outcome := c.Apply(block[i], fs);
        if outcome.Fail? {
          return Failure(outcome.error);
        }
        i := i + 1;
      }
      r := c.Convert(settings, fs, tempPath, exec, decode);
    }

    /** `Conversion.status(id)`: GET "/status/<id>", decoded. */
    static function Status(settings: Settings, id: int, exec: HttpRequest -> Transport, decode: string -> Option<Doc>): (r: Result<Doc, Error>)
      reads settings
      ensures var response := settings.Request(Get, StatusPath(id), map[], map[], exec, decode);
        && (response.Failure? ==> r == Failure(response.error))
        && (response.Success? && decode(response.value).Some? ==> r == Success(decode(response.value).value))
        && (response.Success? && decode(response.value).None? ==> r.Failure? && r.error.ParserError?)
    {
      match settings.Request(Get, StatusPath(id), map[], map[], exec, decode)
      case Failure(e) => Failure(e)
      case Success(body) =>
        match decode(body)
        case None => Failure(ParserError(body))
        case Some(d) => Success(d)
    }

    /** `Conversion.pickup(id)`: GET "/pickup/<id>", the body returned undecoded. */
    static function Pickup(settings: Settings, id: int, exec: HttpRequest -> Transport, decode: string -> Option<Doc>): (r: Result<string, Error>)
      reads settings
      ensures AuthenticatedUrl(settings.apiKey, settings.baseUrl, PickupPath(id)).Success? ==>
        var t := exec(settings.Outgoing(Get, AuthenticatedUrl(settings.apiKey, settings.baseUrl, PickupPath(id)).value, map[], map[]));
        t.Response? ==> r == Success(t.body)
    {
      settings.Request(Get, PickupPath(id), map[], map[], exec, decode)
    }
  }
}
