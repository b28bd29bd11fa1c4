/**
 * The request handling in front of the story generator: the prefix of the `/generate` handler up to
 * the point where it constructs the generator (the credential check, the defaulted reads of the
 * JSON body, the clamp of `total_parts`, the required-field check), and the `/download` handler.
 * Each is a decision from the request to the reply the handler returns.
 */
module App {
  import opened Wrappers
  import Numerals
  import Config

  /** A decoded JSON body. Numbers are integers here. */
  datatype Json =
    | Null
    | Bool(b: bool)
    | Number(n: int)
    | Str(s: string)
    | Array(items: seq<Json>)
    | Object(fields: map<string, Json>)

  /** Python's truth value of the decoded value. */
  predicate Truthy(j: Json) {
    match j
    case Null => false
    case Bool(b) => b
    case Number(n) => n != 0
    case Str(s) => s != ""
    case Array(items) => items != []
    case Object(fields) => fields != map[]
  }

  /** The exceptions the handlers turn into a 500 reply through their `except Exception`. */
  datatype Raised =
    | BodyUnreadable   // `request.json` raises: the body is not JSON
    | NoGet            // `.get` on a body that is not an object
    | IntValueError    // `int(s)` on text that is not a base-10 integer
    | IntTypeError     // `int(x)` on `None`, a list or an object
    | NotText          // `io.StringIO(story)` on a story that is not a string

  /** The `'error'` entry of a reply: a message of the handler's own, or `str(e)` of what was raised. */
  datatype Message = Said(text: string) | Exception(raised: Raised)

  /** `int(x)` */
  function PyInt(j: Json): (r: Result<int, Raised>)
    ensures r.Success? <==> j.Bool? || j.Number? || (j.Str? && Numerals.ParseInt(j.s).Some?)
    ensures j.Number? ==> r == Success(j.n)
    ensures j.Bool? ==> r == Success(if j.b then 1 else 0)
    ensures j.Str? && r.Success? ==> Numerals.ParseInt(j.s) == Some(r.value)
    ensures r.Failure? ==> r.error == (if j.Str? then IntValueError else IntTypeError)
  {
    match j
    case Bool(b) => Success(if b then 1 else 0)
    case Number(n) => Success(n)
    case Str(s) =>
      (match Numerals.ParseInt(s)
       case Some(n) => Success(n)
       case None => Failure(IntValueError))
    case _ => Failure(IntTypeError)
  }

  /** `d.get(key, default)` */
  function Get(fields: map<string, Json>, key: string, default: Json): Json {
    if key in fields then fields[key] else default
  }

  /** `get_api_key()`: the environment's key, else the session's; "" stands for a missing key. */
  function ApiKey(env: string, session: string): (r: string)
    ensures r == "" <==> env == "" && session == ""
    ensures env != "" ==> r == env
    ensures env == "" ==> r == session
  {
    if env != "" then env else session
  }

  const NoKeyMessage: string := "API key not found. Please set up your API key first."
  const MissingMessage: string := "Missing required fields"
  const NoStoryMessage: string := "No story content provided"

  /** The arguments `generate_story` passes on to the generator, as they were read from the body. */
  datatype Generate = Generate(
    apiKey: string,
    topic: Json,
    model: Json,
    expertise: Json,
    tone: Json,
    context: Json,
    urls: Json,
    total: int,
    promptId: Json,
    style: Json)

  datatype GenerateReply = GenerateError(status: int, message: Message) | Proceed(args: Generate)

  /** The limit `min(int(total_parts), 2)`: at most two parts, and no lower bound. */
  function Clamp(n: int): (r: int)
    ensures r <= 2 && r <= n
    ensures r == n || r == 2
  {
    if n < 2 then n else 2
  }

  /**
   * `generate_story` up to the construction of the generator: `None` for the `body` is a request
   * whose body `request.json` cannot read.
   */
  function DecideGenerate(env: string, session: string, body: Option<Json>): (r: GenerateReply)
    ensures ApiKey(env, session) == "" ==> r == GenerateError(401, Said(NoKeyMessage))
    ensures r.GenerateError? ==> r.status == 400 || r.status == 401 || r.status == 500
    ensures r.Proceed? ==> r.args.apiKey == ApiKey(env, session) != "" && r.args.total <= 2
  {
    var key := ApiKey(env, session);
    if key == "" then GenerateError(401, Said(NoKeyMessage))
    else if body.None? then GenerateError(500, Exception(BodyUnreadable))
    else if !body.value.Object? then GenerateError(500, Exception(NoGet))
    else
      var data := body.value.fields;
      match PyInt(Get(data, "total_parts", Number(2)))
      case Failure(e) => GenerateError(500, Exception(e))
      case Success(n) =>
        var topic := Get(data, "topic", Null);
        var expertise := Get(data, "expertise", Null);
        var tone := Get(data, "tone", Null);
        if !(Truthy(topic) && Truthy(expertise) && Truthy(tone)) then GenerateError(400, Said(MissingMessage))
        else
          Proceed(Generate(
            key,
            topic,
            Get(data, "model", Str("gemini-2.0-flash-exp")),
            expertise,
            tone,
            Get(data, "context", Str("")),
            Get(data, "youtube_urls", Array([])),
            Clamp(n),
            Get(data, "prompt_id", Str("default")),
            Get(data, "writing_style", Str("balanced"))))
  }

  /** Without a key the reply is 401, whatever the body: the body is not read first. */
  lemma NoKeyFirst(env: string, session: string, body: Option<Json>)
    requires env == "" && session == ""
    ensures DecideGenerate(env, session, body) == GenerateError(401, Said(NoKeyMessage))
  {
  }

  /** With a key, a body that is not a JSON object is a 500. */
  lemma BodyNotObject(env: string, session: string, body: Option<Json>)
    requires ApiKey(env, session) != ""
    requires body.None? || !body.value.Object?
    ensures var r := DecideGenerate(env, session, body);
      r.GenerateError? && r.status == 500 && r.message.Exception?
  {
  }

  /**
   * `total_parts` is converted before the required fields are checked: a value `int` refuses is a
   * 500 even when every required field is missing.
   */
  lemma ConversionFirst(env: string, session: string, fields: map<string, Json>)
    requires ApiKey(env, session) != ""
    requires PyInt(Get(fields, "total_parts", Number(2))).Failure?
    ensures DecideGenerate(env, session, Some(Object(fields))) ==
      GenerateError(500, Exception(PyInt(Get(fields, "total_parts", Number(2))).error))
  {
  }

  /** The example: `{"total_parts": "two"}` with no topic is a 500, not a 400. */
  lemma ConversionFirstExample(key: string)
    requires key != ""
    ensures DecideGenerate(key, "", Some(Object(map["total_parts" := Str("two")]))) ==
      GenerateError(500, Exception(IntValueError))
  {
    var fields := map["total_parts" := Str("two")];
    assert Get(fields, "total_parts", Number(2)) == Str("two");
    Numerals.NotAnInteger("two");
  }

  /**
   * A `total_parts` of more than 4300 digits is refused by `int` (the default digit limit), so the
   * reply is a 500 even with every required field present.
   */
  lemma CountTooLong(key: string, fields: map<string, Json>, d: string)
    requires key != "" && "total_parts" in fields && fields["total_parts"] == Str(d)
    requires |d| > Numerals.MaxStrDigits && forall i :: 0 <= i < |d| ==> Numerals.IsDigit(d[i])
    ensures DecideGenerate(key, "", Some(Object(fields))) == GenerateError(500, Exception(IntValueError))
  {
    Numerals.DigitLimit(d);
  }

  /** Once the body is read, the reply is 400 exactly when topic, expertise or tone is missing or falsy. */
  lemma RequiredFields(env: string, session: string, fields: map<string, Json>)
    requires ApiKey(env, session) != ""
    requires PyInt(Get(fields, "total_parts", Number(2))).Success?
    ensures DecideGenerate(env, session, Some(Object(fields))) == GenerateError(400, Said(MissingMessage)) <==>
      !Truthy(Get(fields, "topic", Null)) || !Truthy(Get(fields, "expertise", Null)) || !Truthy(Get(fields, "tone", Null))
  {
  }

  /** The request proceeds exactly when there is a key, an object body, a convertible count and all three fields. */
  lemma ProceedIff(env: string, session: string, body: Option<Json>)
    ensures DecideGenerate(env, session, body).Proceed? <==>
      && ApiKey(env, session) != ""
      && body.Some? && body.value.Object?
      && PyInt(Get(body.value.fields, "total_parts", Number(2))).Success?
      && Truthy(Get(body.value.fields, "topic", Null))
      && Truthy(Get(body.value.fields, "expertise", Null))
      && Truthy(Get(body.value.fields, "tone", Null))
  {
  }

  /**
   * What a request that proceeds passes on: the key, the fields it sent, the defaults for the fields
   * it left out, and the part count `min(int(total_parts), 2)`.
   */
  lemma ProceedArguments(env: string, session: string, fields: map<string, Json>)
    requires DecideGenerate(env, session, Some(Object(fields))).Proceed?
    ensures var a := DecideGenerate(env, session, Some(Object(fields))).args;
      && a.apiKey == ApiKey(env, session) != ""
      && a.topic == fields["topic"] && a.expertise == fields["expertise"] && a.tone == fields["tone"]
      && a.model == (if "model" in fields then fields["model"] else Str(Config.DefaultModel))
      && a.context == (if "context" in fields then fields["context"] else Str(""))
      && a.urls == (if "youtube_urls" in fields then fields["youtube_urls"] else Array([]))
      && a.promptId == (if "prompt_id" in fields then fields["prompt_id"] else Str("default"))
      && a.style == (if "writing_style" in fields then fields["writing_style"] else Str("balanced"))
      && a.total == Clamp(PyInt(Get(fields, "total_parts", Number(2))).value)
      && ("total_parts" !in fields ==> a.total == 2)
  {
  }

  /** The default model of the handler is the configured default, and it is an available model. */
  lemma DefaultModelAvailable()
    ensures "gemini-2.0-flash-exp" == Config.DefaultModel
    ensures Config.DefaultModel in Config.AvailableModels
  {
  }

  /** There is no lower bound: `total_parts` 0 or below proceeds with that count, which makes no parts. */
  lemma NoLowerBound(key: string, n: int)
    requires key != "" && n <= 0
    ensures var fields := map["topic" := Str("t"), "expertise" := Str("poet"), "tone" := Str("funny"), "total_parts" := Number(n)];
      var r := DecideGenerate(key, "", Some(Object(fields)));
      r.Proceed? && r.args.total == n
  {
    var fields := map["topic" := Str("t"), "expertise" := Str("poet"), "tone" := Str("funny"), "total_parts" := Number(n)];
    assert Get(fields, "total_parts", Number(2)) == Number(n);
    assert Get(fields, "topic", Null) == Str("t");
    assert Get(fields, "expertise", Null) == Str("poet");
    assert Get(fields, "tone", Null) == Str("funny");
  }

  datatype DownloadReply =
    | DownloadError(status: int, message: Message)
    | Attachment(content: string, mimetype: string, name: string)

  /** `download_story`: the story sent back as a plain-text attachment. */
  function DecideDownload(body: Option<Json>): (r: DownloadReply)
    ensures r.DownloadError? ==> r.status == 400 || r.status == 500
    ensures r.Attachment? ==> body.Some? && body.value.Object? && Get(body.value.fields, "story", Str("")) == Str(r.content)
  {
    if body.None? then DownloadError(500, Exception(BodyUnreadable))
    else if !body.value.Object? then DownloadError(500, Exception(NoGet))
    else
      var story := Get(body.value.fields, "story", Str(""));
      if !Truthy(story) then DownloadError(400, Said(NoStoryMessage))
      else if !story.Str? then DownloadError(500, Exception(NotText))
      else Attachment(story.s, "text/plain", "generated_story.txt")
  }

  /**
   * A download succeeds exactly when the body is an object whose story is non-empty text, and the
   * attachment holds that text; a missing or falsy story is a 400.
   */
  lemma DownloadIff(body: Option<Json>)
    ensures var r := DecideDownload(body);
      && (r.Attachment? <==>
            body.Some? && body.value.Object? && "story" in body.value.fields &&
            body.value.fields["story"].Str? && body.value.fields["story"].s != "")
      && (r.Attachment? ==>
            r.content == body.value.fields["story"].s && r.name == "generated_story.txt" &&
            r.mimetype == "text/plain")
      && (body.Some? && body.value.Object? ==>
            (r == DownloadError(400, Said(NoStoryMessage)) <==> !Truthy(Get(body.value.fields, "story", Str("")))))
  {
  }
}
