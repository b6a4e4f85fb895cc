/**
 `csv_analyzer/api/main.py`: the start-up checks and the three endpoints,
 as decisions from a request to a status and a JSON body. The HTTP
 framework itself is not modelled; an `HTTPException` becomes a response
 with its status and `detail`.
 */
module Api {
  import opened Base
  import opened InsightStore
  import opened DataProcessor
  import opened Analyzer
  import Config

  datatype Body =
    | InsightsBody(insights: string, cacheKey: string)  // {"insights": ..., "cache_key": ...}
    | ErrorBody(detail: string)                         // {"detail": ...}
    | StatusBody(status: string)                        // {"status": ...}

  datatype Response = Response(status: int, body: Body)

  /** A response and the store it leaves behind. */
  datatype Handled = Handled(response: Response, store: Store)

  /** Foreign code the upload path calls besides the language model. */
  datatype Foreign = Foreign(pd: Pandas, hs: Hashing, decodeUtf8: seq<byte> -> Result<string>)

  /** The running service: its settings and the store of its `DataAnalyzer`. */
  datatype Service = Service(settings: Config.Settings, store: Store)

  /** SQLite's message when the database file cannot be opened. */
  const OpenFailure := "unable to open database file"

  /**
   Importing the module: an invalid configuration raises `RuntimeError`
   before the app exists; then `DataAnalyzer()` builds a `CacheManager`,
   whose `init_db` raises if the file is unusable.
   */
  function Startup(env: Config.Env, disk: Store): (r: Result<Service>)
    ensures r.Ok? <==> Config.Validate(Config.FromEnv(env)).0 && disk.health != Unavailable
    ensures !Config.Validate(Config.FromEnv(env)).0 ==>
      r == Err("Configuration error: " + Config.Validate(Config.FromEnv(env)).1.value)
    ensures r.Ok? ==> r.value.store.health == Ready && r.value.settings == Config.FromEnv(env)
    ensures r.Ok? && disk.health == Ready ==> r.value.store == disk
  {
    var settings := Config.FromEnv(env);
    var (valid, error) := Config.Validate(settings);
    if !valid then Err("Configuration error: " + error.value)
    else
      match InitDb(disk)
      case None => Err(OpenFailure)
      case Some(store) => Ok(Service(settings, store))
  }

  predicate HasDot(s: string)
  {
    exists j :: 0 <= j < |s| && s[j] == '.'
  }

  /** The position of the last `.` in `s`, if any. */
  function LastDot(s: string): (i: Option<nat>)
    ensures i.None? <==> !HasDot(s)
    ensures i.Some? ==> i.value < |s| && s[i.value] == '.'
    ensures i.Some? ==> forall j :: i.value < j < |s| ==> s[j] != '.'
    decreases |s|
  {
    if |s| == 0 then None
    else if s[|s| - 1] == '.' then Some(|s| - 1)
    else
      var i := LastDot(s[..|s| - 1]);
      assert HasDot(s) ==> HasDot(s[..|s| - 1]) by {
        if HasDot(s) {
          var j :| 0 <= j < |s| && s[j] == '.';
          assert s[..|s| - 1][j] == '.';
        }
      }
      i
  }

  /**
   `filename.split('.')[-1].lower() if '.' in filename else ''`: the text
   after the last dot, lower-cased; empty when there is no dot.
   */
  function FileExtension(filename: string): (ext: string)
    ensures !HasDot(filename) ==> ext == ""
    ensures HasDot(filename) ==> |ext| < |filename| && filename[|filename| - |ext| - 1] == '.'
    ensures HasDot(filename) ==> !HasDot(filename[|filename| - |ext|..])
    ensures HasDot(filename) ==> ext == Lower(filename[|filename| - |ext|..])
  {
    match LastDot(filename)
    case None => ""
    case Some(i) =>
      var raw := filename[i + 1..];
      assert !HasDot(raw) by {
        forall j | 0 <= j < |raw|
          ensures raw[j] != '.'
        {
          assert raw[j] == filename[i + 1 + j];
        }
      }
      Lower(raw)
  }

  /** A few concrete names, as the upload handler sees them. */
  lemma FileExtensionExamples()
    ensures FileExtension("data.CSV") == "csv"
    ensures FileExtension("notes") == ""
    ensures FileExtension("a.") == ""
  {
    assert "data.CSV"[4] == '.';
    assert LastDot("data.CSV") == Some(4);
    assert !HasDot("notes");
    assert LastDot("a.") == Some(1);
  }

  /** Only `csv` uploads are decoded as UTF-8; everything else reaches the loader as bytes. */
  function ReadContent(ext: string, content: seq<byte>, fx: Foreign): (r: Result<FileData>)
    ensures ext == "csv" ==> (r.Ok? <==> fx.decodeUtf8(content).Ok?)
    ensures ext == "csv" && r.Ok? ==> r.value == Text(fx.decodeUtf8(content).value)
    ensures ext == "csv" && r.Err? ==> r.message == fx.decodeUtf8(content).message
    ensures ext != "csv" ==> r == Ok(Bytes(content))
  {
    if ext == "csv" then
      match fx.decodeUtf8(content)
      case Ok(text) => Ok(Text(text))
      case Err(m) => Err(m)
    else Ok(Bytes(content))
  }

  /** The data frame an upload produces, or the message of the exception on the way. */
  function UploadedTable(filename: string, content: seq<byte>, fx: Foreign): (r: Result<Table>)
    ensures !Supported(FileExtension(filename)) ==> r == Err(UnsupportedMessage(FileExtension(filename)))
  {
    var ext := FileExtension(filename);
    match ReadContent(ext, content, fx)
    case Err(m) => Err(m)
    case Ok(data) => LoadData(data, ext, fx.pd)
  }

  const ProcessingPrefix := "Error processing file: "

  /**
   `POST /insights/file`. Success answers 200 with the insights of
   `analyze_with_caching` and the key `generate_cache_key` gave. Every
   exception on the way, an unsupported extension included, answers 500
   with a detail that starts with `ProcessingPrefix`, and leaves the store
   as it was.
   */
  function UploadFile(s: Store, filename: string, content: seq<byte>, fx: Foreign, gen: Generator): (h: Handled)
    ensures h.response.status == 200 || h.response.status == 500
    ensures h.response.status == 200 <==>
      UploadedTable(filename, content, fx).Ok? && GetDatasetInfo(UploadedTable(filename, content, fx).value, fx.pd).Ok?
    ensures h.response.status == 200 ==>
      var t := UploadedTable(filename, content, fx).value;
      var key := GenerateCacheKey(t, fx.pd, fx.hs);
      var a := AnalyzeWithCaching(s, GetDatasetInfo(t, fx.pd).value, key, gen);
      h == Handled(Response(200, InsightsBody(a.insights, key)), a.store)
    ensures h.response.status == 200 ==> |h.response.body.cacheKey| == 32 && IsLowerHex(h.response.body.cacheKey)
    ensures h.response.status == 500 ==> h.store == s && h.response.body.ErrorBody?
    ensures h.response.status == 500 ==>
      |h.response.body.detail| >= |ProcessingPrefix| && h.response.body.detail[..|ProcessingPrefix|] == ProcessingPrefix
  {
    match UploadedTable(filename, content, fx)
    case Err(m) => Handled(Response(500, ErrorBody(ProcessingPrefix + m)), s)
    case Ok(t) =>
      match GetDatasetInfo(t, fx.pd)
      case Err(m) => Handled(Response(500, ErrorBody(ProcessingPrefix + m)), s)
      case Ok(info) =>
        var key := GenerateCacheKey(t, fx.pd, fx.hs);
        var a := AnalyzeWithCaching(s, info, key, gen);
        Handled(Response(200, InsightsBody(a.insights, key)), a.store)
  }

  /** An unsupported extension answers 500 naming the extension, not 400. */
  lemma UnsupportedUploadIs500(s: Store, filename: string, content: seq<byte>, fx: Foreign, gen: Generator)
    requires !Supported(FileExtension(filename))
    ensures UploadFile(s, filename, content, fx, gen)
      == Handled(Response(500, ErrorBody("Error processing file: Unsupported file format: " + FileExtension(filename))), s)
  {
    var ext := FileExtension(filename);
    assert UploadedTable(filename, content, fx) == Err(UnsupportedMessage(ext));
    assert UploadFile(s, filename, content, fx, gen) == Handled(Response(500, ErrorBody(ProcessingPrefix + UnsupportedMessage(ext))), s);
    assert ProcessingPrefix + UnsupportedMessage(ext) == "Error processing file: Unsupported file format: " + ext;
  }

  const RetrievalPrefix := "Error retrieving insights: "
  const NotFoundDetail := "Insights not found for the provided cache key"

  /**
   `GET /insights/{cache_key}` as written. The 404 raised for a missing or
   empty entry is inside the `try`, and `except Exception` catches it (an
   `HTTPException` is an `Exception`), so the client sees 500 with the 404
   exception's text, `"404: " + detail`, after the retrieval prefix.
   */
  function GetInsightsAsWritten(s: Store, key: string): (r: Response)
    ensures r.status == 200 <==> Cached(s, key)
    ensures r.status == 200 ==> r.body == InsightsBody(s.entries[key], key)
    ensures r.status != 200 ==> r == Response(500, ErrorBody(RetrievalPrefix + "404: " + NotFoundDetail))
    ensures r.status != 404
  {
    var loaded := Load(s, key);
    if loaded.Some? && loaded.value != "" then Response(200, InsightsBody(loaded.value, key))
    else Response(500, ErrorBody(RetrievalPrefix + "404: " + NotFoundDetail))
  }

  /** A lookup of a key nobody stored answers 500, although the handler meant 404. */
  lemma UnknownKeyAnswers500()
    ensures GetInsightsAsWritten(Store(map["abc123" := "Test insight"], Ready), "zzz999").status == 500
    ensures GetInsightsAsWritten(Store(map["abc123" := "Test insight"], Ready), "abc123")
         == Response(200, InsightsBody("Test insight", "abc123"))
  {
  }

  /** `GET /insights/{cache_key}` as intended: a missing or empty entry answers 404. */
  function GetInsights(s: Store, key: string): (r: Response)
    ensures r.status == 200 <==> Cached(s, key)
    ensures r.status == 404 <==> !Cached(s, key)
    ensures r.status == 200 ==> r.body == InsightsBody(s.entries[key], key)
    ensures r.status == 404 ==> r.body == ErrorBody(NotFoundDetail)
  {
    var loaded := Load(s, key);
    if loaded.Some? && loaded.value != "" then Response(200, InsightsBody(loaded.value, key))
    else Response(404, ErrorBody(NotFoundDetail))
  }

  /** The two agree on every hit and differ only in the status of a miss. */
  lemma CorrectionOnlyChangesMisses(s: Store, key: string)
    ensures Cached(s, key) ==> GetInsights(s, key) == GetInsightsAsWritten(s, key)
    ensures !Cached(s, key) ==> GetInsights(s, key).status == 404 && GetInsightsAsWritten(s, key).status == 500
  {
  }

  /**
   Upload then fetch: with a working store, the key an upload returns
   retrieves the same insights, provided they are not empty.
   */
  lemma UploadThenGet(s: Store, filename: string, content: seq<byte>, fx: Foreign, gen: Generator)
    requires s.health == Ready
    requires UploadFile(s, filename, content, fx, gen).response.status == 200
    requires UploadFile(s, filename, content, fx, gen).response.body.insights != ""
    ensures var h := UploadFile(s, filename, content, fx, gen);
            GetInsights(h.store, h.response.body.cacheKey)
              == Response(200, InsightsBody(h.response.body.insights, h.response.body.cacheKey))
  {
  }

  /** `GET /health`: always 200 with status `healthy`, whatever the store. */
  function HealthCheck(): (r: Response)
    ensures r.status == 200 && r.body == StatusBody("healthy")
  {
    Response(200, StatusBody("healthy"))
  }
}
