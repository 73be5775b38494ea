/**
 * The API client of client/lib/api-service.ts: one mutable configuration slot
 * and `uploadAndAnalyze`, whose HTTP exchange is an input (the host's answer to
 * the request it sends) rather than I/O.
 */
module Api {
  import opened Wrappers
  import opened Json

  /** The base URL when no environment override is given. */
  const ApiBaseUrl := "http://localhost:8501"
  const AnalyzeUrl := ApiBaseUrl + "/api/analyze"

  const NotConfiguredMessage := "OpenAI API key not configured"
  const DefaultErrorDetail := "Analysis failed"

  /** The connection settings; only the credential is read here. */
  datatype ApiConfig = ApiConfig(openaiApiKey: string)

  /** The analysis directive: its type tag and an optional free-text query. */
  datatype AnalysisType = AnalysisType(kind: string, customQuery: Option<string>)

  datatype FileBlob = FileBlob(name: string, content: seq<bv8>)

  datatype FormValue = FileValue(file: FileBlob) | TextValue(text: string)

  /** A request as it leaves the client: URL, HTTP method and multipart fields in append order. */
  datatype Request = Request(url: string, httpMethod: string, form: seq<(string, FormValue)>)

  /** What the host answers: `fetch` rejects, or a response with its `ok` flag and body text. */
  datatype HttpOutcome = NetworkFailure(reason: string) | Responded(ok: bool, body: string)

  /** The normalized analysis result. */
  datatype ContractData = ContractData(analysis: Json, keyPoints: Json, negotiations: Json)

  /** What `uploadAndAnalyze` throws. */
  datatype ApiError =
    | ConfigurationError(message: string)  // no credential; thrown before any request
    | NetworkError(reason: string)         // fetch rejected
    | AnalysisError(detail: Json)          // non-OK status: `new Error(detail)`
    | SyntaxError(body: string)            // success body is not JSON
    | TypeError                            // success body is JSON `null`: reading its fields throws

  /** `this.config?.openaiApiKey` is truthy. */
  predicate KeyConfigured(config: Option<ApiConfig>) {
    config.Some? && config.value.openaiApiKey != ""
  }

  /** `analysisType.customQuery` is truthy. */
  predicate HasCustomQuery(analysisType: AnalysisType) {
    analysisType.customQuery.Some? && analysisType.customQuery.value != ""
  }

  /**
   * The message of the error thrown for a non-OK response. It is never falsy:
   * a truthy `detail` of a parsed body wins; a parsed body whose `detail` is
   * missing or falsy gives `'Analysis failed'`; a body that does not parse (or
   * parses to `null`, whose `detail` cannot be read) gives the body text, or
   * `'Analysis failed'` when the body is empty, which no conforming parser accepts.
   */
  function ErrorDetail(json: Codec<Json>, body: string): (r: Json)
    ensures Truthy(r)
    ensures (&& json.parse(body).Some? && !json.parse(body).value.JNull?
             && Get(json.parse(body).value, "detail").Some?
             && Truthy(Get(json.parse(body).value, "detail").value))
            ==> r == Get(json.parse(body).value, "detail").value
    ensures (&& json.parse(body).Some? && !json.parse(body).value.JNull?
             && !(Get(json.parse(body).value, "detail").Some? && Truthy(Get(json.parse(body).value, "detail").value)))
            ==> r == JStr(DefaultErrorDetail)
    ensures (json.parse(body).None? || json.parse(body).value.JNull?)
            ==> r == if body != "" then JStr(body) else JStr(DefaultErrorDetail)
    ensures Lawful(json) && body == "" ==> r == JStr(DefaultErrorDetail)
  {
    var parsed := json.parse(body);
    if parsed.Some? && !parsed.value.JNull? then
      OrElse(Get(parsed.value, "detail"), JStr(DefaultErrorDetail))
    else if body != "" then  // JSON.parse or the read of `detail` threw
      JStr(body)
    else
      JStr(DefaultErrorDetail)
  }

  /**
   * The success mapping `x || ''` over `analysis`, `key_points` and
   * `negotiations`: a truthy field is kept, an absent or falsy one becomes `''`.
   * A `null` body throws instead.
   */
  function MapResult(data: Json): (r: Result<ContractData, ApiError>)
    ensures r.Failure? <==> data.JNull?
    ensures r.Failure? ==> r.error == TypeError
    ensures r.Success? ==>
              && Kept(data, "analysis", r.value.analysis)
              && Kept(data, "key_points", r.value.keyPoints)
              && Kept(data, "negotiations", r.value.negotiations)
  {
    if data.JNull? then
      Failure(TypeError)
    else
      Success(ContractData(
        OrElse(Get(data, "analysis"), JStr("")),
        OrElse(Get(data, "key_points"), JStr("")),
        OrElse(Get(data, "negotiations"), JStr(""))))
  }

  /** `field` of the result is the truthy value `name` had in `data`, or `''` when it had none. */
  ghost predicate Kept(data: Json, name: string, field: Json)
    requires !data.JNull?
  {
    && (field == JStr("") || Truthy(field))
    && (Get(data, name).Some? && Truthy(Get(data, name).value) ==> field == Get(data, name).value)
    && (!(Get(data, name).Some? && Truthy(Get(data, name).value)) ==> field == JStr(""))
  }

  /** The outcome for an OK response: the body must parse; unlike the error path there is no fallback. */
  function SuccessResult(json: Codec<Json>, body: string): (r: Result<ContractData, ApiError>)
    ensures json.parse(body).None? ==> r == Failure(SyntaxError(body))
    ensures json.parse(body).Some? ==> r == MapResult(json.parse(body).value)
  {
    match json.parse(body)
    case None => Failure(SyntaxError(body))
    case Some(data) => MapResult(data)
  }

  class ApiService {
    var config: Option<ApiConfig>

    constructor ()
      ensures config == None
    {
      config := None;
    }

    /** `setConfig`: overwrites the single slot, so the last call wins. */
    method SetConfig(config: ApiConfig)
      modifies this`config
      ensures this.config == Some(config)
    {
      this.config := Some(config);
    }

    /**
     * `uploadAndAnalyze`. Without a credential it fails before any request is
     * built or sent. Otherwise it sends one POST to the analyze endpoint whose
     * fields are `file`, `openai_api_key`, `analysis_type` and, exactly when the
     * custom query is non-empty (whatever the type tag), `custom_query`; the
     * result is then decided by the host's answer.
     */
    method UploadAndAnalyze(json: Codec<Json>, file: FileBlob, analysisType: AnalysisType, exchange: HttpOutcome)
      returns (request: Option<Request>, result: Result<ContractData, ApiError>)
      ensures request.Some? <==> KeyConfigured(config)
      ensures !KeyConfigured(config) ==> result == Failure(ConfigurationError(NotConfiguredMessage))
      ensures request.Some? ==>
                && request.value.url == AnalyzeUrl
                && request.value.httpMethod == "POST"
                && |request.value.form| == (if HasCustomQuery(analysisType) then 4 else 3)
                && request.value.form[0] == ("file", FileValue(file))
                && request.value.form[1] == ("openai_api_key", TextValue(config.value.openaiApiKey))
                && request.value.form[2] == ("analysis_type", TextValue(analysisType.kind))
                && (HasCustomQuery(analysisType) ==>
                      request.value.form[3] == ("custom_query", TextValue(analysisType.customQuery.value)))
      ensures request.Some? && exchange.NetworkFailure? ==> result == Failure(NetworkError(exchange.reason))
      ensures request.Some? && exchange.Responded? && !exchange.ok ==>
                result == Failure(AnalysisError(ErrorDetail(json, exchange.body)))
      ensures request.Some? && exchange.Responded? && exchange.ok ==>
                result == SuccessResult(json, exchange.body)
    {
      if !KeyConfigured(config) {
        return None, Failure(ConfigurationError(NotConfiguredMessage));
      }

      var form: seq<(string, FormValue)> := [];
      form := form + [("file", FileValue(file))];
      form := form + [("openai_api_key", TextValue(config.value.openaiApiKey))];
      form := form + [("analysis_type", TextValue(analysisType.kind))];
      if HasCustomQuery(analysisType) {
        form := form + [("custom_query", TextValue(analysisType.customQuery.value))];
      }

      request := Some(Request(AnalyzeUrl, "POST", form));
      match exchange {
        case NetworkFailure(reason) =>
          result := Failure(NetworkError(reason));
        case Responded(ok, body) =>
          if !ok {
            result := Failure(AnalysisError(ErrorDetail(json, body)));
          } else {
            result := SuccessResult(json, body);
          }
      }
    }
  }

  /**
   * The documented custom-query run: key `sk-test`, type `Custom Query` with
   * its query, and a success body lacking `negotiations`.
   */
  method CustomQueryScenario(json: Codec<Json>, file: FileBlob)
    returns (request: Option<Request>, result: Result<ContractData, ApiError>)
    requires json.parse("{\"analysis\":\"ok\",\"key_points\":\"kp\"}")
             == Some(JObj(map["analysis" := JStr("ok"), "key_points" := JStr("kp")]))
    ensures request.Some? && |request.value.form| == 4
    ensures request.value.form[2] == ("analysis_type", TextValue("Custom Query"))
    ensures request.value.form[3] == ("custom_query", TextValue("flag indemnity clauses"))
    ensures result == Success(ContractData(JStr("ok"), JStr("kp"), JStr("")))
  {
    var service := new ApiService();
    service.SetConfig(ApiConfig("sk-test"));
    request, result := service.UploadAndAnalyze(
      json, file,
      AnalysisType("Custom Query", Some("flag indemnity clauses")),
      Responded(true, "{\"analysis\":\"ok\",\"key_points\":\"kp\"}"));
  }

  /** The documented failures: a status-500 body with `detail`, and one that is not JSON. */
  method ErrorScenarios(json: Codec<Json>, file: FileBlob)
    returns (structured: Result<ContractData, ApiError>, raw: Result<ContractData, ApiError>)
    requires json.parse("{\"detail\":\"rate limited\"}") == Some(JObj(map["detail" := JStr("rate limited")]))
    requires json.parse("oops") == None
    ensures structured == Failure(AnalysisError(JStr("rate limited")))
    ensures raw == Failure(AnalysisError(JStr("oops")))
  {
    var service := new ApiService();
    service.SetConfig(ApiConfig("sk-test"));
    var kind := AnalysisType("Contract Review", None);
    var _, r1 := service.UploadAndAnalyze(json, file, kind, Responded(false, "{\"detail\":\"rate limited\"}"));
    var _, r2 := service.UploadAndAnalyze(json, file, kind, Responded(false, "oops"));
    structured, raw := r1, r2;
  }
}
