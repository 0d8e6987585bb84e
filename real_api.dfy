/**
 * The client of the analysis backend (src/app/api/realApi.ts): the adapter from the
 * backend's JSON payload to the UI's `AnalysisResponse`, and the request/response
 * handling of `analyzeAudio`. The network exchange itself is an input: `Fetched`
 * says what `fetch` and `response.json()` produced.
 */
module RealApi {
  import opened Wrappers
  import opened MockApi

  /** A file picked by the user (only what the model needs of a browser `File`). */
  datatype File = File(name: string, mimeType: string, size: nat)

  /** One part of the multipart request body. */
  datatype Part = FilePart(field: string, file: File) | TextPart(field: string, text: string)

  /** A property read from parsed JSON: absent, `null`, or a value. */
  datatype JsField<+T> = Undefined | Null | Defined(value: T)

  /** What `Number(x)` yields for the property `score`: a finite number or NaN. */
  datatype Numeric = Finite(value: real) | NaN

  /** The backend's `analysis` value, read through its four properties; a non-null primitive
      has none of them, so all four read as undefined. */
  datatype BackendAnalysis = BackendAnalysis(
    score: JsField<Numeric>,
    correctAspects: JsField<seq<string>>,
    mistakes: JsField<seq<string>>,
    recommendations: JsField<seq<string>>)

  /** A parsed JSON body other than `null`, read through the properties this client uses;
      a property the value lacks (an array, a string, an object without it) is `Undefined`. */
  datatype Payload = Payload(
    error: JsField<string>,
    transcribedText: JsField<string>,
    analysis: JsField<BackendAnalysis>)

  /** What `response.json()` gives: a rejection with the parser's message, `null`, or a value. */
  datatype Body = NotJson(syntaxError: string) | JsonNull | Json(payload: Payload)

  /** What `fetch` gives: a rejection (no response at all), or a response. */
  datatype Fetched =
    | NetworkError(message: string)
    | Response(ok: bool, statusText: string, body: Body)

  /** A value thrown out of `analyzeAudio`: an `Error` with its message, or anything else. */
  datatype Thrown = ErrorInstance(message: string) | NonError

  /** The message used when an error body carries no usable `error` field. */
  const ServerErrorFallback := "Ошибка сервера"

  /** The `TypeError` message of reading `property` from `null` or `undefined` (V8 wording). */
  function ReadPropertyError(property: string, ofNull: bool): Thrown
  {
    ErrorInstance("Cannot read properties of " + (if ofNull then "null" else "undefined")
                  + " (reading '" + property + "')")
  }

  /** `f ?? fallback` */
  function Coalesce<T>(f: JsField<T>, fallback: T): T
  {
    if f.Defined? then f.value else fallback
  }

  /** `Number(f) || 0`: NaN and zero are falsy, `Number(undefined)` is NaN, `Number(null)` is 0. */
  function NumberOrZero(f: JsField<Numeric>): real
  {
    match f
    case Defined(Finite(x)) => x
    case _ => 0.0
  }

  /** `mapBackendToFrontend`. `analysis` must be neither missing nor `null`: its `score` is read
      without a guard. */
  function MapBackendToFrontend(data: Payload): (r: AnalysisResponse)
    requires data.analysis.Defined?
    ensures data.transcribedText.Defined? ==> r.recognizedText == data.transcribedText.value
    ensures !data.transcribedText.Defined? ==> r.recognizedText == ""
    ensures r.comprehensionScore.Number?
    ensures data.analysis.value.score.Defined? && data.analysis.value.score.value.Finite? ==>
              r.comprehensionScore.value == data.analysis.value.score.value.value
    ensures !(data.analysis.value.score.Defined? && data.analysis.value.score.value.Finite?) ==>
              r.comprehensionScore.value == 0.0
    ensures data.analysis.value.correctAspects.Defined? ==>
              r.correctAspects == data.analysis.value.correctAspects.value
    ensures !data.analysis.value.correctAspects.Defined? ==> r.correctAspects == []
    ensures data.analysis.value.mistakes.Defined? ==> r.errors == data.analysis.value.mistakes.value
    ensures !data.analysis.value.mistakes.Defined? ==> r.errors == []
    ensures data.analysis.value.recommendations.Defined? ==>
              r.recommendations == data.analysis.value.recommendations.value
    ensures !data.analysis.value.recommendations.Defined? ==> r.recommendations == []
  {
    var analysis := data.analysis.value;
    AnalysisResponse(
      Coalesce(data.transcribedText, ""),
      Number(NumberOrZero(analysis.score)),
      Coalesce(analysis.correctAspects, []),
      Coalesce(analysis.mistakes, []),
      Coalesce(analysis.recommendations, []))
  }

  /** A backend payload carrying a given response, field for field. */
  function ToPayload(r: AnalysisResponse): Payload
  {
    Payload(
      Undefined,
      Defined(r.recognizedText),
      Defined(BackendAnalysis(
        Defined(Finite(if r.comprehensionScore.Number? then r.comprehensionScore.value else 0.0)),
        Defined(r.correctAspects), Defined(r.errors), Defined(r.recommendations))))
  }

  /** The adapter gives back, field for field, any response with a numeric score that the
      backend sends in its own shape. */
  lemma MapRecoversResponse(r: AnalysisResponse)
    requires r.comprehensionScore.Number?
    ensures MapBackendToFrontend(ToPayload(r)) == r
  {
  }

  /** With every optional field absent, the adapter still yields a complete response. */
  lemma MapDefaultsEverything(error: JsField<string>)
    ensures MapBackendToFrontend(Payload(error, Undefined,
              Defined(BackendAnalysis(Undefined, Undefined, Undefined, Undefined))))
            == AnalysisResponse("", Number(0.0), [], [], [])
  {
  }

  /** The message carried by the error thrown for a non-OK response. */
  function ErrorMessage(statusText: string, body: Body): (m: string)
    ensures body.Json? && body.payload.error.Defined? && body.payload.error.value != "" ==>
              m == body.payload.error.value
    ensures body.Json? && !(body.payload.error.Defined? && body.payload.error.value != "") ==>
              m == ServerErrorFallback
    ensures !body.Json? ==> m == statusText
  {
    match body
    case Json(errorData) =>
      // `errorData.error || errorMessage`: only a non-empty string is truthy
      if errorData.error.Defined? && errorData.error.value != "" then errorData.error.value
      else ServerErrorFallback
    case JsonNull =>
      // reading `.error` of null throws inside the try; the catch uses the status text
      statusText
    case NotJson(_) => statusText
  }

  /** The OK path: parse the body as the backend's payload and adapt it. */
  function ReadPayload(body: Body): (r: Result<AnalysisResponse, Thrown>)
    ensures r.Success? <==> body.Json? && body.payload.analysis.Defined?
    ensures r.Success? ==> r.value == MapBackendToFrontend(body.payload)
    ensures r.Failure? ==> r.error.ErrorInstance?
  {
    match body
    case NotJson(syntaxError) => Failure(ErrorInstance(syntaxError))
    case JsonNull => Failure(ReadPropertyError("transcribed_text", true))
    case Json(data) =>
      match data.analysis
      case Undefined => Failure(ReadPropertyError("score", false))
      case Null => Failure(ReadPropertyError("score", true))
      case Defined(_) => Success(MapBackendToFrontend(data))
  }

  /** What `analyzeAudio` settles with, given what the network produced. */
  function Outcome(fetched: Fetched): (r: Result<AnalysisResponse, Thrown>)
    ensures fetched.NetworkError? ==> r == Failure(ErrorInstance(fetched.message))
    ensures fetched.Response? && !fetched.ok ==>
              r == Failure(ErrorInstance(ErrorMessage(fetched.statusText, fetched.body)))
    ensures r.Success? <==>
              && fetched.Response? && fetched.ok
              && fetched.body.Json? && fetched.body.payload.analysis.Defined?
    ensures r.Success? ==> r.value == MapBackendToFrontend(fetched.body.payload)
  {
    match fetched
    case NetworkError(message) => Failure(ErrorInstance(message))
    case Response(ok, statusText, body) =>
      if ok then ReadPayload(body) else Failure(ErrorInstance(ErrorMessage(statusText, body)))
  }

  /** A non-OK response never yields a result: it always ends in a thrown `Error` whose message
      is the body's truthy `error`, else the fixed fallback, else (body not an object) the
      status text. */
  lemma NonOkAlwaysThrows(statusText: string, body: Body)
    ensures Outcome(Response(false, statusText, body)) == Failure(ErrorInstance(ErrorMessage(statusText, body)))
    ensures body.Json? && body.payload.error == Defined("transcription failed") ==>
              Outcome(Response(false, statusText, body)) == Failure(ErrorInstance("transcription failed"))
    ensures body.NotJson? ==> Outcome(Response(false, statusText, body)) == Failure(ErrorInstance(statusText))
  {
  }

  /** An OK response whose body carries an `analysis` value, neither missing nor `null`, yields
      exactly the adapted payload. */
  lemma OkReturnsMapped(statusText: string, data: Payload)
    requires data.analysis.Defined?
    ensures Outcome(Response(true, statusText, Json(data))) == Success(MapBackendToFrontend(data))
  {
  }

  /** An OK response whose payload has a missing or `null` `analysis` is not defaulted: the
      unguarded `data.analysis.score` read throws a `TypeError`. */
  lemma OkWithoutAnalysisThrows(statusText: string, error: JsField<string>,
                                transcribedText: JsField<string>)
    ensures Outcome(Response(true, statusText, Json(Payload(error, transcribedText, Undefined)))).Failure?
    ensures Outcome(Response(true, statusText, Json(Payload(error, transcribedText, Null)))).Failure?
    ensures Outcome(Response(true, statusText, Json(Payload(error, transcribedText, Undefined))))
            == Failure(ReadPropertyError("score", false))
    ensures Outcome(Response(true, statusText, Json(Payload(error, transcribedText, Null))))
            == Failure(ReadPropertyError("score", true))
  {
  }

  /** Everything `analyzeAudio` throws is an `Error` instance. */
  lemma OutcomeThrowsOnlyErrors(fetched: Fetched)
    ensures Outcome(fetched).Failure? ==> Outcome(fetched).error.ErrorInstance?
  {
  }

  /** `analyzeAudio`: build the two-part form body, then settle according to the response. */
  method AnalyzeAudio(topic: string, audio: File, fetched: Fetched)
    returns (request: seq<Part>, outcome: Result<AnalysisResponse, Thrown>)
    ensures request == [FilePart("audio", audio), TextPart("topic", topic)]
    ensures outcome == Outcome(fetched)
    ensures outcome.Failure? ==> outcome.error.ErrorInstance?
    ensures fetched.Response? && !fetched.ok ==> outcome.Failure?
  {
    var formData: seq<Part> := [];
    formData := formData + [FilePart("audio", audio)];
    formData := formData + [TextPart("topic", topic)];
    request := formData;

    match fetched
    case NetworkError(message) =>
      outcome := Failure(ErrorInstance(message));
    case Response(ok, statusText, body) =>
      if !ok {
        var errorMessage := ServerErrorFallback;
        match body {
          case Json(errorData) =>
            if errorData.error.Defined? && errorData.error.value != "" {
              errorMessage := errorData.error.value;
            }
          case JsonNull =>
            errorMessage := statusText;
          case NotJson(_) =>
            errorMessage := statusText;
        }
        outcome := Failure(ErrorInstance(errorMessage));
      } else {
        outcome := ReadPayload(body);
      }
  }
}
