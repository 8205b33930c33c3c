/** Image diagnosis (components/VisualDiagnosis.tsx).

    The view's five pieces of state are the fields of `DiagnosisView`.
    `handleImageUpload` is modelled at the moment its FileReader callback runs,
    with the data URL the reader produced; `handleAnalysis` is split at its
    `await` into `BeginAnalysis` and `FinishAnalysis`. */
module VisualDiagnosis {
  import opened Wrappers
  import opened Types
  import JsStrings
  import GeminiService

  const DiagnosisErrorText := "AI 诊断服务暂时不可用，请检查网络或 API Key。"
  const LowClass := "bg-green-100 text-green-800 border-green-200"
  const MediumClass := "bg-yellow-100 text-yellow-800 border-yellow-200"
  const HighClass := "bg-orange-100 text-orange-800 border-orange-200"
  const CriticalClass := "bg-red-100 text-red-800 border-red-200"
  const DefaultClass := "bg-gray-100 text-gray-800"

  datatype DiagnosisState = DiagnosisState(
    selectedImage: Option<string>,
    mimeType: string,
    result: Option<AnalysisResult>,
    loading: bool,
    error: Option<string>)

  const Initial := DiagnosisState(None, "", None, false, None)

  /** A picked file as the reader delivers it: its data URL and its declared type. */
  datatype LoadedFile = LoadedFile(dataUrl: string, fileType: string)

  /** What `handleAnalysis` passes to `analyzeVehicleImage`. */
  datatype ImageRequest = ImageRequest(base64Image: string, mimeType: string)

  /** `dataUrl.split(',')[1]`: the field after the first comma (up to a second
      one, if any); undefined when there is no comma. */
  function DataUrlPayload(dataUrl: string): (payload: Option<string>)
    ensures payload.None? <==> ',' !in dataUrl
  {
    JsStrings.SplitFieldsIff(dataUrl, ',');
    var fields := JsStrings.Split(dataUrl, ",");
    if |fields| > 1 then Some(fields[1]) else None
  }

  /** For a data URL `header,payload` the payload comes back unchanged. */
  lemma DataUrlPayloadOfEncoding(header: string, payload: string)
    requires ',' !in header && ',' !in payload
    ensures DataUrlPayload(header + "," + payload) == Some(payload)
  {
    assert JsStrings.Join([header, payload], ",") == header + "," + payload;
    JsStrings.SplitJoin([header, payload], ",");
  }

  /** `handleImageUpload`: nothing happens without a file; otherwise the
      payload and type are recorded and the previous result and error cleared. */
  function Upload(s: DiagnosisState, file: Option<LoadedFile>): DiagnosisState {
    match file
    case None => s
    case Some(f) => s.(selectedImage := DataUrlPayload(f.dataUrl), mimeType := f.fileType, result := None, error := None)
  }

  /** `handleAnalysis` up to the `await`. Only the image is checked; a pending
      request is kept out by the button, not by this guard. */
  function StartAnalysis(s: DiagnosisState): (DiagnosisState, Option<ImageRequest>) {
    if !JsStrings.Truthy(s.selectedImage) then (s, None)
    else (s.(loading := true, error := None), Some(ImageRequest(s.selectedImage.value, s.mimeType)))
  }

  /** `handleAnalysis` after the `await`, including its `finally`. */
  function FinishAnalysis(s: DiagnosisState, outcome: Result<AnalysisResult, string>): DiagnosisState
    requires s.loading
  {
    match outcome
    case Success(data) => s.(result := Some(data), loading := false)
    case Failure(_) => s.(error := Some(DiagnosisErrorText), loading := false)
  }

  /** The analysis button's `disabled`. */
  predicate AnalyzeDisabled(s: DiagnosisState) {
    !JsStrings.Truthy(s.selectedImage) || s.loading
  }

  /** `getSeverityColor`: each of the four severities has its own class
      string; every other string gets the gray default. */
  function SeverityColor(severity: string): (cls: string)
    ensures cls == DefaultClass <==> severity !in {"Low", "Medium", "High", "Critical"}
  {
    match severity
    case "Low" => LowClass
    case "Medium" => MediumClass
    case "High" => HighClass
    case "Critical" => CriticalClass
    case _ => DefaultClass
  }

  /** Different severities are shown in different colours, none of them gray. */
  lemma SeverityColorsDistinct(a: Severity, b: Severity)
    ensures SeverityColor(SeverityName(a)) != DefaultClass
    ensures SeverityColor(SeverityName(a)) == SeverityColor(SeverityName(b)) <==> a == b
  {
  }

  /** Upload without a file changes nothing; with one it records the payload
      and type, clears the result and the error, and leaves `loading` alone. */
  lemma UploadResets(s: DiagnosisState, file: Option<LoadedFile>)
    ensures file.None? ==> Upload(s, file) == s
    ensures file.Some? ==> var t := Upload(s, file);
      && t.selectedImage == DataUrlPayload(file.value.dataUrl)
      && t.mimeType == file.value.fileType
      && t.result.None? && t.error.None?
      && t.loading == s.loading
  {
  }

  /** Without a usable image nothing happens; with one, loading is set, the
      error cleared, the result kept, and the image and type go to the gateway
      unchanged. */
  lemma StartAnalysisGuard(s: DiagnosisState)
    ensures StartAnalysis(s).1.None? <==> s.selectedImage.None? || s.selectedImage.value == ""
    ensures StartAnalysis(s).1.None? ==> StartAnalysis(s).0 == s
    ensures StartAnalysis(s).1.Some? ==> var (t, req) := StartAnalysis(s);
      && t.loading && t.error.None? && t.result == s.result
      && t.selectedImage == s.selectedImage && t.mimeType == s.mimeType
      && req.value == ImageRequest(s.selectedImage.value, s.mimeType)
  {
  }

  /** Loading is over after either outcome; success supersedes the result,
      failure keeps it and sets the fixed error text. */
  lemma FinishAnalysisOutcome(s: DiagnosisState, outcome: Result<AnalysisResult, string>)
    requires s.loading
    ensures var t := FinishAnalysis(s, outcome);
      && !t.loading
      && t.selectedImage == s.selectedImage && t.mimeType == s.mimeType
      && (outcome.Success? ==> t.result == Some(outcome.value) && t.error == s.error)
      && (outcome.Failure? ==> t.result == s.result && t.error == Some(DiagnosisErrorText))
  {
  }

  /** The button is enabled exactly when an analysis would start and none is
      pending. */
  lemma ButtonMatchesGuard(s: DiagnosisState)
    ensures !AnalyzeDisabled(s) <==> StartAnalysis(s).1.Some? && !s.loading
  {
  }

  /** Uploading `header,payload` and starting an analysis sends exactly that
      payload and the file's type, as the first part of the diagnosis request. */
  lemma UploadThenAnalyze(header: string, payload: string, fileType: string)
    requires ',' !in header && ',' !in payload && payload != ""
    ensures var (_, req) := StartAnalysis(Upload(Initial, Some(LoadedFile(header + "," + payload, fileType))));
      && req == Some(ImageRequest(payload, fileType))
      && GeminiService.DiagnosisRequest(req.value.base64Image, req.value.mimeType).contents.parts[0]
         == GeminiService.InlineData(payload, fileType)
  {
    DataUrlPayloadOfEncoding(header, payload);
  }

  /** A started analysis through the gateway: a missing key, a failed call or
      an empty response all end with the fixed error text and the earlier
      result still shown; a parsed response replaces the result. */
  lemma AnalysisThroughGateway(
    s: DiagnosisState, apiKey: Option<string>,
    generate: GeminiService.GenerateRequest -> GeminiService.SdkReply,
    parse: string -> Result<AnalysisResult, string>)
    requires StartAnalysis(s).1.Some?
    ensures var (started, req) := StartAnalysis(s);
      var reply := generate(GeminiService.DiagnosisRequest(req.value.base64Image, req.value.mimeType));
      var outcome := GeminiService.AnalyzeVehicleImage(apiKey, req.value.base64Image, req.value.mimeType, generate, parse);
      var done := FinishAnalysis(started, outcome);
      && !done.loading
      && (!GeminiService.HasApiKey(apiKey) || reply.Failed? || !JsStrings.Truthy(reply.text) ==>
            done.result == s.result && done.error == Some(DiagnosisErrorText))
      && (GeminiService.HasApiKey(apiKey) && reply.Replied? && JsStrings.Truthy(reply.text)
          && parse(reply.text.value).Success? ==>
            done.result == Some(parse(reply.text.value).value) && done.error.None?)
  {
  }

  class DiagnosisView {
    var selectedImage: Option<string>
    var mimeType: string
    var result: Option<AnalysisResult>
    var loading: bool
    var error: Option<string>

    function State(): DiagnosisState
      reads this
    {
      DiagnosisState(selectedImage, mimeType, result, loading, error)
    }

    constructor ()
      ensures State() == Initial
    {
      selectedImage, mimeType, result, loading, error := None, "", None, false, None;
    }

    method HandleImageUpload(file: Option<LoadedFile>)
      modifies this
      ensures State() == Upload(old(State()), file)
    {
      if file.Some? {
        var base64Data := DataUrlPayload(file.value.dataUrl);
        selectedImage := base64Data;
        mimeType := file.value.fileType;
        result := None;
        error := None;
      }
    }

    /** Returns the arguments of the gateway call, or `None` on the early return. */
    method BeginAnalysis() returns (req: Option<ImageRequest>)
      modifies this
      ensures (State(), req) == StartAnalysis(old(State()))
    {
      if !JsStrings.Truthy(selectedImage) {
        return None;
      }
      loading := true;
      error := None;
      req := Some(ImageRequest(selectedImage.value, mimeType));
    }

    /** Settles the analysis with the outcome of `analyzeVehicleImage`. */
    method CompleteAnalysis(outcome: Result<AnalysisResult, string>)
      requires loading
      modifies this
      ensures State() == FinishAnalysis(old(State()), outcome)
    {
      match outcome {
        case Success(data) => result := Some(data);
        case Failure(_) => error := Some(DiagnosisErrorText);
      }
      loading := false;
    }
  }
}
