/** The gateway to the hosted model (services/geminiService.ts).

    The SDK calls (`chat.sendMessage`, `models.generateContent`) are parameters:
    each is a function from the request this module builds to the reply the
    SDK delivers, so the contracts can say which request reaches the model.
    `JSON.parse(text) as T` is a parameter too: the source performs no
    validation of its own between the parse and the cast. */
module GeminiService {
  import opened Wrappers
  import opened Types
  import JsStrings

  const ModelName := "gemini-2.5-flash"
  const MissingApiKey := "API Key is missing"
  const NoResponse := "No response from AI"
  const JsonMimeType := "application/json"

  const SystemInstruction :=
    "你是一个专业的汽车4S店售后服务AI助手。\n"
    + "      你的职责包括：\n"
    + "      1. 协助客户预约保养或维修（询问车型、当前里程、方便的时间）。\n"
    + "      2. 解答关于车辆保养的基本问题。\n"
    + "      3. 语气要专业、热情、耐心，始终以“尊贵的车主”相称。\n"
    + "      4. 如果用户确认预约，请最后输出格式化的【预约确认单】。\n"
    + "      "

  const DiagnosisPrompt :=
    "请作为一名资深汽车维修专家分析这张图片。识别仪表盘故障灯、车辆外观损伤或机械零件问题。请用中文回答。"

  const FeedbackPromptPrefix := "分析以下汽车4S店的客户评价:\n"
  const ReviewSeparator := "\n---\n"

  // ---------------------------------------------------------------- client

  /** `process.env.API_KEY` is truthy: defined and not empty. */
  predicate HasApiKey(apiKey: Option<string>) {
    JsStrings.Truthy(apiKey)
  }

  datatype Client = Client(apiKey: string)

  /** `getClient`: a client is built only from a present, non-empty key;
      otherwise the call fails with the fixed message. */
  function GetClient(apiKey: Option<string>): (r: Result<Client, string>)
    ensures r.Success? <==> apiKey.Some? && apiKey.value != ""
    ensures r.Success? ==> r.value.apiKey == apiKey.value
    ensures r.Failure? ==> r.error == MissingApiKey
  {
    if !HasApiKey(apiKey) then Failure(MissingApiKey) else Success(Client(apiKey.value))
  }

  // ---------------------------------------------------------------- requests

  datatype Part = TextPart(text: string) | InlineData(data: string, mimeType: string)

  /** One turn of chat history in the SDK's shape `{role, parts}`. */
  datatype Content = Content(role: string, parts: seq<Part>)

  /** One turn of chat history as the component hands it over: `{role, text}`. */
  datatype HistoryEntry = HistoryEntry(role: string, text: string)

  /** `history.map(h => ({role: h.role, parts: [{text: h.text}]}))` */
  function ProjectHistory(history: seq<HistoryEntry>): (r: seq<Content>)
    ensures |r| == |history|
    ensures forall i :: 0 <= i < |history| ==> r[i].role == history[i].role && r[i].parts == [TextPart(history[i].text)]
  {
    if history == [] then []
    else [Content(history[0].role, [TextPart(history[0].text)])] + ProjectHistory(history[1..])
  }

  /** Reads `{role, text}` entries back from SDK history; defined only when
      every turn carries exactly one text part. */
  function HistoryOf(contents: seq<Content>): Option<seq<HistoryEntry>> {
    if contents == [] then Some([])
    else if |contents[0].parts| == 1 && contents[0].parts[0].TextPart? then
      match HistoryOf(contents[1..])
      case Some(rest) => Some([HistoryEntry(contents[0].role, contents[0].parts[0].text)] + rest)
      case None => None
    else None
  }

  /** The projection loses nothing: every entry, its role, its text and the
      order of the turns can be read back from the projected history. */
  lemma {:induction false} HistoryRoundTrip(history: seq<HistoryEntry>)
    ensures HistoryOf(ProjectHistory(history)) == Some(history)
  {
    if history != [] {
      HistoryRoundTrip(history[1..]);
      assert ProjectHistory(history)[1..] == ProjectHistory(history[1..]);
      assert [history[0]] + history[1..] == history;
    }
  }

  /** And in the other direction: SDK history of single text parts is the
      projection of what it reads back to. */
  lemma {:induction false} HistoryOfProjects(contents: seq<Content>)
    requires HistoryOf(contents).Some?
    ensures ProjectHistory(HistoryOf(contents).value) == contents
  {
    if contents != [] {
      var c := contents[0];
      HistoryOfProjects(contents[1..]);
      assert c.parts == [TextPart(c.parts[0].text)];
      assert HistoryOf(contents).value == [HistoryEntry(c.role, c.parts[0].text)] + HistoryOf(contents[1..]).value;
      assert [contents[0]] + contents[1..] == contents;
    }
  }

  /** `ai.chats.create({model, config: {systemInstruction}, history})`
      followed by `chat.sendMessage({message})`. */
  datatype ChatRequest = ChatRequest(model: string, systemInstruction: string, history: seq<Content>, message: string)

  /** What the SDK delivers: a response whose `text` may be undefined, or a
      rejected call. */
  datatype SdkReply = Replied(text: Option<string>) | Failed(error: string)

  /** The chat request for a history and a new utterance: fixed model and
      persona, the history in SDK shape with nothing lost or reordered, the
      utterance sent on its own. */
  function ChatRequestFor(history: seq<HistoryEntry>, newMessage: string): (r: ChatRequest)
    ensures r.model == ModelName && r.systemInstruction == SystemInstruction
    ensures HistoryOf(r.history) == Some(history)
    ensures r.message == newMessage
  {
    HistoryRoundTrip(history);
    ChatRequest(ModelName, SystemInstruction, ProjectHistory(history), newMessage)
  }

  /** `generateChatResponse`: the key is checked before any request exists;
      then the reply text (possibly undefined) is returned, or the SDK's
      failure propagated. */
  function GenerateChatResponse(
    apiKey: Option<string>, history: seq<HistoryEntry>, newMessage: string,
    send: ChatRequest -> SdkReply): (r: Result<Option<string>, string>)
    ensures !HasApiKey(apiKey) ==> r == Failure(MissingApiKey)
    ensures HasApiKey(apiKey) && send(ChatRequestFor(history, newMessage)).Failed? ==>
      r == Failure(send(ChatRequestFor(history, newMessage)).error)
    ensures HasApiKey(apiKey) && send(ChatRequestFor(history, newMessage)).Replied? ==>
      r == Success(send(ChatRequestFor(history, newMessage)).text)
  {
    match GetClient(apiKey)
    case Failure(e) => Failure(e)
    case Success(_) =>
      match send(ChatRequestFor(history, newMessage))
      case Replied(text) => Success(text)
      case Failed(e) => Failure(e)
  }

  // ---------------------------------------------------------------- schemas

  /** The declarative response schemas handed to the SDK. An absent `enum`,
      `minItems` or `maxItems` is `None`. */
  datatype Schema =
    | StringSchema(enumValues: Option<seq<string>>, description: Option<string>)
    | ArraySchema(items: Schema, minItems: Option<nat>, maxItems: Option<nat>, description: Option<string>)
    | ObjectSchema(properties: seq<Property>, required: seq<string>)

  datatype Property = Property(name: string, schema: Schema)

  function PropertyNames(properties: seq<Property>): (names: seq<string>)
    ensures |names| == |properties|
    ensures forall i :: 0 <= i < |properties| ==> names[i] == properties[i].name
  {
    if properties == [] then [] else [properties[0].name] + PropertyNames(properties[1..])
  }

  /** The schema of the property called `name`, if the object declares one. */
  function PropertySchema(properties: seq<Property>, name: string): (r: Option<Schema>)
    ensures r.Some? <==> name in PropertyNames(properties)
    ensures r.Some? ==> Property(name, r.value) in properties
  {
    if properties == [] then None
    else if properties[0].name == name then Some(properties[0].schema)
    else PropertySchema(properties[1..], name)
  }

  /** An object schema whose required list names exactly its declared
      properties, each once, in declaration order. */
  predicate RequiresExactlyItsProperties(schema: Schema) {
    schema.ObjectSchema? && schema.required == PropertyNames(schema.properties)
  }

  const SeverityNames := [SeverityName(Low), SeverityName(Medium), SeverityName(High), SeverityName(Critical)]

  const DiagnosisSchema := ObjectSchema(
    [ Property("issue", StringSchema(None, Some("诊断出的车辆问题或零件名称"))),
      Property("severity", StringSchema(Some(["Low", "Medium", "High", "Critical"]), Some("问题的严重程度"))),
      Property("estimatedCost", StringSchema(None, Some("预估维修费用范围（人民币）"))),
      Property("timeRequired", StringSchema(None, Some("预估工时"))),
      Property("recommendation", StringSchema(None, Some("给车主的维修建议")))
    ],
    ["issue", "severity", "estimatedCost", "timeRequired", "recommendation"])

  const FeedbackSchema := ObjectSchema(
    [ Property("sentiment", StringSchema(None, Some("整体情感倾向 (正面/中性/负面)"))),
      Property("keyTopics", ArraySchema(StringSchema(None, None), None, None, Some("客户提到的主要话题（如服务态度、价格、技术等）"))),
      Property("summary", StringSchema(None, Some("对这些评论的简要总结 (50字以内)"))),
      Property("actionItems", ArraySchema(StringSchema(None, None), None, None, Some("针对4S店管理的具体改进建议 (3条)")))
    ],
    ["sentiment", "keyTopics", "summary", "actionItems"])

  /** The diagnosis schema requires exactly its five properties, and its
      severity enum is `SeverityNames`. */
  lemma DiagnosisSchemaShape()
    ensures RequiresExactlyItsProperties(DiagnosisSchema)
    ensures |DiagnosisSchema.required| == 5
    ensures PropertySchema(DiagnosisSchema.properties, "severity") == Some(StringSchema(Some(SeverityNames), Some("问题的严重程度")))
  {
    var p := DiagnosisSchema.properties;
    assert PropertyNames(p) == DiagnosisSchema.required;
    assert PropertySchema(p, "severity") == Some(p[1].schema) by {
      assert p[0].name != "severity" && p[1].name == "severity";
      assert PropertySchema(p, "severity") == PropertySchema(p[1..], "severity");
    }
  }

  /** The severity enum names exactly the four severities of `AnalysisResult`. */
  lemma SeverityNamesExact()
    ensures forall v :: v in SeverityNames <==> exists s: Severity :: SeverityName(s) == v
  {
    forall v | v in SeverityNames ensures exists s: Severity :: SeverityName(s) == v {
      if v == "Low" { assert SeverityName(Low) == v; }
      else if v == "Medium" { assert SeverityName(Medium) == v; }
      else if v == "High" { assert SeverityName(High) == v; }
      else { assert SeverityName(Critical) == v; }
    }
  }

  /** An array of plain strings with no bound on its length. */
  predicate UnboundedStringList(schema: Schema) {
    schema.ArraySchema? && schema.items == StringSchema(None, None) && schema.minItems == None && schema.maxItems == None
  }

  /** The feedback schema requires all four properties; both lists are arrays of
      plain strings with no bound on their length. */
  lemma FeedbackSchemaShape()
    ensures RequiresExactlyItsProperties(FeedbackSchema)
    ensures |FeedbackSchema.required| == 4
    ensures var topics := PropertySchema(FeedbackSchema.properties, "keyTopics");
      topics.Some? && UnboundedStringList(topics.value)
    ensures var items := PropertySchema(FeedbackSchema.properties, "actionItems");
      items.Some? && UnboundedStringList(items.value)
  {
    var p := FeedbackSchema.properties;
    assert PropertyNames(p) == FeedbackSchema.required;
    assert PropertySchema(p, "keyTopics") == Some(p[1].schema) by {
      assert p[0].name != "keyTopics" && p[1].name == "keyTopics";
      assert PropertySchema(p, "keyTopics") == PropertySchema(p[1..], "keyTopics");
    }
    assert PropertySchema(p, "actionItems") == Some(p[3].schema) by {
      assert p[0].name != "actionItems" && p[1].name != "actionItems" && p[2].name != "actionItems";
      assert PropertySchema(p, "actionItems") == PropertySchema(p[1..], "actionItems");
      assert PropertySchema(p[1..], "actionItems") == PropertySchema(p[2..], "actionItems");
      assert PropertySchema(p[2..], "actionItems") == PropertySchema(p[3..], "actionItems");
    }
  }

  // ---------------------------------------------------------------- structured calls

  datatype RequestContents = TextContents(text: string) | PartsContents(parts: seq<Part>)
  datatype GenerateConfig = GenerateConfig(responseMimeType: string, responseSchema: Schema)

  /** `ai.models.generateContent({model, contents, config})` */
  datatype GenerateRequest = GenerateRequest(model: string, contents: RequestContents, config: GenerateConfig)

  /** The images a request's contents carry, as (data, MIME type), in order. */
  function InlineImages(parts: seq<Part>): (images: seq<(string, string)>)
    ensures |images| <= |parts|
  {
    if parts == [] then []
    else (if parts[0].InlineData? then [(parts[0].data, parts[0].mimeType)] else []) + InlineImages(parts[1..])
  }

  /** The text the request's parts carry, in order. */
  function PartsText(parts: seq<Part>): string {
    if parts == [] then ""
    else (if parts[0].TextPart? then parts[0].text else "") + PartsText(parts[1..])
  }

  /** The diagnosis request: the image comes first, its data and MIME type
      passed through unchanged and alone; the fixed prompt is the only text;
      the reply is JSON under the diagnosis schema. */
  function DiagnosisRequest(base64Image: string, mimeType: string): (r: GenerateRequest)
    ensures r.model == ModelName && r.contents.PartsContents?
    ensures InlineImages(r.contents.parts) == [(base64Image, mimeType)]
    ensures r.contents.parts[0] == InlineData(base64Image, mimeType)
    ensures PartsText(r.contents.parts) == DiagnosisPrompt
    ensures r.config == GenerateConfig(JsonMimeType, DiagnosisSchema)
  {
    var parts := [InlineData(base64Image, mimeType), TextPart(DiagnosisPrompt)];
    assert parts[1..][1..] == [];
    assert PartsText(parts[1..]) == DiagnosisPrompt + "";
    assert DiagnosisPrompt + "" == DiagnosisPrompt;
    GenerateRequest(ModelName, PartsContents(parts), GenerateConfig(JsonMimeType, DiagnosisSchema))
  }

  /** The review prompt: the fixed prefix, then the reviews joined by the separator. */
  function FeedbackPrompt(reviews: seq<string>): (prompt: string)
    ensures |prompt| >= |FeedbackPromptPrefix| && prompt[..|FeedbackPromptPrefix|] == FeedbackPromptPrefix
  {
    FeedbackPromptPrefix + JsStrings.Join(reviews, ReviewSeparator)
  }

  /** The body after the prefix splits back, at the separators, into exactly
      the reviews, in order: for n reviews there are n - 1 separators, provided
      no review contains a line break (the separator's first character). */
  lemma FeedbackPromptRoundTrip(reviews: seq<string>)
    requires |reviews| >= 1
    requires forall i :: 0 <= i < |reviews| ==> '\n' !in reviews[i]
    ensures JsStrings.Split(FeedbackPrompt(reviews)[|FeedbackPromptPrefix|..], ReviewSeparator) == reviews
  {
    var body := JsStrings.Join(reviews, ReviewSeparator);
    assert FeedbackPrompt(reviews)[|FeedbackPromptPrefix|..] == body;
    JsStrings.SplitJoin(reviews, ReviewSeparator);
  }

  /** The feedback request: text contents only (no image), JSON under the feedback schema. */
  function FeedbackRequest(reviews: seq<string>): (r: GenerateRequest)
    ensures r.model == ModelName
    ensures r.contents == TextContents(FeedbackPrompt(reviews))
    ensures r.config == GenerateConfig(JsonMimeType, FeedbackSchema)
  {
    GenerateRequest(ModelName, TextContents(FeedbackPrompt(reviews)), GenerateConfig(JsonMimeType, FeedbackSchema))
  }

  /** The tail shared by both structured calls: an SDK failure propagates; an
      undefined or empty text fails with the fixed message before anything is
      parsed; otherwise the text is parsed. */
  function ReadStructured<T>(reply: SdkReply, parse: string -> Result<T, string>): (r: Result<T, string>)
    ensures reply.Failed? ==> r == Failure(reply.error)
    ensures reply.Replied? && !JsStrings.Truthy(reply.text) ==> r == Failure(NoResponse)
    ensures reply.Replied? && JsStrings.Truthy(reply.text) ==> r == parse(reply.text.value)
  {
    match reply
    case Failed(e) => Failure(e)
    case Replied(text) => if !JsStrings.Truthy(text) then Failure(NoResponse) else parse(text.value)
  }

  /** `analyzeVehicleImage` */
  function AnalyzeVehicleImage(
    apiKey: Option<string>, base64Image: string, mimeType: string,
    generate: GenerateRequest -> SdkReply, parse: string -> Result<AnalysisResult, string>): (r: Result<AnalysisResult, string>)
    ensures !HasApiKey(apiKey) ==> r == Failure(MissingApiKey)
    ensures HasApiKey(apiKey) ==> r == ReadStructured(generate(DiagnosisRequest(base64Image, mimeType)), parse)
  {
    match GetClient(apiKey)
    case Failure(e) => Failure(e)
    case Success(_) => ReadStructured(generate(DiagnosisRequest(base64Image, mimeType)), parse)
  }

  /** `analyzeCustomerFeedback`. An empty batch is not rejected: its prompt
      is the prefix alone. */
  function AnalyzeCustomerFeedback(
    apiKey: Option<string>, reviews: seq<string>,
    generate: GenerateRequest -> SdkReply, parse: string -> Result<FeedbackAnalysis, string>): (r: Result<FeedbackAnalysis, string>)
    ensures !HasApiKey(apiKey) ==> r == Failure(MissingApiKey)
    ensures HasApiKey(apiKey) ==> r == ReadStructured(generate(FeedbackRequest(reviews)), parse)
  {
    match GetClient(apiKey)
    case Failure(e) => Failure(e)
    case Success(_) => ReadStructured(generate(FeedbackRequest(reviews)), parse)
  }

  /** A response without text fails the same way whatever the parser would
      have done with it: nothing is parsed. */
  lemma EmptyResponseNeverParsed<T>(text: Option<string>, parse1: string -> Result<T, string>, parse2: string -> Result<T, string>)
    requires !JsStrings.Truthy(text)
    ensures ReadStructured(Replied(text), parse1) == ReadStructured(Replied(text), parse2) == Failure(NoResponse)
  {
  }

  /** A missing key fails the same way whatever the model would have replied:
      no request is sent. */
  lemma MissingKeyNeverCalls(
    apiKey: Option<string>, history: seq<HistoryEntry>, newMessage: string,
    send1: ChatRequest -> SdkReply, send2: ChatRequest -> SdkReply)
    requires !HasApiKey(apiKey)
    ensures GenerateChatResponse(apiKey, history, newMessage, send1) == GenerateChatResponse(apiKey, history, newMessage, send2)
  {
  }
}
