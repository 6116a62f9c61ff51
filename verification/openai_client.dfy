/** lib/openai.ts: `extractJobInfoFromPdf`, which builds a chat request for the extraction
    model and reads its reply, and `extractPdfText`, which turns a PDF file into a base64
    data URI. The HTTP call and the file reader are oracles. */
module OpenAiClient {
  import opened Wrappers
  import opened Text
  import opened Json
  import opened Env
  import Base64

  // ---------------------------------------------------------------------------
  // Constants
  // ---------------------------------------------------------------------------

  /** The start of the data URI `extractPdfText` produces. */
  const DataUriPrefix: string := "data:application/pdf;base64,"

  /** A model whose name contains this marker is sent the PDF as an image. */
  const VisionMarker: string := "gpt-4"

  /** How much of a data URI the text prompt carries. */
  const PreviewLength: nat := 500

  const SystemPrompt: string := "You are an expert at extracting structured job information from job descriptions."

  const VisionInstruction: string :=
    "Extract the following information from this job description PDF in JSON format:\n- title: the job title\n- company: the company name\n- location: where the job is located\n- salary: the salary range if mentioned\n- description: a brief summary of the job\n- requirements: a list of key requirements\n- benefits: a list of benefits offered\n\nReturn ONLY valid JSON."

  const PromptText: string :=
    "Extract the following information from this job description in JSON format:\n      - title: the job title\n      - company: the company name\n      - location: where the job is located\n      - salary: the salary range if mentioned\n      - description: a brief summary of the job\n      - requirements: a list of key requirements\n      - benefits: a list of benefits offered\n      \n      Return ONLY valid JSON."

  const Base64Note: string := "\n\nThis is a PDF file in base64 format: "
  const Separator: string := "\n\n"
  const Ellipsis: string := "..."

  const KeyMissingMessage: string := "OpenAI API key is required but not set in environment"
  const ModelMissingMessage: string := "OpenAI model name is required"
  const ApiErrorPrefix: string := "Error from OpenAI API: "
  const UnknownError: string := "Unknown error"
  const UnexpectedFormatMessage: string := "Unexpected API response format from OpenAI"
  const NotJsonMessage: string := "Failed to parse OpenAI response as valid JSON"

  const ReadFailedMessage: string := "Failed to read PDF file"
  const ReadErrorMessage: string := "Error reading PDF file"

  // ---------------------------------------------------------------------------
  // Messages
  // ---------------------------------------------------------------------------

  /** One part of a multi-part message. */
  datatype Part = TextPart(text: string) | ImagePart(url: string)

  /** A message's content: plain text, or a list of parts. */
  datatype Content = Plain(text: string) | Parts(parts: seq<Part>)

  datatype Role = System | User

  datatype Message = Message(role: Role, content: Content)

  /** The content is a PDF data URI. */
  predicate IsDataUri(content: string) {
    StartsWith(content, DataUriPrefix)
  }

  /** The content goes to the model as an image: a data URI for a `gpt-4` model. */
  predicate IsVision(content: string, model: string) {
    IsDataUri(content) && Contains(model, VisionMarker)
  }

  /** The user text of the text-only shape: a data URI is cut to its first 500
      characters, and anything else is appended whole. */
  function TextPrompt(content: string): (t: string)
    ensures IsDataUri(content) ==> t == PromptText + Base64Note + Take(content, PreviewLength) + Ellipsis
    ensures !IsDataUri(content) ==> t == PromptText + Separator + content
  {
    PromptText + (if IsDataUri(content) then Base64Note + Take(content, PreviewLength) + Ellipsis else Separator + content)
  }

  /** The two messages of the request: the fixed system prompt, then either the vision
      parts (the instruction and the data URI as an image) or the text prompt. */
  function Messages(content: string, model: string): (ms: seq<Message>)
    ensures |ms| == 2 && ms[0] == Message(System, Plain(SystemPrompt)) && ms[1].role == User
    ensures ms[1].content.Parts? <==> IsVision(content, model)
    ensures ms[1].content.Parts? ==> ms[1].content.parts == [TextPart(VisionInstruction), ImagePart(content)]
    ensures ms[1].content.Plain? ==> ms[1].content.text == TextPrompt(content)
  {
    var user :=
      if IsVision(content, model) then Parts([TextPart(VisionInstruction), ImagePart(content)])
      else Plain(TextPrompt(content));
    [Message(System, Plain(SystemPrompt)), Message(User, user)]
  }

  /** What the text-only shape carries of the content: a data URI contributes at most
      500 characters, and plain text is carried whole, as the suffix of the prompt. */
  lemma TextPromptCarries(content: string)
    ensures IsDataUri(content) ==>
      |TextPrompt(content)| <= |PromptText| + |Base64Note| + PreviewLength + |Ellipsis|
    ensures !IsDataUri(content) ==>
      var t := TextPrompt(content);
      |t| >= |content| && t[|t| - |content|..] == content
  {
  }

  // ---------------------------------------------------------------------------
  // The request
  // ---------------------------------------------------------------------------

  /** A chat-completions request: the bearer key, the model and the messages. */
  datatype ChatRequest = ChatRequest(key: string, model: string, messages: seq<Message>)

  /** The reply to the request: `fetch` throws; the status is not ok, with the error body's
      `error.message`, if any; or the status is ok, with `choices[0].message.content` parsed
      as JSON (`None` when there is no `choices[0].message`, `Some(None)` when the content
      is not JSON). */
  datatype ApiReply =
    | FetchThrows(message: string)
    | NotOk(errorMessage: Option<string>)
    | Answered(reply: Option<Option<Document>>)

  /** The request sent, if any, and the parsed content or the message thrown. */
  datatype Call = Call(request: Option<ChatRequest>, result: Result<Document, string>)

  /** The message of a refused request: the service's own message when it gives a
      non-empty one. */
  function ApiErrorMessage(m: Option<string>): (r: string)
    ensures m.Some? && m.value != "" ==> r == ApiErrorPrefix + m.value
    ensures !(m.Some? && m.value != "") ==> r == ApiErrorPrefix + UnknownError
  {
    ApiErrorPrefix + (if m.Some? && m.value != "" then m.value else UnknownError)
  }

  /** `extractJobInfoFromPdf(pdfContent, model)`: the key and the model are checked before
      any request is built; the request is sent with the cleaned key; and only an ok reply
      whose message content is JSON yields a value. Every failure is thrown on. */
  function ExtractJobInfo(env: Option<string>, content: string, model: string, reply: ApiReply): (c: Call)
    ensures c.request.None? <==> (CleanKey(env) == "" || model == "")
    ensures CleanKey(env) == "" ==> c.result == Failure(KeyMissingMessage)
    ensures CleanKey(env) != "" && model == "" ==> c.result == Failure(ModelMissingMessage)
    ensures c.request.Some? ==> c.request.value == ChatRequest(CleanKey(env), model, Messages(content, model))
    ensures c.result.Success? <==>
      c.request.Some? && reply.Answered? && reply.reply.Some? && reply.reply.value.Some?
    ensures c.result.Success? ==> c.result.value == reply.reply.value.value
    ensures c.request.Some? && reply.FetchThrows? ==> c.result == Failure(reply.message)
    ensures c.request.Some? && reply.NotOk? ==> c.result == Failure(ApiErrorMessage(reply.errorMessage))
    ensures c.request.Some? && reply == Answered(None) ==> c.result == Failure(UnexpectedFormatMessage)
    ensures c.request.Some? && reply == Answered(Some(None)) ==> c.result == Failure(NotJsonMessage)
  {
    var key := CleanKey(env);
    if key == "" then Call(None, Failure(KeyMissingMessage))
    else if model == "" then Call(None, Failure(ModelMissingMessage))
    else
      var request := Some(ChatRequest(key, model, Messages(content, model)));
      match reply
      case FetchThrows(m) => Call(request, Failure(m))
      case NotOk(m) => Call(request, Failure(ApiErrorMessage(m)))
      case Answered(None) => Call(request, Failure(UnexpectedFormatMessage))
      case Answered(Some(None)) => Call(request, Failure(NotJsonMessage))
      case Answered(Some(Some(doc))) => Call(request, Success(doc))
  }

  // ---------------------------------------------------------------------------
  // `extractPdfText`
  // ---------------------------------------------------------------------------

  /** What the `FileReader` reports: an error, a load without a result, or the bytes. */
  datatype ReadOutcome = ReadError | NoResult | Loaded(bytes: seq<Base64.Byte>)

  /** `extractPdfText(pdfFile)`: the data URI of the file's bytes, or the reader's
      failure. */
  function ExtractPdfText(read: ReadOutcome): (r: Result<string, string>)
    ensures r.Success? <==> read.Loaded?
    ensures read == ReadError ==> r == Failure(ReadErrorMessage)
    ensures read == NoResult ==> r == Failure(ReadFailedMessage)
    ensures r.Success? ==>
      && IsDataUri(r.value)
      && Base64.Decode(r.value[|DataUriPrefix|..]) == Some(read.bytes)
  {
    match read
    case ReadError => Failure(ReadErrorMessage)
    case NoResult => Failure(ReadFailedMessage)
    case Loaded(bytes) =>
      var uri := DataUriPrefix + Base64.ArrayBufferToBase64(bytes);
      assert uri[..|DataUriPrefix|] == DataUriPrefix;
      assert uri[|DataUriPrefix|..] == Base64.ArrayBufferToBase64(bytes);
      Success(uri)
  }

  /** What `extractPdfText` yields always reads as a data URI, so it goes to a `gpt-4`
      model as an image and to any other model as a 500-character preview. */
  lemma PdfTextShape(read: ReadOutcome, model: string)
    requires ExtractPdfText(read).Success?
    ensures var uri := ExtractPdfText(read).value;
      && (Messages(uri, model)[1].content.Parts? <==> Contains(model, VisionMarker))
      && (!Contains(model, VisionMarker) ==>
            Messages(uri, model)[1].content == Plain(PromptText + Base64Note + Take(uri, PreviewLength) + Ellipsis))
  {
  }
}
