/** `POST` of app/api/jobs/upload/route.ts: turning an uploaded PDF into a stored job.
    The steps run in a fixed order: the administrator's API key, the form fields, the file
    gates (presence, media type, size), text extraction, the relevance classifier, the
    structured extraction, the title check, the location default, and a single write.
    Every external service is an oracle: its outcome is an input of the model. */
module UploadRoute {
  import opened Wrappers
  import opened Text
  import opened Json
  import opened JobSchema
  import opened JobStore
  import opened Http
  import opened Env

  // ---------------------------------------------------------------------------
  // Constants
  // ---------------------------------------------------------------------------

  /** The size ceiling, 10 MiB. */
  const MaxSize: nat := 10 * 1024 * 1024

  /** The media type the file's type must contain. */
  const PdfType: string := "application/pdf"

  /** Extracted text shorter than this, once trimmed, is refused. */
  const MinTextLength: nat := 50

  /** How much of the text the classifier sees. */
  const ClassifierPrefix: nat := 2000

  /** The model the classifier always uses. */
  const ClassifierModel: string := "gpt-3.5-turbo"

  /** A requested model containing this marker selects the quality tier. */
  const QualityMarker: string := "gpt-4"
  const QualityModel: string := "gpt-4-0125-preview"
  const FastModel: string := "gpt-3.5-turbo-0125"

  // The route's fixed messages, spelt as words joined by single spaces.

  const NoKeyWords: seq<string> := ["The", "administrator", "has", "not", "configured", "an", "OpenAI", "API", "key"]
  const NoKeyMessage: string := Sentence(NoKeyWords)
  const NoFileWords: seq<string> := ["No", "file", "provided"]
  const NoFileMessage: string := Sentence(NoFileWords)
  const NotPdfWords: seq<string> := ["File", "must", "be", "a", "PDF"]
  const NotPdfMessage: string := Sentence(NotPdfWords)
  const TooLargeWords: seq<string> := ["File", "size", "exceeds", "10MB", "limit"]
  const TooLargeMessage: string := Sentence(TooLargeWords)
  const InsufficientTextWords: seq<string> := ["The", "PDF", "contains", "insufficient", "text", "content", "to", "process"]
  const InsufficientTextMessage: string := Sentence(InsufficientTextWords)
  const PdfFailedWords: seq<string> := ["Failed", "to", "extract", "text", "from", "PDF.", "The", "file", "may", "be", "corrupted", "or", "password-protected."]
  const PdfFailedMessage: string := Sentence(PdfFailedWords)
  const RejectedWords: seq<string> := ["The", "PDF", "does", "not", "appear", "to", "be", "related", "to", "a", "job", "or", "employment", "opportunity"]
  const RejectedMessage: string := Sentence(RejectedWords)
  const AnalysisFailedWords: seq<string> := ["Failed", "to", "analyze", "job", "information", "with", "AI.", "Please", "try", "again."]
  const AnalysisFailedMessage: string := Sentence(AnalysisFailedWords)
  const NoTitleWords: seq<string> := ["Could", "not", "extract", "job", "title", "from", "PDF"]
  const NoTitleMessage: string := Sentence(NoTitleWords)
  const SaveFailedWords: seq<string> := ["Failed", "to", "save", "job", "to", "database"]
  const SaveFailedMessage: string := Sentence(SaveFailedWords)
  const ProcessedWords: seq<string> := ["Job", "description", "processed", "successfully"]
  const ProcessedMessage: string := Sentence(ProcessedWords)
  const UnreachableWords: seq<string> := ["Error", "connecting", "to", "OpenAI", "service.", "Please", "check", "internet", "connection."]
  const UnreachableMessage: string := Sentence(UnreachableWords)
  const TookTooLongWords: seq<string> := ["Processing", "took", "too", "long.", "Please", "try", "again", "with", "a", "simpler", "PDF."]
  const TookTooLongMessage: string := Sentence(TookTooLongWords)
  const GenericFailureWords: seq<string> := ["Error", "processing", "job", "description.", "Please", "try", "again."]
  const GenericFailureMessage: string := Sentence(GenericFailureWords)

  /** The route's failures. */
  datatype RouteError =
    | NoKey | NoFile | NotPdf | TooLarge
    | InsufficientText | PdfFailed | Rejected
    | AnalysisFailed | NoTitle | SaveFailed
    | Unreachable | TookTooLong | GenericFailure

  /** The status of each failure: the validations are 400, the outer catch's service and
      timeout cases 503 and 408, everything else 500. */
  function StatusOf(e: RouteError): nat {
    match e
    case NoFile | NotPdf | TooLarge | InsufficientText | Rejected | NoTitle => 400
    case Unreachable => 503
    case TookTooLong => 408
    case NoKey | PdfFailed | AnalysisFailed | SaveFailed | GenericFailure => 500
  }

  function MessageOf(e: RouteError): string {
    match e
    case NoKey => NoKeyMessage
    case NoFile => NoFileMessage
    case NotPdf => NotPdfMessage
    case TooLarge => TooLargeMessage
    case InsufficientText => InsufficientTextMessage
    case PdfFailed => PdfFailedMessage
    case Rejected => RejectedMessage
    case AnalysisFailed => AnalysisFailedMessage
    case NoTitle => NoTitleMessage
    case SaveFailed => SaveFailedMessage
    case Unreachable => UnreachableMessage
    case TookTooLong => TookTooLongMessage
    case GenericFailure => GenericFailureMessage
  }

  /** The response of a failure. */
  function Fail(e: RouteError): (r: Response)
    ensures r.status == StatusOf(e) != 200 && r.body == ErrorBody(MessageOf(e))
  {
    Error(StatusOf(e), MessageOf(e))
  }

  // ---------------------------------------------------------------------------
  // Inputs
  // ---------------------------------------------------------------------------

  /** An uploaded file as the route sees it. */
  datatype File = File(mediaType: string, size: nat)

  /** `formData.get(name)`: absent (`null`), a text field, or a file. */
  datatype FormEntry = Missing | TextEntry(text: string) | FileEntry(file: File)

  /** The kind of a thrown value: a `TypeError`, another `Error`, or something that is not
      an `Error` at all. */
  datatype ErrorKind = TypeError | OtherError | NotAnError

  /** A thrown value and its message. */
  datatype Thrown = Thrown(kind: ErrorKind, message: string)

  /** `request.formData()`: it throws, or yields the `file` and `model` entries. */
  datatype FormOutcome = FormThrows(thrown: Thrown) | Form(file: FormEntry, model: FormEntry)

  /** `pdfParse(buffer)`: it throws, or yields the text. */
  datatype PdfOutcome = PdfThrows | PdfText(text: string)

  /** The classifier call: it throws (including a reply without `choices[0].message`), or
      yields the message content, which may be `null`. */
  datatype ClassifyOutcome = ClassifyThrows | ClassifyReply(content: Option<string>)

  /** The extraction call: it throws, its reply has no (or empty) function-call
      arguments, or the arguments are given; `parsed` is `JSON.parse` of them, `None`
      when that throws. */
  datatype ExtractOutcome = ExtractThrows | NoArguments | Arguments(parsed: Option<Document>)

  /** Every external outcome of one request. `readFails` is what `file.arrayBuffer()`
      rejects with, if it does; the read sits outside every inner `try`, so its error goes
      to the outer `catch`. `dbUp` is false when connecting to the database fails, which
      makes `createJob` throw. */
  datatype Oracles = Oracles(
    form: FormOutcome,
    readFails: Option<Thrown>,
    pdf: PdfOutcome,
    classify: ClassifyOutcome,
    extract: ExtractOutcome,
    dbUp: bool)

  // ---------------------------------------------------------------------------
  // Outputs
  // ---------------------------------------------------------------------------

  /** The request of the extraction call: the model used and the text sent. */
  datatype ExtractionCall = ExtractionCall(model: string, text: string)

  /** Which services a request reached: whether the PDF was parsed, the text the
      classifier was sent, and the extraction call made. */
  datatype Trace = Trace(pdfParsed: bool, classifierInput: Option<string>, extraction: Option<ExtractionCall>)

  const NoCalls: Trace := Trace(false, None, None)

  /** The saved job or the failure, the collection afterwards, and the services
      reached. */
  datatype Outcome = Outcome(answer: Result<Job, RouteError>, store: Store, trace: Trace) {
    /** The response status. */
    function Status(): nat {
      match answer
      case Success(_) => 200
      case Failure(e) => StatusOf(e)
    }

    /** The response sent. */
    function Reply(): Response {
      match answer
      case Success(job) => Ok(ProcessedMessage, job)
      case Failure(e) => Fail(e)
    }
  }

  /** The write discipline of the route: an error response leaves the collection as it
      was; a success adds exactly the returned job under a fresh id and changes nothing
      else. */
  predicate WritesOnlyOnSuccess(s: Store, r: Outcome) {
    && Valid(r.store)
    && (r.answer.Failure? ==> r.store == s)
    && (r.answer.Success? ==>
          && r.answer.value.id !in s.docs
          && r.store.docs.Keys == s.docs.Keys + {r.answer.value.id}
          && (forall id | id in s.docs :: r.store.docs[id] == s.docs[id])
          && GetJobById(r.store, r.answer.value.id) == Some(r.answer.value))
  }

  // ---------------------------------------------------------------------------
  // Steps
  // ---------------------------------------------------------------------------

  /** The model tier: any requested model containing `gpt-4` gets the quality model,
      anything else (an absent one included) the fast one. */
  function ModelTier(requested: Option<string>): (m: string)
    ensures m == QualityModel <==> (requested.Some? && Contains(requested.value, QualityMarker))
    ensures m == FastModel <==> !(requested.Some? && Contains(requested.value, QualityMarker))
  {
    if requested.Some? && Contains(requested.value, QualityMarker) then QualityModel else FastModel
  }

  /** The classifier's verdict: only a reply that reads `YES` once trimmed and upper-cased
      lets the request through. */
  predicate Accepted(content: Option<string>) {
    content.Some? && ToUpper(Trim(content.value)) == "YES"
  }

  /** The outer `catch`: a `TypeError` mentioning `fetch` is 503, any `Error` mentioning
      `timeout` is 408, anything else 500. */
  function CatchAll(e: Thrown): (r: RouteError)
    ensures r in {Unreachable, TookTooLong, GenericFailure}
    ensures r == Unreachable <==> e.kind == TypeError && Contains(e.message, "fetch")
    ensures r == TookTooLong <==>
      e.kind != NotAnError && !(e.kind == TypeError && Contains(e.message, "fetch")) && Contains(e.message, "timeout")
  {
    if e.kind == TypeError && Contains(e.message, "fetch") then Unreachable
    else if e.kind != NotAnError && Contains(e.message, "timeout") then TookTooLong
    else GenericFailure
  }

  /** The words of what reading `file.type.includes` throws when `file` is a text field. */
  const TypeOfTextWords: seq<string> := ["Cannot", "read", "properties", "of", "undefined", "(reading", "'includes')"]

  const TypeOfText: Thrown := Thrown(TypeError, Sentence(TypeOfTextWords))

  /** No word of that error mentions `fetch` or `timeout`. */
  lemma TypeOfTextWordsScan(p: string)
    requires p == "fetch" || p == "timeout"
    ensures forall k :: 0 <= k < |TypeOfTextWords| ==> !ScanFrom(TypeOfTextWords[k], p, 0)
  {
    if p == "fetch" {
      WordsScan("fetch");
    } else {
      WordsScan("timeout");
    }
  }

  lemma WordsScan(p: string)
    requires p == "fetch" || p == "timeout"
    ensures !ScanFrom("Cannot", p, 0) && !ScanFrom("read", p, 0) && !ScanFrom("properties", p, 0)
    ensures !ScanFrom("of", p, 0) && !ScanFrom("undefined", p, 0)
    ensures !ScanFrom("(reading", p, 0) && !ScanFrom("'includes')", p, 0)
  {
    if p == "fetch" {
      assert !ScanFrom("undefined", "fetch", 4);
    }
  }

  /** That error reaches neither the 503 nor the 408 branch. */
  lemma TypeOfTextIsGeneric()
    ensures CatchAll(TypeOfText) == GenericFailure
  {
    TypeOfTextLacks("fetch");
    TypeOfTextLacks("timeout");
  }

  lemma TypeOfTextLacks(p: string)
    requires p == "fetch" || p == "timeout"
    ensures !Contains(TypeOfText.message, p)
  {
    TypeOfTextWordsScan(p);
    NoWordScans(TypeOfTextWords, ' ', p);
  }

  /** What a job saved from the extracted fields `o` at time `now` holds: the trimmed
      title and company, the location (`Remote` when the extraction gave a falsy one), the
      upload time, and the creation defaults. */
  predicate Stored(o: Object, now: nat, job: Job) {
    && Spelling(Get(o, "title")).Some? && job.title == Trim(Spelling(Get(o, "title")).value)
    && Spelling(Get(o, "company")).Some? && job.company == Trim(Spelling(Get(o, "company")).value)
    && (!Truthy(Get(o, "location")) ==> job.location == Some(DefaultLocation))
    && (Spelling(Get(o, "location")).Some? && Truthy(Get(o, "location")) ==> job.location == Some(Trim(Spelling(Get(o, "location")).value)))
    && job.createdAt == now
    && job.status == Active
    && job.applicants == 0
  }

  /** The object handed to `createJob`: the extracted fields, with `location` defaulted
      when falsy and `createdAt` set to the upload time. */
  function SaveData(o: Object, now: nat): (d: Object)
    ensures Get(d, "title") == Get(o, "title") && Get(d, "company") == Get(o, "company")
    ensures Get(d, "createdAt") == Num(now)
    ensures Truthy(Get(o, "location")) ==> Get(d, "location") == Get(o, "location")
    ensures !Truthy(Get(o, "location")) ==> Get(d, "location") == Str(DefaultLocation)
    ensures forall k | k !in {"location", "createdAt"} :: Get(d, k) == Get(o, k)
  {
    (if Truthy(Get(o, "location")) then o else o["location" := Str(DefaultLocation)])["createdAt" := Num(now)]
  }

  /** A job whose paths are those `createJob` gives for `SaveData(o, now)` is what `Stored`
      describes. */
  lemma StoredFromSaveData(o: Object, now: nat, job: Job)
    requires var d := SaveData(o, now);
      && Spelling(Get(d, "title")).Some? && job.title == Trim(Spelling(Get(d, "title")).value)
      && Spelling(Get(d, "company")).Some? && job.company == Trim(Spelling(Get(d, "company")).value)
      && (Spelling(Get(d, "location")).Some? ==> job.location == Some(Trim(Spelling(Get(d, "location")).value)))
      && job.createdAt == now && job.status == Active && job.applicants == 0
    ensures Stored(o, now, job)
  {
    StoredFrom(o, SaveData(o, now), now, job);
  }

  /** `StoredFromSaveData` for any object `d` that agrees with `o` as `SaveData` does. */
  lemma StoredFrom(o: Object, d: Object, now: nat, job: Job)
    requires Get(d, "title") == Get(o, "title") && Get(d, "company") == Get(o, "company")
    requires Truthy(Get(o, "location")) ==> Get(d, "location") == Get(o, "location")
    requires !Truthy(Get(o, "location")) ==> Get(d, "location") == Str(DefaultLocation)
    requires && Spelling(Get(d, "title")).Some? && job.title == Trim(Spelling(Get(d, "title")).value)
      && Spelling(Get(d, "company")).Some? && job.company == Trim(Spelling(Get(d, "company")).value)
      && (Spelling(Get(d, "location")).Some? ==> job.location == Some(Trim(Spelling(Get(d, "location")).value)))
      && job.createdAt == now && job.status == Active && job.applicants == 0
    ensures Stored(o, now, job)
  {
    if !Truthy(Get(o, "location")) {
      TrimNoOp(DefaultLocation);
    }
  }

  /** A job saved from `SaveData(o, now)` is what `Stored` describes. */
  lemma SavedAsStored(o: Object, now: nat, s: Store)
    requires Valid(s)
    requires CreateJob(s, SaveData(o, now), now).Success?
    ensures Stored(o, now, CreateJob(s, SaveData(o, now), now).value.1)
  {
    StoredFromSaveData(o, now, CreateJob(s, SaveData(o, now), now).value.1);
  }

  /** `createJob({ ...extracted, createdAt })` after the location default, and the last
      two responses. */
  function Persist(o: Object, now: nat, dbUp: bool, s: Store, t: Trace): (r: Outcome)
    requires Valid(s)
    ensures WritesOnlyOnSuccess(s, r)
    ensures r.trace == t
    ensures r.Status() in {200, 500}
    ensures r.Status() == 500 ==> r.answer == Failure(SaveFailed)
    ensures r.Status() == 200 ==> dbUp && Stored(o, now, r.answer.value)
    ensures r.Status() == 200 <==> dbUp && Acceptable(CreationData(SaveData(o, now)))
  {
    var data := SaveData(o, now);
    if !dbUp then Outcome(Failure(SaveFailed), s, t)
    else
      match CreateJob(s, data, now)
      case Failure(_) => Outcome(Failure(SaveFailed), s, t)
      case Success((s', job)) =>
        CreateThenGet(s, data, now);
        SavedAsStored(o, now, s);
        Outcome(Success(job), s', t)
  }

  /** The requested model: the text of the `model` field, if there is one. */
  function Requested(model: FormEntry): Option<string> {
    match model
    case TextEntry(m) => Some(m)
    case _ => None
  }

  /** The extraction step and the title check: a failed call, missing arguments,
      unparseable arguments or a `null` payload are 500 (the last because logging reads
      `title` of it inside the `try`); any other payload without a truthy `title` is 400. */
  function Extract(text: string, model: FormEntry, extract: ExtractOutcome, dbUp: bool, now: nat, s: Store, t: Trace): (r: Outcome)
    requires Valid(s)
    requires t.extraction.None?
    ensures WritesOnlyOnSuccess(s, r)
    ensures r.Status() in {200, 400, 500}
    ensures model.FileEntry? ==> r.trace == t && r.answer == Failure(AnalysisFailed)
    ensures !model.FileEntry? ==> r.trace == t.(extraction := Some(ExtractionCall(ModelTier(Requested(model)), text)))
    ensures !model.FileEntry? ==>
      (r.answer == Failure(AnalysisFailed) <==>
        extract.ExtractThrows? || extract.NoArguments? || extract.parsed.None? || extract.parsed.value.NullDoc?)
    ensures r.answer == Failure(NoTitle) <==>
      && !model.FileEntry? && extract.Arguments? && extract.parsed.Some? && !extract.parsed.value.NullDoc?
      && !(extract.parsed.value.ObjectDoc? && Truthy(Get(extract.parsed.value.fields, "title")))
    ensures r.Status() == 200 ==>
      && extract.Arguments? && extract.parsed.Some? && extract.parsed.value.ObjectDoc?
      && Truthy(Get(extract.parsed.value.fields, "title"))
      && dbUp && Stored(extract.parsed.value.fields, now, r.answer.value)
  {
    match model
    case FileEntry(_) =>
      // `includes` is not a function of a file: the `TypeError` is caught as an AI failure.
      Outcome(Failure(AnalysisFailed), s, t)
    case _ =>
      var tier := ModelTier(Requested(model));
      var t := t.(extraction := Some(ExtractionCall(tier, text)));
      match extract
      case ExtractThrows => Outcome(Failure(AnalysisFailed), s, t)
      case NoArguments => Outcome(Failure(AnalysisFailed), s, t)
      case Arguments(None) => Outcome(Failure(AnalysisFailed), s, t)
      case Arguments(Some(NullDoc)) => Outcome(Failure(AnalysisFailed), s, t)
      case Arguments(Some(NonObjectDoc)) => Outcome(Failure(NoTitle), s, t)
      case Arguments(Some(ObjectDoc(fields))) =>
        if !Truthy(Get(fields, "title")) then Outcome(Failure(NoTitle), s, t)
        else Persist(fields, now, dbUp, s, t)
  }

  /** Text extraction and the classifier. A parse failure is 500, too little text 400,
      and an explicit non-`YES` reply 400; a failing classifier call lets the request
      through. */
  function Analyse(model: FormEntry, o: Oracles, now: nat, s: Store): (r: Outcome)
    requires Valid(s)
    ensures WritesOnlyOnSuccess(s, r)
    ensures r.Status() in {200, 400, 500}
    ensures r.trace.pdfParsed
    ensures r.answer.Failure? ==> !(r.answer.error.NoKey? || r.answer.error.NoFile? || r.answer.error.NotPdf? || r.answer.error.TooLarge?)
    ensures r.Status() == 200 ==>
      && o.pdf.PdfText? && |Trim(o.pdf.text)| >= MinTextLength
      && !(o.classify.ClassifyReply? && !Accepted(o.classify.content))
      && r.trace.extraction == Some(ExtractionCall(ModelTier(Requested(model)), o.pdf.text))
  {
    match o.pdf
    case PdfThrows => Outcome(Failure(PdfFailed), s, Trace(true, None, None))
    case PdfText(text) =>
      if text == "" || |Trim(text)| < MinTextLength then
        Outcome(Failure(InsufficientText), s, Trace(true, None, None))
      else
        var t := Trace(true, Some(Take(text, ClassifierPrefix)), None);
        if o.classify.ClassifyReply? && !Accepted(o.classify.content) then
          Outcome(Failure(Rejected), s, t)
        else
          Extract(text, model, o.extract, o.dbUp, now, s, t)
  }

  /** The form checks, in order: a file must be present, a file (not a text field), of a
      type containing `application/pdf`, and at most `MaxSize` bytes; then its bytes are
      read, and a failed read goes to the outer `catch`. */
  function Received(file: FormEntry, model: FormEntry, o: Oracles, now: nat, s: Store): (r: Outcome)
    requires Valid(s)
    ensures WritesOnlyOnSuccess(s, r)
    ensures r.Status() in {200, 400, 408, 500, 503}
    ensures r.Status() in {408, 503} ==> o.readFails.Some?
    ensures !(file.FileEntry? && Contains(file.file.mediaType, PdfType) && file.file.size <= MaxSize && o.readFails.None?) ==>
      r.trace == NoCalls && r.Status() != 200
    ensures file.FileEntry? && Contains(file.file.mediaType, PdfType) && file.file.size <= MaxSize && o.readFails.Some? ==>
      r.answer == Failure(CatchAll(o.readFails.value))
    ensures file.FileEntry? && Contains(file.file.mediaType, PdfType) && file.file.size <= MaxSize && o.readFails.None? ==>
      r == Analyse(model, o, now, s)
  {
    match file
    case Missing => Outcome(Failure(NoFile), s, NoCalls)
    case TextEntry(v) =>
      if v == "" then Outcome(Failure(NoFile), s, NoCalls)
      else
        // `file.type` is undefined, and reading `includes` of it throws.
        TypeOfTextIsGeneric();
        Outcome(Failure(CatchAll(TypeOfText)), s, NoCalls)
    case FileEntry(f) =>
      if !Contains(f.mediaType, PdfType) then Outcome(Failure(NotPdf), s, NoCalls)
      else if f.size > MaxSize then Outcome(Failure(TooLarge), s, NoCalls)
      else if o.readFails.Some? then Outcome(Failure(CatchAll(o.readFails.value)), s, NoCalls)
      else Analyse(model, o, now, s)
  }

  /** `POST /api/jobs/upload`. */
  function Upload(env: Option<string>, o: Oracles, now: nat, s: Store): (r: Outcome)
    requires Valid(s)
    ensures WritesOnlyOnSuccess(s, r)
    ensures r.Status() in {200, 400, 408, 500, 503}
    ensures CleanKey(env) == "" ==> r == Outcome(Failure(NoKey), s, NoCalls)
    ensures r.Status() in {408, 503} ==> (o.form.FormThrows? || o.readFails.Some?) && r.trace == NoCalls
  {
    if CleanKey(env) == "" then Outcome(Failure(NoKey), s, NoCalls)
    else
      match o.form
      case FormThrows(e) => Outcome(Failure(CatchAll(e)), s, NoCalls)
      case Form(file, model) => Received(file, model, o, now, s)
  }

  // ---------------------------------------------------------------------------
  // Properties
  // ---------------------------------------------------------------------------

  /** The request passes the key check and every form check, and the file's bytes are
      read, so the PDF is parsed. */
  predicate Admitted(env: Option<string>, o: Oracles) {
    && CleanKey(env) != ""
    && o.form.Form?
    && o.form.file.FileEntry?
    && Contains(o.form.file.file.mediaType, PdfType)
    && o.form.file.file.size <= MaxSize
    && o.readFails.None?
  }

  /** The PDF parser is reached exactly when the request passes the gates before it; the
      checks that fail earlier reach no service. */
  lemma ParsedIffAdmitted(env: Option<string>, o: Oracles, now: nat, s: Store)
    requires Valid(s)
    ensures Upload(env, o, now, s).trace.pdfParsed <==> Admitted(env, o)
    ensures !Admitted(env, o) ==> Upload(env, o, now, s).trace == NoCalls
  {
  }

  /** The size ceiling is inclusive: a PDF of exactly 10 MiB is parsed, one byte more is
      refused as too large; a file whose type is not a PDF is refused whatever its size. */
  lemma SizeBoundary(env: Option<string>, mediaType: string, size: nat, model: FormEntry, o: Oracles, now: nat, s: Store)
    requires Valid(s)
    requires CleanKey(env) != ""
    ensures Contains(mediaType, PdfType) ==>
      Upload(env, o.(form := Form(FileEntry(File(mediaType, MaxSize)), model)), now, s).answer != Failure(TooLarge)
    ensures Contains(mediaType, PdfType) && o.readFails.None? ==>
      Upload(env, o.(form := Form(FileEntry(File(mediaType, MaxSize)), model)), now, s).trace.pdfParsed
    ensures Contains(mediaType, PdfType) ==>
      Upload(env, o.(form := Form(FileEntry(File(mediaType, MaxSize + 1)), model)), now, s)
      == Outcome(Failure(TooLarge), s, NoCalls)
    ensures !Contains(mediaType, PdfType) ==>
      Upload(env, o.(form := Form(FileEntry(File(mediaType, size)), model)), now, s)
      == Outcome(Failure(NotPdf), s, NoCalls)
  {
  }

  /** After parsing: a parse failure is a 500 and too little text a 400, neither reaching
      the classifier; enough text sends its first 2000 characters to the classifier. */
  lemma TextGate(env: Option<string>, o: Oracles, now: nat, s: Store)
    requires Valid(s) && Admitted(env, o)
    ensures o.pdf.PdfThrows? ==>
      Upload(env, o, now, s) == Outcome(Failure(PdfFailed), s, Trace(true, None, None))
    ensures o.pdf.PdfText? && |Trim(o.pdf.text)| < MinTextLength ==>
      Upload(env, o, now, s) == Outcome(Failure(InsufficientText), s, Trace(true, None, None))
    ensures o.pdf.PdfText? && |Trim(o.pdf.text)| >= MinTextLength ==>
      && Upload(env, o, now, s).trace.classifierInput == Some(Take(o.pdf.text, ClassifierPrefix))
      && |Take(o.pdf.text, ClassifierPrefix)| <= ClassifierPrefix
  {
  }

  /** A reply the classifier gives that is not `YES` never leads to a saved job: the
      collection is unchanged, and once the classifier was asked the answer is the
      rejection, with no extraction call. */
  lemma RejectedNeverPersists(env: Option<string>, o: Oracles, now: nat, s: Store)
    requires Valid(s)
    requires o.classify.ClassifyReply? && !Accepted(o.classify.content)
    ensures Upload(env, o, now, s).store == s
    ensures Upload(env, o, now, s).Status() != 200
    ensures Upload(env, o, now, s).trace.classifierInput.Some? ==>
      && Upload(env, o, now, s).answer == Failure(Rejected)
      && Upload(env, o, now, s).trace.extraction.None?
  {
  }

  /** The replies the classifier accepts: once trimmed, exactly three letters spelling
      `yes` in any mix of cases, where the long s `ſ` upper-cases to `S` as well. */
  lemma AcceptedReplies(content: Option<string>)
    ensures Accepted(content) <==>
      && content.Some?
      && var t := Trim(content.value);
      && |t| == 3
      && (t[0] == 'y' || t[0] == 'Y')
      && (t[1] == 'e' || t[1] == 'E')
      && (t[2] == 's' || t[2] == 'S' || t[2] == '\U{017F}')
  {
    if content.Some? {
      UpperIsYes(Trim(content.value));
    }
  }

  /** The classifier reads leniently: surrounding whitespace and letter case do not
      matter, but anything else, a missing content included, is a rejection. */
  lemma ClassifierVerdicts()
    ensures Accepted(Some("YES")) && Accepted(Some(" yes\n")) && Accepted(Some("Yes"))
    ensures !Accepted(None) && !Accepted(Some("NO")) && !Accepted(Some("YES.")) && !Accepted(Some(""))
  {
    TrimNoOp("YES");
    TrimNoOp("Yes");
    TrimNoOp("NO");
    TrimNoOp("YES.");
    assert Trim(" yes\n") == "yes" by {
      assert TrimStart(" yes\n") == "yes\n" by { assert " yes\n"[1..] == "yes\n"; }
      assert "yes\n"[..3] == "yes";
    }
    UpperIsYes("yes");
  }

  /** A failing classifier call lets the request through exactly as a `YES` reply does. */
  lemma ClassifierFailsOpen(env: Option<string>, o: Oracles, now: nat, s: Store)
    requires Valid(s)
    ensures Upload(env, o.(classify := ClassifyThrows), now, s)
         == Upload(env, o.(classify := ClassifyReply(Some("YES"))), now, s)
  {
    ClassifierVerdicts();
    if CleanKey(env) != "" && o.form.Form? {
      var (file, model) := (o.form.file, o.form.model);
      var (o1, o2) := (o.(classify := ClassifyThrows), o.(classify := ClassifyReply(Some("YES"))));
      if file.FileEntry? && Contains(file.file.mediaType, PdfType) && file.file.size <= MaxSize {
        assert Analyse(model, o1, now, s) == Analyse(model, o2, now, s);
      }
    }
  }

  /** A successful upload went through every step: the gates, a text long enough, a
      classifier that did not reject it, an extraction call with the tier's model on the
      full text, an object payload with a title, and a working database; the job holds
      the extracted fields as `Stored` describes. */
  lemma UploadedJob(env: Option<string>, o: Oracles, now: nat, s: Store)
    requires Valid(s)
    requires Upload(env, o, now, s).Status() == 200
    ensures Upload(env, o, now, s).answer.Success?
    ensures Admitted(env, o) && o.dbUp
    ensures o.pdf.PdfText? && |Trim(o.pdf.text)| >= MinTextLength
    ensures !(o.classify.ClassifyReply? && !Accepted(o.classify.content))
    ensures Upload(env, o, now, s).trace.extraction
         == Some(ExtractionCall(ModelTier(Requested(o.form.model)), o.pdf.text))
    ensures o.extract.Arguments? && o.extract.parsed.Some? && o.extract.parsed.value.ObjectDoc?
    ensures Truthy(Get(o.extract.parsed.value.fields, "title"))
    ensures Stored(o.extract.parsed.value.fields, now, Upload(env, o, now, s).answer.value)
  {
  }

  /** When every step before the save succeeds, the route's answer is the save's. */
  lemma ReachesSave(env: Option<string>, o: Oracles, now: nat, s: Store)
    requires Valid(s) && Admitted(env, o)
    requires o.pdf.PdfText? && |Trim(o.pdf.text)| >= MinTextLength
    requires !(o.classify.ClassifyReply? && !Accepted(o.classify.content))
    requires !o.form.model.FileEntry?
    requires o.extract.Arguments? && o.extract.parsed.Some? && o.extract.parsed.value.ObjectDoc?
    requires Truthy(Get(o.extract.parsed.value.fields, "title"))
    ensures Upload(env, o, now, s)
         == Persist(o.extract.parsed.value.fields, now, o.dbUp, s,
                    Trace(true, Some(Take(o.pdf.text, ClassifierPrefix)),
                          Some(ExtractionCall(ModelTier(Requested(o.form.model)), o.pdf.text))))
  {
    var t := Trace(true, Some(Take(o.pdf.text, ClassifierPrefix)), None);
    assert Upload(env, o, now, s) == Analyse(o.form.model, o, now, s);
    assert Analyse(o.form.model, o, now, s) == Extract(o.pdf.text, o.form.model, o.extract, o.dbUp, now, s, t);
  }

  /** An extraction without a description cannot be saved: `description` is a required
      path of the schema, so `createJob` throws and the route reports a failed save. */
  lemma DescriptionRequired(o: Object, now: nat, dbUp: bool, s: Store, t: Trace)
    requires Valid(s)
    requires !PresentText(Get(o, "description"), false)
    ensures Persist(o, now, dbUp, s, t) == Outcome(Failure(SaveFailed), s, t)
  {
    assert Get(CreationData(SaveData(o, now)), "description") == Get(o, "description");
  }

  /** The title `Senior Backend Engineer` of the Acme listing used below. */
  const AcmeTitle: string := Sentence(["Senior", "Backend", "Engineer"])

  lemma AcmeTitleTrimmed()
    ensures Trim(AcmeTitle) == AcmeTitle
  {
    assert AcmeTitle == "Senior" + [' '] + ("Backend" + [' '] + "Engineer");
    TrimNoOp(AcmeTitle);
  }

  /** An extraction with title `Senior Backend Engineer`, company `Acme Corp` and an empty
      location, with or without a description. */
  function AcmeFields(description: Option<string>): Object {
    var o := map["title" := Str(AcmeTitle), "company" := Str("Acme Corp"), "location" := Str("")];
    if description.Some? then o["description" := Str(description.value)] else o
  }

  /** With a description, the Acme fields are saved with the defaulted location. */
  lemma AcmePersisted(description: string, now: nat, s: Store, t: Trace)
    requires Valid(s) && description != ""
    ensures var r := Persist(AcmeFields(Some(description)), now, true, s, t);
      && r.answer.Success?
      && r.answer.value.title == AcmeTitle
      && r.answer.value.company == "Acme Corp"
      && r.answer.value.location == Some(DefaultLocation)
      && r.answer.value.status == Active
      && r.answer.value.applicants == 0
  {
    AcmeAcceptable(description, now);
    var r := Persist(AcmeFields(Some(description)), now, true, s, t);
    assert r.Status() == 200;
    AcmeStored(description, now, r.answer.value);
  }

  /** What `Stored` says of a job saved from the Acme fields. */
  lemma AcmeStored(description: string, now: nat, job: Job)
    requires Stored(AcmeFields(Some(description)), now, job)
    ensures job.title == AcmeTitle && job.company == "Acme Corp" && job.location == Some(DefaultLocation)
    ensures job.status == Active && job.applicants == 0
  {
    AcmeFieldsPaths(description);
    AcmeTitleTrimmed();
    TrimNoOp("Acme Corp");
  }

  /** The schema accepts the Acme fields once a description is added. */
  lemma AcmeAcceptable(description: string, now: nat)
    requires description != ""
    ensures Acceptable(CreationData(SaveData(AcmeFields(Some(description)), now)))
  {
    AcmeData(description, now);
    AcmeTitleTrimmed();
    TrimNoOp("Acme Corp");
    TrimNoOp(DefaultLocation);
  }

  /** The object the Acme fields hand to the schema, path by path. */
  lemma AcmeData(description: string, now: nat)
    ensures var d := CreationData(SaveData(AcmeFields(Some(description)), now));
      && Get(d, "title") == Str(AcmeTitle)
      && Get(d, "company") == Str("Acme Corp")
      && Get(d, "location") == Str(DefaultLocation)
      && Get(d, "salary") == Undefined
      && Get(d, "description") == Str(description)
      && Get(d, "requirements") == Undefined && Get(d, "benefits") == Undefined
      && Get(d, "status") == Str("active") && Get(d, "applicants") == Num(0)
      && Get(d, "createdAt") == Num(now)
  {
    AcmeFieldsPaths(description);
    CreationDataPaths(SaveData(AcmeFields(Some(description)), now));
  }

  /** The Acme fields, path by path. */
  lemma AcmeFieldsPaths(description: string)
    ensures var o := AcmeFields(Some(description));
      && Get(o, "title") == Str(AcmeTitle) && Get(o, "company") == Str("Acme Corp")
      && Get(o, "location") == Str("") && Get(o, "salary") == Undefined
      && Get(o, "description") == Str(description)
      && Get(o, "requirements") == Undefined && Get(o, "benefits") == Undefined
  {
  }

  /** A PDF upload of enough text, classified `YES`, whose extraction gives `fields`. */
  function AcmeOracles(text: string, model: FormEntry, fields: Object): Oracles {
    Oracles(Form(FileEntry(File(PdfType, 1024)), model), None, PdfText(text),
            ClassifyReply(Some("YES")), Arguments(Some(ObjectDoc(fields))), true)
  }

  /** The Acme extraction, with a title, a company and an empty location but no
      description: the schema refuses the job and the route answers that saving
      failed. */
  lemma AcmeWithoutDescriptionRefused(env: Option<string>, text: string, model: FormEntry, now: nat, s: Store)
    requires Valid(s)
    requires CleanKey(env) != ""
    requires |Trim(text)| >= MinTextLength && !model.FileEntry?
    ensures Upload(env, AcmeOracles(text, model, AcmeFields(None)), now, s)
         == Outcome(Failure(SaveFailed), s,
                    Trace(true, Some(Take(text, ClassifierPrefix)), Some(ExtractionCall(ModelTier(Requested(model)), text))))
  {
    var f := AcmeFields(None);
    assert Truthy(Get(f, "title")) by { AcmeTitleTrimmed(); }
    var t := Trace(true, Some(Take(text, ClassifierPrefix)), Some(ExtractionCall(ModelTier(Requested(model)), text)));
    assert Get(f, "description") == Undefined;
    DescriptionRequired(f, now, true, s, t);
    AcmeReachesSave(env, text, model, f, now, s);
  }

  /** A PDF upload classified `YES` passes every step before the save, whatever fields
      the extraction returns, as long as they have a title. */
  lemma AcmeReachesSave(env: Option<string>, text: string, model: FormEntry, f: Object, now: nat, s: Store)
    requires Valid(s)
    requires CleanKey(env) != ""
    requires |Trim(text)| >= MinTextLength && !model.FileEntry?
    requires Truthy(Get(f, "title"))
    ensures Upload(env, AcmeOracles(text, model, f), now, s)
         == Persist(f, now, true, s, Trace(true, Some(Take(text, ClassifierPrefix)), Some(ExtractionCall(ModelTier(Requested(model)), text))))
  {
    var oracles := AcmeOracles(text, model, f);
    assert Admitted(env, oracles) by { ContainsSelf(PdfType); }
    assert Accepted(oracles.classify.content) by { ClassifierVerdicts(); }
    ReachesSave(env, oracles, now, s);
  }

  /** The Acme extraction with a description added: the job is saved with the location
      `Remote`, status active and no applicants. */
  lemma AcmeWithDescriptionSaved(env: Option<string>, text: string, model: FormEntry, description: string, now: nat, s: Store)
    requires Valid(s)
    requires CleanKey(env) != ""
    requires |Trim(text)| >= MinTextLength && !model.FileEntry?
    requires description != ""
    ensures var r := Upload(env, AcmeOracles(text, model, AcmeFields(Some(description))), now, s);
      && r.answer.Success?
      && r.answer.value.title == AcmeTitle
      && r.answer.value.company == "Acme Corp"
      && r.answer.value.location == Some("Remote")
      && r.answer.value.status == Active
      && r.answer.value.applicants == 0
  {
    var f := AcmeFields(Some(description));
    assert Truthy(Get(f, "title")) by { AcmeTitleTrimmed(); }
    var t := Trace(true, Some(Take(text, ClassifierPrefix)), Some(ExtractionCall(ModelTier(Requested(model)), text)));
    AcmeReachesSave(env, text, model, f, now, s);
    AcmePersisted(description, now, s, t);
  }
}
