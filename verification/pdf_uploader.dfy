/** The handlers of app/components/PdfUploader.jsx: a stricter file-type gate than the
    server's, a choice among three models, and a submission whose outcome is an input.
    Rendering is not modelled; handlers run one after another. */
module PdfUploader {
  import opened Wrappers
  import opened Text
  import opened JobStore
  import opened Http
  import opened Env
  import opened UploadRoute

  /** The component's state variables; `redirect` is the id of the job page the router
      was sent to, if any. */
  datatype UploaderState = UploaderState(
    file: Option<File>,
    model: string,
    loading: bool,
    error: string,
    progress: string,
    redirect: Option<nat>)

  /** The first render. */
  const Initial: UploaderState := UploaderState(None, "", false, "", "", None)

  /** The values of the model selector's options (its placeholder has the value `""`). */
  const ModelOptions: seq<string> := ["gpt-4", "gpt-3.5-turbo", "gpt-4-turbo"]

  const WrongTypeText: string := Sentence(["Please", "upload", "a", "PDF", "file"])
  const NoFileText: string := Sentence(["Please", "select", "a", "PDF", "file"])
  const NoModelText: string := Sentence(["Please", "select", "an", "OpenAI", "model"])
  const ProcessingFailedText: string := Sentence(["Error", "processing", "PDF"])
  const UploadFailedText: string := Sentence(["Error", "uploading", "or", "processing", "PDF"])
  const UploadingProgress: string := Sentence(["Uploading", "PDF", "and", "extracting", "content..."])
  const DoneProgress: string := Sentence(["Job", "information", "extracted", "successfully!"])
  /** What reading `data.job.id` throws when a 2xx body has no `job`. */
  const NoJobText: string := Sentence(["Cannot", "read", "properties", "of", "undefined", "(reading", "'id')"])

  // ---------------------------------------------------------------------------
  // Handlers
  // ---------------------------------------------------------------------------

  /** `handleFileChange`: a file whose type is not exactly `application/pdf` is refused
      and clears the selection; otherwise the selection (possibly none) is taken and the
      error cleared. */
  function FileChange(s: UploaderState, selected: Option<File>): (r: UploaderState)
    ensures r.file.Some? ==> r.file.value.mediaType == PdfType
    ensures selected.Some? && selected.value.mediaType != PdfType ==> r == s.(file := None, error := WrongTypeText)
    ensures !(selected.Some? && selected.value.mediaType != PdfType) ==> r == s.(file := selected, error := "")
  {
    if selected.Some? && selected.value.mediaType != PdfType then s.(file := None, error := WrongTypeText)
    else s.(file := selected, error := "")
  }

  /** The selector's `onChange`. */
  function ChooseModel(s: UploaderState, m: string): (r: UploaderState)
    ensures r == s.(model := m)
  {
    s.(model := m)
  }

  /** What `handleSubmit` sends: the file and the model, as the route reads its form. */
  datatype Request = Request(file: File, model: string)

  function AsForm(q: Request): FormOutcome {
    Form(FileEntry(q.file), TextEntry(q.model))
  }

  /** `handleSubmit` up to the request: the file is checked before the model, and either
      failure sets its message and sends nothing. */
  function Start(s: UploaderState): (r: (UploaderState, Option<Request>))
    ensures r.1.Some? <==> s.file.Some? && s.model != ""
    ensures s.file.None? ==> r.0 == s.(error := NoFileText)
    ensures s.file.Some? && s.model == "" ==> r.0 == s.(error := NoModelText)
    ensures r.1.Some? ==>
      && r.1.value == Request(s.file.value, s.model)
      && r.0 == s.(loading := true, error := "", progress := UploadingProgress)
  {
    if s.file.None? then (s.(error := NoFileText), None)
    else if s.model == "" then (s.(error := NoModelText), None)
    else (s.(loading := true, error := "", progress := UploadingProgress), Some(Request(s.file.value, s.model)))
  }

  /** How the request ends: `fetch` rejects with a message, or the route answers. */
  datatype Reply = FetchFails(message: string) | Replied(response: Response)

  /** The error a non-ok response surfaces: the route's `error` text when it is non-empty,
      otherwise the fallback. */
  function NotOkText(response: Response): (m: string)
    ensures m != ""
    ensures ErrorText(response).Some? && ErrorText(response).value != "" ==> m == ErrorText(response).value
    ensures !(ErrorText(response).Some? && ErrorText(response).value != "") ==> m == ProcessingFailedText
  {
    var e := ErrorText(response);
    if e.Some? && e.value != "" then e.value else ProcessingFailedText
  }

  /** The rest of `handleSubmit`: a 2xx response carrying a job sends the router to its
      page; anything else sets an error (a thrown error's message, or the fallback when it
      is empty). In every case loading ends. */
  function Finish(s: UploaderState, reply: Reply): (r: UploaderState)
    ensures !r.loading && r.file == s.file && r.model == s.model
    ensures r.redirect != s.redirect ==>
      reply.Replied? && IsOk(reply.response) && reply.response.body.JobBody? && r.redirect == Some(reply.response.body.job.id)
    ensures reply.Replied? && !IsOk(reply.response) ==> r.error == NotOkText(reply.response) && r.redirect == s.redirect
    ensures reply.FetchFails? ==> r.error == (if reply.message != "" then reply.message else UploadFailedText)
    ensures reply.Replied? && IsOk(reply.response) && reply.response.body.JobBody? ==>
      r.redirect == Some(reply.response.body.job.id) && r.progress == DoneProgress && r.error == s.error
  {
    var s := s.(loading := false);
    match reply
    case FetchFails(m) => s.(error := if m != "" then m else UploadFailedText)
    case Replied(response) =>
      if !IsOk(response) then s.(error := NotOkText(response))
      else if response.body.JobBody? then s.(progress := DoneProgress, redirect := Some(response.body.job.id))
      else s.(progress := DoneProgress, error := NoJobText)
  }

  /** `response.ok`. */
  predicate IsOk(response: Response) {
    200 <= response.status < 300
  }

  /** `handleSubmit`: the checks, then, when a request was sent, its outcome. */
  function Submit(s: UploaderState, reply: Reply): (r: (UploaderState, Option<Request>))
    ensures r.1 == Start(s).1
    ensures r.1.None? ==> r.0 == Start(s).0
    ensures r.1.Some? ==> r.0 == Finish(Start(s).0, reply)
  {
    var (started, request) := Start(s);
    if request.Some? then (Finish(started, reply), request) else (started, None)
  }

  // ---------------------------------------------------------------------------
  // Properties
  // ---------------------------------------------------------------------------

  /** An event of the component. */
  datatype Event =
    | ChooseFile(selected: Option<File>)
    | SelectModel(model: string)
    | SubmitForm(reply: Reply)

  function Step(s: UploaderState, e: Event): UploaderState {
    match e
    case ChooseFile(selected) => FileChange(s, selected)
    case SelectModel(m) => ChooseModel(s, m)
    case SubmitForm(reply) => Submit(s, reply).0
  }

  /** The state after a run of events. */
  function Run(s: UploaderState, es: seq<Event>): UploaderState
    decreases |es|
  {
    if es == [] then s else Run(Step(s, es[0]), es[1..])
  }

  /** Between events nothing is loading, and a held file is exactly of the PDF type. */
  predicate Settled(s: UploaderState) {
    !s.loading && (s.file.Some? ==> s.file.value.mediaType == PdfType)
  }

  lemma StepKeepsSettled(s: UploaderState, e: Event)
    requires Settled(s)
    ensures Settled(Step(s, e))
  {
  }

  /** From a settled state, any run of events keeps the component settled, so every file
      it sends is of the PDF type. */
  lemma {:induction false} RunKeepsSettled(s: UploaderState, es: seq<Event>)
    requires Settled(s)
    ensures Settled(Run(s, es))
    ensures Start(Run(s, es)).1.Some? ==> Start(Run(s, es)).1.value.file.mediaType == PdfType
    decreases |es|
  {
    if es != [] {
      StepKeepsSettled(s, es[0]);
      RunKeepsSettled(Step(s, es[0]), es[1..]);
    }
  }

  /** What the component sends is never refused by the route as not a PDF: the exact type
      contains itself. The route still applies its size limit, which this component does
      not check. */
  lemma ClientTypePassesServer(env: Option<string>, q: Request, o: Oracles, now: nat, s: Store)
    requires Valid(s)
    requires q.file.mediaType == PdfType
    ensures Upload(env, o.(form := AsForm(q)), now, s).answer != Failure(NotPdf)
    ensures CleanKey(env) != "" && q.file.size > MaxSize ==>
      Upload(env, o.(form := AsForm(q)), now, s).answer == Failure(TooLarge)
  {
    ContainsSelf(PdfType);
  }

  /** `gpt-4` and `gpt-4-turbo` reach the route's quality tier, `gpt-3.5-turbo` its fast
      tier. */
  lemma OptionTiers()
    ensures ModelTier(Some(ModelOptions[0])) == QualityModel
    ensures ModelTier(Some(ModelOptions[1])) == FastModel
    ensures ModelTier(Some(ModelOptions[2])) == QualityModel
  {
    ContainsSelf(QualityMarker);
    StartsWithContains(ModelOptions[2], QualityMarker);
    CannotContain(ModelOptions[1], QualityMarker, '4');
  }
}
