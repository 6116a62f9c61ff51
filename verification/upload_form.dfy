/** The handlers of components/job-upload-form.tsx as a state machine: choosing a file,
    submitting it (with the request's outcome as an input), retrying, and starting over.
    Rendering is not modelled; handlers run one after another. */
module UploadForm {
  import opened Wrappers
  import opened Text
  import opened JobStore
  import opened Http
  import opened UploadRoute

  // ---------------------------------------------------------------------------
  // State
  // ---------------------------------------------------------------------------

  /** The component's state variables. */
  datatype FormState = FormState(
    file: Option<File>,
    isUploading: bool,
    stage: Option<string>,
    error: Option<string>,
    jobData: Option<Job>,
    retryCount: nat)

  /** The first render. */
  const Initial: FormState := FormState(None, false, None, None, None, 0)

  /** The retry counter never passes 2. */
  const MaxRetries: nat := 2

  /** Between handler runs nothing is in flight, and the retry counter is within bounds. */
  predicate Idle(s: FormState) {
    !s.isUploading && s.stage.None? && s.retryCount <= MaxRetries
  }

  // Client-side messages and the model the form always requests.
  const NoFileSelected: string := Sentence(["Please", "select", "a", "PDF", "file"])
  const ClientTooLarge: string := TooLargeMessage
  const UploadFailed: string := Sentence(["Failed", "to", "upload", "file"])
  const ClientTookTooLong: string := Sentence(["Processing", "took", "too", "long.", "Please", "try", "again", "or", "use", "a", "different", "file."])
  const UploadingStage: string := Sentence(["Uploading", "PDF", "file..."])
  const ExtractingStage: string := Sentence(["Extracting", "text", "from", "PDF..."])
  const RequestedModel: string := QualityModel

  // ---------------------------------------------------------------------------
  // Choosing a file
  // ---------------------------------------------------------------------------

  /** `handleFileChange`: a non-empty selection sets the file, clears the error and resets
      the retry counter; an empty one changes nothing. */
  function FileChange(s: FormState, chosen: seq<File>): (r: FormState)
    ensures |chosen| > 0 ==> r == s.(file := Some(chosen[0]), error := None, retryCount := 0)
    ensures |chosen| == 0 ==> r == s
  {
    if |chosen| > 0 then s.(file := Some(chosen[0]), error := None, retryCount := 0) else s
  }

  // ---------------------------------------------------------------------------
  // Submitting
  // ---------------------------------------------------------------------------

  /** How the request ends: the 60-second abort fires, `fetch` rejects with an error
      message, or the server answers. */
  datatype RequestOutcome =
    | Aborted
    | NetworkError(message: string)
    | Answered(response: Response)

  /** `response.ok`: a status in the 2xx range. */
  predicate Succeeded(o: RequestOutcome) {
    o.Answered? && 200 <= o.response.status < 300
  }

  /** The message a failed request leaves: the thrown error's message, or the server's
      `error` text when it is non-empty, otherwise the fallback. */
  function FailureText(o: RequestOutcome): (m: string)
    requires !o.Aborted? && !Succeeded(o)
    ensures o.NetworkError? ==> m == o.message
    ensures o.Answered? && ErrorText(o.response).Some? && ErrorText(o.response).value != "" ==> m == ErrorText(o.response).value
    ensures o.Answered? && (ErrorText(o.response).None? || ErrorText(o.response).value == "") ==> m == UploadFailed
  {
    match o
    case NetworkError(m) => m
    case Answered(response) =>
      var e := ErrorText(response);
      if e.Some? && e.value != "" then e.value else UploadFailed
  }

  /** The `job` of a successful response body, if it has one. */
  function JobOf(response: Response): Option<Job> {
    if response.body.JobBody? then Some(response.body.job) else None
  }

  /** A message the form treats as worth retrying. */
  predicate RetryWorthy(m: string) {
    Contains(m, "service") || Contains(m, "timeout") || Contains(m, "try again")
  }

  /** The request that is sent: the file and the model. */
  datatype UploadRequest = UploadRequest(file: File, model: string)

  /** `handleSubmit` up to the request: without a file, or with one over the size limit,
      an error is set and nothing is sent; otherwise the form is uploading. */
  function Start(s: FormState): (r: (FormState, Option<UploadRequest>))
    ensures r.1.Some? <==> s.file.Some? && s.file.value.size <= MaxSize
    ensures s.file.None? ==> r.0 == s.(error := Some(NoFileSelected))
    ensures s.file.Some? && s.file.value.size > MaxSize ==> r.0 == s.(error := Some(ClientTooLarge))
    ensures r.1.Some? ==>
      && r.1.value == UploadRequest(s.file.value, RequestedModel)
      && r.0 == s.(isUploading := true, error := None, stage := Some(ExtractingStage))
  {
    match s.file
    case None => (s.(error := Some(NoFileSelected)), None)
    case Some(f) =>
      if f.size > MaxSize then (s.(error := Some(ClientTooLarge)), None)
      else (s.(isUploading := true, error := None, stage := Some(ExtractingStage)), Some(UploadRequest(f, RequestedModel)))
  }

  /** The rest of `handleSubmit`, once the request has ended: a success stores the job and
      resets the counter; an abort sets the fixed time-out message and leaves the counter;
      any other failure shows its message and counts a retry when the message is worth
      one and fewer than two were counted. In every case the form stops uploading. */
  function Finish(s: FormState, o: RequestOutcome): (r: FormState)
    ensures !r.isUploading && r.stage.None?
    ensures r.file == s.file
    ensures Succeeded(o) ==> r.jobData == JobOf(o.response) && r.retryCount == 0 && r.error == s.error
    ensures !Succeeded(o) ==> r.jobData == s.jobData
    ensures o.Aborted? ==> r.error == Some(ClientTookTooLong) && r.retryCount == s.retryCount
    ensures !Succeeded(o) && !o.Aborted? ==>
      && r.error == Some(FailureText(o))
      && r.retryCount == if RetryWorthy(FailureText(o)) && s.retryCount < MaxRetries then s.retryCount + 1 else s.retryCount
  {
    var s := s.(isUploading := false, stage := None);
    if Succeeded(o) then s.(jobData := JobOf(o.response), retryCount := 0)
    else if o.Aborted? then s.(error := Some(ClientTookTooLong))
    else
      var m := FailureText(o);
      var count := if RetryWorthy(m) && s.retryCount < MaxRetries then s.retryCount + 1 else s.retryCount;
      s.(error := Some(m), retryCount := count)
  }

  /** `handleSubmit`: the checks, then, when a request was sent, its outcome. The older
      uploader's `handleSubmit` has the same shape (`PdfUploader.Submit`) over its own
      state and handlers. */
  function Submit(s: FormState, o: RequestOutcome): (r: (FormState, Option<UploadRequest>))
    ensures r.1 == Start(s).1
    ensures r.1.None? ==> r.0 == Start(s).0
    ensures r.1.Some? ==> r.0 == Finish(Start(s).0, o)
  {
    var (started, request) := Start(s);
    if request.Some? then (Finish(started, o), request) else (started, None)
  }

  /** The "Retry Processing" button is shown: there is an error and a retry was counted. */
  predicate RetryOffered(s: FormState) {
    s.error.Some? && s.error.value != "" && s.retryCount > 0
  }

  /** `handleRetry`: a new submission when a file is chosen. */
  function Retry(s: FormState, o: RequestOutcome): (r: (FormState, Option<UploadRequest>))
    ensures s.file.None? ==> r == (s, None)
    ensures s.file.Some? ==> r == Submit(s, o)
  {
    if s.file.Some? then Submit(s, o) else (s, None)
  }

  /** The "Upload Another" button: the file and the result are cleared. */
  function UploadAnother(s: FormState): (r: FormState)
    ensures r == s.(file := None, jobData := None)
  {
    s.(file := None, jobData := None)
  }

  // ---------------------------------------------------------------------------
  // Properties
  // ---------------------------------------------------------------------------

  /** An event of the form. */
  datatype Event =
    | ChooseFiles(chosen: seq<File>)
    | SubmitForm(outcome: RequestOutcome)
    | RetryForm(outcome: RequestOutcome)
    | StartOver

  function Step(s: FormState, e: Event): FormState {
    match e
    case ChooseFiles(chosen) => FileChange(s, chosen)
    case SubmitForm(o) => Submit(s, o).0
    case RetryForm(o) => Retry(s, o).0
    case StartOver => UploadAnother(s)
  }

  /** The state after a run of events. */
  function Run(s: FormState, es: seq<Event>): FormState
    decreases |es|
  {
    if es == [] then s else Run(Step(s, es[0]), es[1..])
  }

  /** Every handler keeps the form idle between events, so the retry counter stays
      within 0..2. */
  lemma StepKeepsIdle(s: FormState, e: Event)
    requires Idle(s)
    ensures Idle(Step(s, e))
  {
  }

  /** From the first render, any run of events leaves the form idle with at most two
      retries counted. */
  lemma {:induction false} RunKeepsIdle(s: FormState, es: seq<Event>)
    requires Idle(s)
    ensures Idle(Run(s, es))
    ensures Run(s, es).retryCount <= MaxRetries
    decreases |es|
  {
    if es != [] {
      StepKeepsIdle(s, es[0]);
      RunKeepsIdle(Step(s, es[0]), es[1..]);
    }
  }

  /** A file of exactly 10 MiB is sent; one byte more is refused without a request, as the
      server would. */
  lemma SizeGateMatchesServer(s: FormState, mediaType: string)
    ensures Start(s.(file := Some(File(mediaType, MaxSize)))).1.Some?
    ensures Start(s.(file := Some(File(mediaType, MaxSize + 1)))).1.None?
    ensures Start(s.(file := Some(File(mediaType, MaxSize + 1)))).0.error == Some(TooLargeMessage)
  {
  }

  /** The model the form sends reaches the route's quality tier. */
  lemma RequestsQualityTier()
    ensures ModelTier(Some(RequestedModel)) == QualityModel
  {
    StartsWithContains(RequestedModel, QualityMarker);
  }

  // ---------------------------------------------------------------------------
  // Which of the route's failures count a retry
  // ---------------------------------------------------------------------------

  /** A word that mentions none of `service`, `timeout` and `again`. */
  predicate Quiet(w: string) {
    !Contains(w, "service") && !Contains(w, "timeout") && !Contains(w, "again")
  }

  /** A word is quiet when, for each pattern, it is too short for it or misses one of its
      characters. */
  lemma QuietWord(w: string, s: char, t: char, a: char)
    requires |w| < 7 || (s in "service" && s !in w)
    requires |w| < 7 || (t in "timeout" && t !in w)
    requires |w| < 5 || (a in "again" && a !in w)
    ensures Quiet(w)
  {
    CannotContain(w, "service", s);
    CannotContain(w, "timeout", t);
    CannotContain(w, "again", a);
  }

  /** A message made of quiet words is not worth a retry. */
  lemma QuietSentence(ws: seq<string>)
    requires forall k :: 0 <= k < |ws| ==> Quiet(ws[k])
    ensures !RetryWorthy(Sentence(ws))
  {
    NoWordContains(ws, ' ', "service");
    NoWordContains(ws, ' ', "timeout");
    NoWordContains(ws, ' ', "again");
    if Contains(Sentence(ws), "try again") {
      assert "try again" == "try " + "again";
      ContainsSuffix(Sentence(ws), "try ", "again");
    }
  }

  /** `try again` followed by anything is worth a retry wherever it occurs between two
      words of a sentence. */
  lemma TryAgainWorthy(ws: seq<string>, k: int)
    requires 0 <= k < |ws| - 1 && ws[k] == "try" && |ws[k + 1]| >= 5 && ws[k + 1][..5] == "again"
    ensures RetryWorthy(Sentence(ws))
  {
    var pair := ws[k] + [' '] + ws[k + 1];
    JoinContainsNeighbours(ws, ' ', k);
    assert pair[..9] == "try again";
    StartsWithContains(pair, "try again");
    ContainsTransitive(Sentence(ws), pair, "try again");
  }

  // Each lemma below proves one of the route's fixed messages quiet word by word. For
  // every word it names, per pattern, a character of `service`, `timeout` or `again`
  // that the word lacks; words shorter than a pattern need no witness for it, and the
  // characters passed then only fill the slot. The choice is `s`, `t`, `a` wherever the
  // word lacks them, and another character of the same pattern where it does not.

  lemma QuietNoKey()
    ensures !RetryWorthy(NoKeyMessage)
  {
    var ws := NoKeyWords;
    assert Quiet(ws[0]) && Quiet(ws[1]) && Quiet(ws[2]) && Quiet(ws[3]) && Quiet(ws[4]) && Quiet(ws[5]) && Quiet(ws[6]) && Quiet(ws[7]) && Quiet(ws[8]) by {
      QuietWord(ws[0], 's', 't', 'a');
      QuietWord(ws[1], 'e', 'e', 'g');
      QuietWord(ws[2], 's', 't', 'a');
      QuietWord(ws[3], 's', 't', 'a');
      QuietWord(ws[4], 's', 't', 'a');
      QuietWord(ws[5], 's', 't', 'a');
      QuietWord(ws[6], 's', 't', 'a');
      QuietWord(ws[7], 's', 't', 'a');
      QuietWord(ws[8], 's', 't', 'a');
    }
    QuietSentence(ws);
  }

  lemma QuietNoFile()
    ensures !RetryWorthy(NoFileMessage)
  {
    var ws := NoFileWords;
    assert Quiet(ws[0]) && Quiet(ws[1]) && Quiet(ws[2]) by {
      QuietWord(ws[0], 's', 't', 'a');
      QuietWord(ws[1], 's', 't', 'a');
      QuietWord(ws[2], 's', 't', 'a');
    }
    QuietSentence(ws);
  }

  lemma QuietNotPdf()
    ensures !RetryWorthy(NotPdfMessage)
  {
    var ws := NotPdfWords;
    assert Quiet(ws[0]) && Quiet(ws[1]) && Quiet(ws[2]) && Quiet(ws[3]) && Quiet(ws[4]) by {
      QuietWord(ws[0], 's', 't', 'a');
      QuietWord(ws[1], 's', 't', 'a');
      QuietWord(ws[2], 's', 't', 'a');
      QuietWord(ws[3], 's', 't', 'a');
      QuietWord(ws[4], 's', 't', 'a');
    }
    QuietSentence(ws);
  }

  lemma QuietTooLarge()
    ensures !RetryWorthy(TooLargeMessage)
  {
    var ws := TooLargeWords;
    assert Quiet(ws[0]) && Quiet(ws[1]) && Quiet(ws[2]) && Quiet(ws[3]) && Quiet(ws[4]) by {
      QuietWord(ws[0], 's', 't', 'a');
      QuietWord(ws[1], 's', 't', 'a');
      QuietWord(ws[2], 'r', 't', 'a');
      QuietWord(ws[3], 's', 't', 'a');
      QuietWord(ws[4], 's', 't', 'a');
    }
    QuietSentence(ws);
  }

  lemma QuietInsufficientText()
    ensures !RetryWorthy(InsufficientTextMessage)
  {
    var ws := InsufficientTextWords;
    assert Quiet(ws[0]) && Quiet(ws[1]) && Quiet(ws[2]) && Quiet(ws[3]) && Quiet(ws[4]) && Quiet(ws[5]) && Quiet(ws[6]) && Quiet(ws[7]) by {
      QuietWord(ws[0], 's', 't', 'a');
      QuietWord(ws[1], 's', 't', 'a');
      QuietWord(ws[2], 'e', 'm', 'g');
      QuietWord(ws[3], 'r', 'm', 'a');
      QuietWord(ws[4], 's', 't', 'a');
      QuietWord(ws[5], 's', 'i', 'a');
      QuietWord(ws[6], 's', 't', 'a');
      QuietWord(ws[7], 'v', 't', 'a');
    }
    QuietSentence(ws);
  }

  lemma QuietPdfFailed()
    ensures !RetryWorthy(PdfFailedMessage)
  {
    var ws := PdfFailedWords;
    assert Quiet(ws[0]) && Quiet(ws[1]) && Quiet(ws[2]) && Quiet(ws[3]) && Quiet(ws[4]) && Quiet(ws[5]) && Quiet(ws[6]) && Quiet(ws[7]) && Quiet(ws[8]) && Quiet(ws[9]) && Quiet(ws[10]) && Quiet(ws[11]) && Quiet(ws[12]) by {
      QuietWord(ws[0], 's', 't', 'g');
      QuietWord(ws[1], 's', 't', 'a');
      QuietWord(ws[2], 's', 'i', 'g');
      QuietWord(ws[3], 's', 't', 'a');
      QuietWord(ws[4], 's', 't', 'a');
      QuietWord(ws[5], 's', 't', 'a');
      QuietWord(ws[6], 's', 't', 'a');
      QuietWord(ws[7], 's', 't', 'a');
      QuietWord(ws[8], 's', 't', 'a');
      QuietWord(ws[9], 's', 't', 'a');
      QuietWord(ws[10], 's', 'i', 'a');
      QuietWord(ws[11], 's', 't', 'a');
      QuietWord(ws[12], 'v', 'i', 'g');
    }
    QuietSentence(ws);
  }

  lemma QuietRejected()
    ensures !RetryWorthy(RejectedMessage)
  {
    var ws := RejectedWords;
    assert Quiet(ws[0]) && Quiet(ws[1]) && Quiet(ws[2]) && Quiet(ws[3]) && Quiet(ws[4]) && Quiet(ws[5]) && Quiet(ws[6]) && Quiet(ws[7]) && Quiet(ws[8]) && Quiet(ws[9]) && Quiet(ws[10]) && Quiet(ws[11]) && Quiet(ws[12]) && Quiet(ws[13]) by {
      QuietWord(ws[0], 's', 't', 'a');
      QuietWord(ws[1], 's', 't', 'a');
      QuietWord(ws[2], 's', 't', 'a');
      QuietWord(ws[3], 's', 't', 'a');
      QuietWord(ws[4], 's', 't', 'g');
      QuietWord(ws[5], 's', 't', 'a');
      QuietWord(ws[6], 's', 't', 'a');
      QuietWord(ws[7], 's', 'i', 'g');
      QuietWord(ws[8], 's', 't', 'a');
      QuietWord(ws[9], 's', 't', 'a');
      QuietWord(ws[10], 's', 't', 'a');
      QuietWord(ws[11], 's', 't', 'a');
      QuietWord(ws[12], 's', 'i', 'a');
      QuietWord(ws[13], 's', 'm', 'a');
    }
    QuietSentence(ws);
  }

  lemma QuietNoTitle()
    ensures !RetryWorthy(NoTitleMessage)
  {
    var ws := NoTitleWords;
    assert Quiet(ws[0]) && Quiet(ws[1]) && Quiet(ws[2]) && Quiet(ws[3]) && Quiet(ws[4]) && Quiet(ws[5]) && Quiet(ws[6]) by {
      QuietWord(ws[0], 's', 't', 'a');
      QuietWord(ws[1], 's', 't', 'a');
      QuietWord(ws[2], 's', 'i', 'g');
      QuietWord(ws[3], 's', 't', 'a');
      QuietWord(ws[4], 's', 't', 'a');
      QuietWord(ws[5], 's', 't', 'a');
      QuietWord(ws[6], 's', 't', 'a');
    }
    QuietSentence(ws);
  }

  lemma QuietSaveFailed()
    ensures !RetryWorthy(SaveFailedMessage)
  {
    var ws := SaveFailedWords;
    assert Quiet(ws[0]) && Quiet(ws[1]) && Quiet(ws[2]) && Quiet(ws[3]) && Quiet(ws[4]) && Quiet(ws[5]) by {
      QuietWord(ws[0], 's', 't', 'g');
      QuietWord(ws[1], 's', 't', 'a');
      QuietWord(ws[2], 's', 't', 'a');
      QuietWord(ws[3], 's', 't', 'a');
      QuietWord(ws[4], 's', 't', 'a');
      QuietWord(ws[5], 'r', 'i', 'g');
    }
    QuietSentence(ws);
  }

  /** The AI failure, the time-out and the generic failure ask to try again. */
  lemma WorthyAnalysisFailed()
    ensures RetryWorthy(AnalysisFailedMessage)
  {
    TryAgainWorthy(AnalysisFailedWords, 8);
  }

  lemma WorthyTookTooLong()
    ensures RetryWorthy(TookTooLongMessage)
  {
    TryAgainWorthy(TookTooLongWords, 5);
  }

  lemma WorthyGenericFailure()
    ensures RetryWorthy(GenericFailureMessage)
  {
    TryAgainWorthy(GenericFailureWords, 5);
  }

  /** The unreachable service mentions the service. */
  lemma WorthyUnreachable()
    ensures RetryWorthy(UnreachableMessage)
  {
    var ws := UnreachableWords;
    JoinContainsWord(ws, ' ', 4);
    StartsWithContains(ws[4], "service");
    ContainsTransitive(Sentence(ws), ws[4], "service");
  }

  /** Of the route's failures, exactly the AI failure, the 503, the 408 and the generic
      500 count a retry. */
  lemma RetryWorthyFailures(e: RouteError)
    ensures RetryWorthy(MessageOf(e)) <==> e in {AnalysisFailed, Unreachable, TookTooLong, GenericFailure}
  {
    QuietNoKey(); QuietNoFile(); QuietNotPdf(); QuietTooLarge();
    QuietInsufficientText(); QuietPdfFailed(); QuietRejected(); QuietNoTitle(); QuietSaveFailed();
    WorthyAnalysisFailed(); WorthyTookTooLong(); WorthyGenericFailure(); WorthyUnreachable();
  }
}
