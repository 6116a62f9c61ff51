# joffers job listings, modelled in Dafny

joffers is a small recruiting dashboard. An administrator uploads a job description as a
PDF. The server extracts its text, asks a language model whether the text is about a job,
has a second model call extract the structured fields, and stores the result in a MongoDB
`jobs` collection. Jobs can also be created from a typed-in JSON body. The dashboard pages
list the jobs newest first, with counts of active and closed jobs and a total of
applicants. Two client components send the upload: a form with retry advice and an older
uploader with a model selector.

This project models that core as pure functions over immutable data:

- `Text`: the JavaScript string operations the code relies on, namely `trim`,
  `replace(/\s+/g, '')`, `toUpperCase`, `includes`, `startsWith`, `slice`,
  `split('\n').filter(Boolean)` and `join`.
- `Json`: JavaScript values, truthiness and property lookup.
- `Env`: the cleaned administrator key.
- `JobSchema`: the Mongoose schema of models/Job.ts. It covers casting, `trim`,
  `required`, `enum`, defaults and the validated update.
- `JobStore`: lib/db.ts over an in-memory collection (a map from id to document).
- `Http`: responses as status plus body.
- `ManualRoute`: `POST /api/jobs`.
- `UploadRoute`: `POST /api/jobs/upload`. Every external service (form parsing, reading
  the file's bytes, PDF parsing, the two model calls, the database connection) is an
  oracle whose outcome is an input.
- `OpenAiClient` and `Base64`: lib/openai.ts, including a base64 encoder with a proved
  decoder round trip.
- `UploadForm` and `PdfUploader`: the two upload components as state machines. The outcome
  of each request is an input.
- `Dashboard`: the figures of the two dashboard pages.

Behaviours of the code that a reader might not expect, all of which the model keeps:

- A missing API key is answered with 500, and a PDF the parser cannot read with 500. Too
  little text is 400.
- The upload route checks only the extracted `title` itself. A missing `company` or
  `description` reaches the database, whose schema refuses it, so the answer is the
  500 "Failed to save job to database". An extraction with title `Senior Backend
  Engineer`, company `Acme Corp`, an empty location and no description therefore ends in
  that 500 (`UploadRoute.AcmeWithoutDescriptionRefused`).
- `location` is optional in the schema, with default `Remote`. The upload route applies
  the same default to any falsy location before saving.
- Errors of the extraction call give the 500 "Failed to analyze job information with AI.
  Please try again.". Errors of the classifier call are swallowed and the request goes on
  to extraction, as after a `YES` (`UploadRoute.ClassifierFailsOpen`). Neither reaches
  the outer 503 or 408. Those two codes can only come from the form parser or the reading of the file's bytes
  (`arrayBuffer`) throwing, both of which reach the outer catch.
- A `file` field that arrives as non-empty text reaches `file.type.includes`, which throws a
  `TypeError` without `fetch` in its message, so the answer is the generic 500. A `model`
  field that arrives as a file makes `model.includes` throw inside the extraction `try`,
  so the answer is the AI-failure 500. So does an extraction whose arguments parse to
  `null`: logging reads its `title` inside the same `try`.
- The PdfUploader component checks the exact media type but not the size. An oversized
  PDF is refused by the route as too large.

## Model

| member | source | states |
|---|---|---|
| Text.TrimSpec | app/api/jobs/upload/route.ts:113 | `trim` cuts a string into leading white space, the result and trailing white space; the result starts and ends with a non-space, and is empty exactly when the string is all white space |
| Text.TrimIdempotent | models/Job.ts:17-21 | trimming twice equals trimming once, so a trimmed path stays as stored |
| Text.RemoveSpaces | app/api/jobs/upload/route.ts:15 | `replace(/\s+/g, '')` keeps no white space, keeps every other character, and is empty exactly when the input was all white space |
| Text.ToUpper | app/api/jobs/upload/route.ts:113 | `toUpperCase` preserves length and maps each character to its upper case |
| Text.UpperIsYes | app/api/jobs/upload/route.ts:113-114 | a string upper-cases to `YES` exactly when it is three letters y/Y, e/E, s/S/ſ in that order |
| Text.Capitalize | app/dashboard/jobs/page.tsx:111 | `charAt(0).toUpperCase() + slice(1)` upper-cases the first character and keeps the rest |
| Text.Take | app/api/jobs/upload/route.ts:108 | `slice(0, n)` is the prefix of length min(n, length) |
| Text.ScanDecides | components/job-upload-form.tsx:85-87 | the character-by-character scan answers `includes` exactly |
| Text.SplitLines | app/api/jobs/route.ts:21 | `split('\n')` yields at least one piece and no piece holds a line feed |
| Text.JoinSplitLines | app/api/jobs/route.ts:21 | joining the pieces of `split('\n')` with line feeds gives back the original string |
| Text.SplitJoinLines | app/api/jobs/route.ts:21 | splitting line-feed-free pieces joined by line feeds gives back the pieces |
| Text.DropEmpty | app/api/jobs/route.ts:21 | `filter(Boolean)` keeps only non-empty pieces, each taken from the input, and loses no character |
| Text.NonEmptyLines | app/api/jobs/route.ts:21 | `split('\n').filter(Boolean)` gives non-empty, line-feed-free lines whose concatenation is the input without its line feeds |
| Text.DropEmptySingle | app/api/jobs/route.ts:21 | `filter(Boolean)` of one piece keeps it exactly when it is non-empty |
| Text.DropEmptyConcat | app/api/jobs/route.ts:21 | `filter(Boolean)` of a concatenation is the concatenation of the filtered parts |
| Text.DropEmptyMembers | app/api/jobs/route.ts:21 | a string is kept by `filter(Boolean)` exactly when it is a non-empty member of the input |
| Text.NonEmptyLinesOfSplit | app/api/jobs/route.ts:21 | the non-empty lines are `filter(Boolean)` applied to `split('\n')`: exactly the non-empty pieces, in order |
| Text.NonEmptyLinesOfJoin | app/api/jobs/route.ts:21 | the non-empty lines of line-feed-free pieces joined by line feeds are those pieces without the empty ones |
| Text.LinesRoundTrip | app/api/jobs/route.ts:21 | non-empty lines joined by line feeds are split back into exactly those lines |
| Json.Digits | models/Job.ts:17-40 | the spelling of a natural number is a non-empty run of decimal digits without a leading zero |
| Json.DigitsRoundTrip | models/Job.ts:17-40 | reading the digits back as a decimal numeral gives the number |
| Json.Decimal | models/Job.ts:17-40 | `String(n)` is the digits of `n`, after a minus sign when `n` is negative |
| Json.DecimalInjective | models/Job.ts:17-40 | distinct integers are spelt differently, so a number stored in a `String` path can be read back |
| Env.CleanKey | app/api/jobs/upload/route.ts:15-16 | the cleaned key holds no white space and is empty exactly when the variable is unset or all white space |
| Env.CleanKeyKeeps | lib/openai.ts:12-13 | a key without white space is used as it is, and cleaning is idempotent |
| JobSchema.CastString | models/Job.ts:17-40 | a `String` path accepts exactly undefined, null and the values with a string spelling (strings, numbers, booleans), and stores that spelling, trimmed where the path trims; arrays are refused |
| JobSchema.CastStrings | models/Job.ts:41-48 | a `[String]` path never fails to cast: unset stays unset, null clears, an array is kept, and a single string, number or boolean becomes a one-element list of its spelling |
| JobSchema.CastStatus | models/Job.ts:49-53 | `status` accepts exactly `active`, `closed` or nothing |
| JobSchema.CastDate | models/Job.ts:54-57 | `createdAt` accepts exactly the date-like values |
| JobSchema.CastNumber | models/Job.ts:58-61 | `applicants` accepts exactly undefined, null and numbers |
| JobSchema.RequiredText | models/Job.ts:17-26 | a required string path succeeds exactly when it is given text that is non-empty after trimming; the stored value is the trimmed text |
| JobSchema.OptionalText | models/Job.ts:27-36 | an optional trimmed path takes its default when unset, nothing when null, the trimmed text otherwise |
| JobSchema.CastTexts | models/Job.ts:17-40 | the string paths of a new document succeed exactly when title, company and description are present text and location and salary are string-like |
| JobSchema.CastLists | models/Job.ts:41-48 | requirements and benefits succeed exactly when list-like, default to the empty list, and keep a given array |
| JobSchema.CastMeta | models/Job.ts:49-61 | status defaults to active, createdAt to now and applicants to 0; given values are kept |
| JobSchema.Cast | models/Job.ts:16-62 | saving succeeds exactly for acceptable objects; the document holds each path's trimmed or defaulted value, with non-empty title, company and description |
| JobSchema.UpdateRequiredText | models/Job.ts:17-26 | in an update, an absent required path is left alone and a supplied one must be present text, stored trimmed |
| JobSchema.UpdateOptionalText | models/Job.ts:27-36 | in an update, an optional path is left alone when absent, cleared by null, and set trimmed otherwise |
| JobSchema.UpdateList | models/Job.ts:41-48 | in an update, a list path is left alone when absent, refused when null, and set otherwise |
| JobSchema.CastUpdate | lib/db.ts:106-110 | an update validates exactly when every supplied path holds a value its schema type accepts |
| JobSchema.UpdateDoc | lib/db.ts:106-110 | a validated update sets only the supplied paths and keeps a complete document complete |
| JobSchema.UpdateStoresSupplied | lib/db.ts:106-110 | after a valid update each supplied path holds what was supplied (trimmed where the schema trims) and every other path is unchanged |
| JobStore.ToJob | lib/db.ts:25-39 | `convertDocToJob` keeps every path and the id, and shows a missing applicants count as 0 |
| JobStore.JobRoundTrip | lib/db.ts:25-39 | converting a document with a count to a job and back loses nothing, and a job converts back to itself |
| JobStore.CreateJob | lib/db.ts:88-100 | creation succeeds exactly when the schema accepts the data with status and applicants overwritten; a created job is active with 0 applicants under a fresh id, the other documents are untouched, and title, company, description, location and createdAt come from the data |
| JobStore.CreateIgnoresStatusAndApplicants | lib/db.ts:91-95 | whatever status and applicants the caller passes, creation gives the same result |
| JobStore.GetJobById | lib/db.ts:65-85 | a job is found exactly when its id is stored, and it shows that document |
| JobStore.CreateThenGet | lib/db.ts:88-100 | a created job is read back unchanged under its returned id |
| JobStore.UpdateJob | lib/db.ts:103-115 | an update succeeds exactly when it validates; an unknown id yields null and changes nothing; a known id is updated alone |
| JobStore.UpdateThenGet | lib/db.ts:103-115 | after an update the collection stays valid and a later read returns the updated job |
| JobStore.DeleteJob | lib/db.ts:118-122 | deletion reports true exactly when the id was stored, removes only that id and shrinks the collection by that one document |
| JobStore.DeleteThenGone | lib/db.ts:118-122 | after a deletion the job cannot be read and the listing omits it |
| JobStore.Insert | lib/db.ts:45-47 | inserting into a newest-first list keeps it newest first and adds exactly the one job |
| JobStore.SortNewestFirst | lib/db.ts:45-47 | the sort is newest first and a permutation of its input |
| JobStore.Collect | lib/db.ts:45 | the collected jobs are exactly the stored documents below the bound, each once, converted |
| JobStore.GetJobs | lib/db.ts:42-62 | the listing is newest first and holds every stored document exactly once, converted |
| ManualRoute.FirstFalsy | app/api/jobs/route.ts:10-17 | the result is the first checked field whose value is falsy, or none when all are truthy |
| ManualRoute.SplitIfString | app/api/jobs/route.ts:20-26 | a string is replaced by its `split('\n')` pieces with the empty ones filtered out, in order; any other value is kept |
| ManualRoute.SplitIfStringJoin | app/api/jobs/route.ts:20-26 | a string made of line-feed-free pieces joined by line feeds becomes the list of its non-empty pieces |
| ManualRoute.Post | app/api/jobs/route.ts:4-46 | the answer is 200, 400 or 500; only a 200 changes the collection, adding one job under a fresh id; 400 happens exactly when a parsed object misses a required field; 200 happens exactly when a parsed object has every required field, the database is reachable and the schema accepts the prepared data; an unparseable body or `null` gives the 500 |
| ManualRoute.MissingFieldIsFirst | app/api/jobs/route.ts:9-17 | the 400 names the first missing field in the fixed order and changes nothing |
| ManualRoute.FalsyValues | app/api/jobs/route.ts:11 | a field counts as missing exactly when it is undefined, null, false, 0 or the empty string; every array passes, the empty one included |
| ManualRoute.SalaryNeverRequired | app/api/jobs/route.ts:9 | changing `salary` does not change the outcome of the required-field check |
| ManualRoute.CreatedJobFields | app/api/jobs/route.ts:29-32 | a created job carries the request time, is active and has no applicants |
| UploadRoute.Fail | app/api/jobs/upload/route.ts:18-257 | each failure answers with its own non-200 status and its fixed message |
| UploadRoute.ModelTier | app/api/jobs/upload/route.ts:131-132 | the quality model is used exactly when the requested model contains `gpt-4`; otherwise the fast model |
| UploadRoute.CatchAll | app/api/jobs/upload/route.ts:235-257 | the outer catch gives 503 exactly for a `TypeError` mentioning `fetch`, 408 exactly for another error mentioning `timeout`, and the generic 500 otherwise |
| UploadRoute.TypeOfTextIsGeneric | app/api/jobs/upload/route.ts:44 | the error thrown by reading `type` of a text field reaches the generic 500 |
| UploadRoute.SaveData | app/api/jobs/upload/route.ts:212-221 | the saved object is the extracted one with `createdAt` set to now and a falsy location replaced by `Remote` |
| UploadRoute.SavedAsStored | app/api/jobs/upload/route.ts:212-221 | a job saved from that object holds the trimmed extracted fields, the location or its default, and the time |
| UploadRoute.Persist | app/api/jobs/upload/route.ts:209-233 | saving answers 200 with the stored job exactly when the database is reachable and the schema accepts the saved object, and otherwise 500 "Failed to save job to database" with the collection untouched |
| UploadRoute.Extract | app/api/jobs/upload/route.ts:127-207 | with a text model field, the AI-failure 500 happens exactly for a failed call, missing or unparseable arguments, or a `null` payload, and a model field that is a file gives it too; the 400 for a missing title happens exactly for a text model field and a parsed payload that is not `null` and is not an object with a truthy title; the call uses the tier of the requested model |
| UploadRoute.Analyse | app/api/jobs/upload/route.ts:66-125 | a parse failure is 500, too little text 400, an explicit non-YES reply 400; success needs enough text and no refusal; none of the key or file failures can arise once the PDF is parsed |
| UploadRoute.Received | app/api/jobs/upload/route.ts:29-68 | a missing file, a text field, a non-PDF type or a size over 10 MiB is refused without calling any service; a failure reading the bytes goes to the outer catch, and only it can give 408 or 503 here; otherwise the PDF is analysed |
| UploadRoute.Upload | app/api/jobs/upload/route.ts:12-259 | the route writes only on success, answers one of 200/400/408/500/503, refuses a missing key with 500 before anything else, and gives 408/503 only when the form or the file's bytes cannot be read, having called no service |
| UploadRoute.ParsedIffAdmitted | app/api/jobs/upload/route.ts:15-70 | the PDF is parsed exactly when the key and all file checks pass and the bytes are read; otherwise no service is called |
| UploadRoute.SizeBoundary | app/api/jobs/upload/route.ts:53-68 | a PDF of exactly 10 MiB is never refused as too large and is parsed once its bytes are read, one byte more is refused as too large, and a non-PDF type is refused whatever its size |
| UploadRoute.TextGate | app/api/jobs/upload/route.ts:70-108 | a parse failure gives 500 and too little text 400, neither reaching the classifier; otherwise the classifier sees the first 2000 characters |
| UploadRoute.RejectedNeverPersists | app/api/jobs/upload/route.ts:113-120 | a classifier reply other than YES never saves a job nor answers 200 |
| UploadRoute.AcceptedReplies | app/api/jobs/upload/route.ts:113-114 | a reply is accepted exactly when, once trimmed, it is three letters y/Y, e/E, s/S/ſ in that order; a missing reply is refused |
| UploadRoute.ClassifierFailsOpen | app/api/jobs/upload/route.ts:121-125 | a failing classifier call leads to the same outcome as a YES reply |
| UploadRoute.UploadedJob | app/api/jobs/upload/route.ts:12-233 | a 200 implies every step passed: key, file checks, enough text, no refusal, an extraction with a truthy title, a reachable database, and a job holding the extracted fields |
| UploadRoute.ReachesSave | app/api/jobs/upload/route.ts:201-233 | when every step before the save passes, the route answers what the save answers |
| UploadRoute.DescriptionRequired | models/Job.ts:37-40 | an extraction without a description cannot be saved and gives the 500 with the collection untouched |
| UploadRoute.AcmeAcceptable | models/Job.ts:16-62 | the schema accepts an extraction with title `Senior Backend Engineer`, company `Acme Corp` and an empty location once a description is added and the location defaulted |
| UploadRoute.AcmeStored | app/api/jobs/upload/route.ts:212-221 | a job stored from those fields has that title and company, the location `Remote`, status active and 0 applicants |
| UploadRoute.AcmePersisted | app/api/jobs/upload/route.ts:212-233 | those fields with a description are stored with location `Remote`, status active and 0 applicants |
| UploadRoute.AcmeWithoutDescriptionRefused | app/api/jobs/upload/route.ts:218-228 | an upload whose extraction gives those fields without a description passes every check but ends in the 500 save failure with nothing stored |
| UploadRoute.AcmeWithDescriptionSaved | app/api/jobs/upload/route.ts:201-233 | an upload whose extraction gives those fields with a description ends in 200 with the job stored |
| OpenAiClient.TextPrompt | lib/openai.ts:52-70 | the text prompt carries the first 500 characters of a data URI followed by an ellipsis, or the whole content otherwise |
| OpenAiClient.Messages | lib/openai.ts:21-73 | the request holds the system prompt then a user message, sent as an image exactly when the content is a data URI and the model contains `gpt-4` |
| OpenAiClient.TextPromptCarries | lib/openai.ts:70 | a data URI contributes at most 500 characters of itself to the text prompt; other content is carried whole |
| OpenAiClient.ApiErrorMessage | lib/openai.ts:90-94 | a refused request surfaces the service's message, or `Unknown error` when it gives none |
| OpenAiClient.ExtractJobInfo | lib/openai.ts:7-111 | no request is sent exactly when the key or the model is missing, each with its own error; the request carries the cleaned key, the model and the messages; each reply shape gives its own result |
| OpenAiClient.ExtractPdfText | lib/openai.ts:114-153 | reading succeeds exactly when the file loads, giving the data URI of its bytes; a read error and a load without result give their own messages |
| OpenAiClient.PdfTextShape | lib/openai.ts:22-27 | what `extractPdfText` yields is a data URI, so a `gpt-4` model receives it as an image |
| Base64.IndexOfCharOf | lib/openai.ts:165 | each sextet's alphabet character decodes back to the sextet |
| Base64.Encode | lib/openai.ts:165 | the encoding is four characters per started group of three bytes |
| Base64.EncodeAlphabet | lib/openai.ts:165 | every character of the encoding is from the base64 alphabet, except a padding `=` in one of the last two places |
| Base64.DecodeEncode | lib/openai.ts:165 | decoding the encoding gives back the bytes |
| Base64.BinaryString | lib/openai.ts:161-163 | the binary string has one character per byte whose code is that byte |
| Base64.BuildBinary | lib/openai.ts:157-163 | the loop builds one character per byte with that byte as its code, which `btoa` accepts and encodes as `arrayBufferToBase64` does |
| Base64.Btoa | lib/openai.ts:165 | `btoa` fails exactly when a code exceeds 255; otherwise its text decodes to the codes |
| Base64.ArrayBufferToBase64 | lib/openai.ts:156-166 | the result never fails, decodes to the bytes, and has four characters per started group of three |
| UploadForm.FileChange | components/job-upload-form.tsx:20-26 | choosing a file sets it, clears the error and resets the retry count; an empty selection changes nothing |
| UploadForm.FailureText | components/job-upload-form.tsx:65-81 | a failed request shows the thrown message, the server's non-empty error text, or "Failed to upload file" |
| UploadForm.Start | components/job-upload-form.tsx:31-50 | a request is sent exactly when a file of at most 10 MiB is chosen; otherwise the matching error is shown |
| UploadForm.Finish | components/job-upload-form.tsx:63-96 | uploading always ends; success stores the job and resets the retry count; an abort shows the time-out text; another failure shows its text and counts a retry only for a retry-worthy message below the limit |
| UploadForm.Submit | components/job-upload-form.tsx:28-97 | a submission is the checks followed, when a request was sent, by its outcome |
| UploadForm.Retry | components/job-upload-form.tsx:105-109 | a retry resubmits exactly when a file is chosen |
| UploadForm.UploadAnother | components/job-upload-form.tsx:210-213 | "Upload Another" clears the file and the result and nothing else |
| UploadForm.StepKeepsIdle | components/job-upload-form.tsx:13-18 | every handler leaves the form idle with the retry count within its bound |
| UploadForm.RunKeepsIdle | components/job-upload-form.tsx:84-91 | from an idle state, any run of events keeps the retry count at most 2 |
| UploadForm.SizeGateMatchesServer | components/job-upload-form.tsx:36-41 | the form sends a file of exactly 10 MiB and refuses one byte more with the server's text |
| UploadForm.RequestsQualityTier | components/job-upload-form.tsx:50 | the model the form sends reaches the route's quality tier |
| UploadForm.RetryWorthyFailures | components/job-upload-form.tsx:84-91 | of the route's failures, exactly the AI failure, the 503, the 408 and the generic 500 count towards a retry |
| PdfUploader.FileChange | app/components/PdfUploader.jsx:20-29 | a file whose type is not exactly `application/pdf` is refused and clears the selection; otherwise the selection is taken and the error cleared |
| PdfUploader.ChooseModel | app/components/PdfUploader.jsx:119-121 | selecting a model changes the model alone |
| PdfUploader.Start | app/components/PdfUploader.jsx:35-54 | a request is sent exactly when a file and a model are chosen; the file is checked first, each failure with its own text |
| PdfUploader.NotOkText | app/components/PdfUploader.jsx:61-65 | a refused upload shows the server's non-empty error text, or "Error processing PDF" |
| PdfUploader.Finish | app/components/PdfUploader.jsx:56-77 | loading always ends; the router moves only after a 2xx answer with a job, to that job's page; a refused or failed request shows its text |
| PdfUploader.Submit | app/components/PdfUploader.jsx:31-78 | a submission is the checks followed, when a request was sent, by its outcome |
| PdfUploader.StepKeepsSettled | app/components/PdfUploader.jsx:20-29 | every handler leaves the component not loading and holding only a file of the exact PDF type |
| PdfUploader.RunKeepsSettled | app/components/PdfUploader.jsx:20-54 | after any run of events every file the component sends is of the exact PDF type |
| PdfUploader.ClientTypePassesServer | app/components/PdfUploader.jsx:22 | what the component sends is never refused as not a PDF, while an oversized file is still refused by the route as too large |
| PdfUploader.OptionTiers | app/components/PdfUploader.jsx:14-18 | `gpt-4` and `gpt-4-turbo` reach the route's quality tier and `gpt-3.5-turbo` its fast tier |
| Dashboard.TopJobs | app/dashboard/page.tsx:14-15 | the preview is the first three jobs of the listing, or all when there are fewer |
| Dashboard.Filter | app/dashboard/jobs/page.tsx:14-15 | the filtered list holds exactly the jobs of that status |
| Dashboard.ActiveCount | app/dashboard/page.tsx:40 | the active figure is the number of active jobs, at most the number of jobs |
| Dashboard.ShownApplicants | app/dashboard/page.tsx:110 | a job shows its applicant count, with 0 for a falsy count |
| Dashboard.TotalApplicants | app/dashboard/page.tsx:51 | the total of non-negative counts is non-negative |
| Dashboard.StatusLabel | app/dashboard/jobs/page.tsx:111 | the label of a status is `Active` or `Closed` |
| Dashboard.TopAreNewest | app/dashboard/page.tsx:14-15 | no job left out of the preview is newer than a job shown |
| Dashboard.ViewAllLinks | app/dashboard/page.tsx:76-123 | "View all N" shows exactly when the preview leaves a job out, and "View All" whenever the preview shows a job |
| Dashboard.FilterConcat | app/dashboard/jobs/page.tsx:14-15 | filtering distributes over concatenation, so each filter keeps listing order |
| Dashboard.FilterPartition | app/dashboard/jobs/page.tsx:33-40 | the active and closed counts add up to the total, and together the two lists hold each job as often as the listing |
| Dashboard.TotalSingle | app/dashboard/page.tsx:51 | the total of one job is its shown count, and the total of none is 0 |
| Dashboard.TotalConcat | app/dashboard/page.tsx:51 | the total of a concatenation is the sum of the totals |
| Dashboard.ShownApplicantsOfStored | app/dashboard/jobs/page.tsx:90 | a stored document without a count shows 0 applicants, and one with a count shows it |
| Dashboard.FreshJobsTotalZero | app/dashboard/page.tsx:51 | jobs that all have 0 applicants total 0 |

## Left out

- I/O: the request body, `formData`, `arrayBuffer`, `pdf-parse`, both model calls, the
  `FileReader`, `fetch` and the database connection are oracles or inputs. Their outcomes
  are parameters. Logging is dropped.
- Time is a natural number. ISO date strings and `toLocaleDateString` are not modelled.
- The prompt texts sent to the models are constants carried through unchanged. The model
  says nothing about their content.
- Mongoose details: nested objects are not modelled, and malformed ids (`CastError`)
  are not modelled. Ids come from a counter. Only the first schema error is reported.
  Array elements are strings, so the per-element cast of a `[String]` path is the
  identity.
- JobSchema.CastNumber: it refuses a numeric string or a boolean given for `applicants`,
  which Mongoose would convert to a number. Only request bodies typed by hand could
  carry one.
- JobSchema.CastDate: it refuses a date string given for `createdAt`, which Mongoose
  would parse, a negative number, which Mongoose would cast to a date before 1970, and
  `null`, which Mongoose would store as a cleared date. Both routes set `createdAt` to
  the ISO string of the current time, and the model passes that time as a number
  instead.
- JobSchema.CastStatus: it refuses `null` for `status`. Mongoose versions whose enum
  validator lets `null` through would store it as a cleared value.
- JobStore.UpdateJob: an update with `createdAt` set to `null` is refused with the
  collection unchanged. Mongoose would write the `null`, and the conversion at
  lib/db.ts:36 would then throw on the missing date.
- JobStore.CreateJob: an `_id` supplied by the caller (the manual route spreads the whole
  request body into the data, app/api/jobs/route.ts:29-32) is ignored and the id comes
  from the counter. Mongoose would use the supplied id, or fail on a duplicate or
  malformed one.
- Text: a Dafny `char` is a Unicode code point, while JavaScript's `length`, `slice` and
  `substring` count UTF-16 code units. Text outside the Basic Multilingual Plane is
  therefore measured differently: 30 emoji are 60 code units and pass the 50-character
  gate of app/api/jobs/upload/route.ts:80 in JavaScript but not in the model, and the
  2000-character prefix of route.ts:108 and the 500-character prefix of
  lib/openai.ts:70 are cut in code points.
- Numbers are integers. Fractional numbers and `NaN` are not modelled.
- `response.json()` throwing in the form, in the uploader and in lib/openai.ts is not
  modelled. Neither is `JSON.parse(null)` on a missing content.
- OpenAiClient.ExtractPdfText: the "Error processing PDF: …" rejection (lib/openai.ts:138-140)
  is not modelled, because the base64 conversion it guards never throws on bytes.
- Text.ToUpper: it upper-cases only the Latin letters and `ſ`, and leaves every other
  character unchanged. Those are the only characters whose upper case takes part in the
  `YES` comparison.
- Dashboard.TotalApplicants: it states non-negativity only when every count is
  non-negative, because the schema allows negative counts.
- React details are not modelled: state batching and stale closures (handlers run one
  after another on the current state), rendering, `handleViewJob` navigation and the
  60-second abort timer (its firing is an input outcome).
- The pages and scripts outside the core are not part of this model: app/page.tsx,
  the login and forgot-password pages, the dashboard layout, jobs/new, the job detail
  page and scripts/seed-db.js.
- The 404 for an unknown job belongs to the job detail page. That page is not part of
  this model.
