/** The job record of models/Job.ts: its paths, types, `trim`/`required`/`enum` options and
    defaults, and what saving a document or applying an update does with raw values. */
module JobSchema {
  import opened Wrappers
  import opened Text
  import opened Json

  /** The `status` enum. */
  datatype Status = Active | Closed

  /** The stored spelling of a status. */
  function StatusName(st: Status): string {
    match st
    case Active => "active"
    case Closed => "closed"
  }

  /** A stored job document (`IJob`). `location`, `salary` and `applicants` may be missing
      (`None`): the schema does not require them and an update may clear them. Timestamps
      are abstract natural numbers. */
  datatype JobDoc = JobDoc(
    title: string,
    company: string,
    location: Option<string>,
    salary: Option<string>,
    description: string,
    requirements: seq<string>,
    benefits: seq<string>,
    status: Status,
    createdAt: nat,
    applicants: Option<int>)

  /** Why a document or an update is refused: a value of the wrong type for its path, an
      empty required path, or a status outside the enum. */
  datatype SchemaError = CastError(path: string) | RequiredError(path: string) | EnumError(path: string)

  /** The default of the `location` path. */
  const DefaultLocation: string := "Remote"

  /** What a raw property contributes to a path: nothing (`undefined`), an explicit `null`,
      or a value of the path's type. */
  datatype Field<T> = Unset | Cleared | Given(value: T)

  /** Casting for a `String` path: strings, numbers and booleans become their spelling
      (trimmed when the path says `trim: true`); arrays are refused. */
  function CastString(path: string, v: Value, trim: bool): (r: Result<Field<string>, SchemaError>)
    ensures r.Success? <==> StringLike(v)
    ensures r == Success(Unset) <==> v.Undefined?
    ensures r == Success(Cleared) <==> v.Null?
    ensures Spelling(v).Some? ==> r == Success(Given(if trim then Trim(Spelling(v).value) else Spelling(v).value))
    ensures trim && r.Success? && r.value.Given? ==> Trimmed(r.value.value)
  {
    match v
    case Undefined => Success(Unset)
    case Null => Success(Cleared)
    case _ =>
      if Spelling(v).None? then Failure(CastError(path))
      else
        var s := Spelling(v).value;
        if trim then TrimIdempotent(s); Success(Given(Trim(s))) else Success(Given(s))
  }

  /** Casting for a `[String]` path: an array is kept, a single string, number or boolean
      becomes a one-element array of its spelling. */
  function CastStrings(v: Value): (r: Field<seq<string>>)
    ensures r == Unset <==> v.Undefined?
    ensures r == Cleared <==> v.Null?
    ensures v.Arr? ==> r == Given(v.items)
    ensures Spelling(v).Some? ==> r == Given([Spelling(v).value])
  {
    match v
    case Undefined => Unset
    case Null => Cleared
    case Arr(xs) => Given(xs)
    case _ => Given([Spelling(v).value])
  }

  /** Casting and enum validation for `status`. */
  function CastStatus(v: Value): (r: Result<Field<Status>, SchemaError>)
    ensures r.Success? <==> v in {Undefined, Str("active"), Str("closed")}
    ensures r.Success? ==> !r.value.Cleared?
  {
    if v == Undefined then Success(Unset)
    else if v == Str("active") then Success(Given(Active))
    else if v == Str("closed") then Success(Given(Closed))
    else Failure(EnumError("status"))
  }

  /** Casting for the `createdAt` date. */
  function CastDate(v: Value): (r: Result<Field<nat>, SchemaError>)
    ensures r.Success? <==> DateLike(v)
    ensures r.Success? ==> !r.value.Cleared?
  {
    match v
    case Undefined => Success(Unset)
    case Num(n) => if n >= 0 then Success(Given(n)) else Failure(CastError("createdAt"))
    case _ => Failure(CastError("createdAt"))
  }

  /** Casting for the `applicants` number. */
  function CastNumber(v: Value): (r: Result<Field<int>, SchemaError>)
    ensures r.Success? <==> (v.Undefined? || v.Null? || v.Num?)
  {
    match v
    case Undefined => Success(Unset)
    case Null => Success(Cleared)
    case Num(n) => Success(Given(n))
    case _ => Failure(CastError("applicants"))
  }

  /** The `required` validator of a string path on a value that is being set. */
  function RequireString(path: string, f: Field<string>): Result<string, SchemaError> {
    if f.Given? && f.value != "" then Success(f.value) else Failure(RequiredError(path))
  }

  /** The `required` validator of an array path when saving: `null` fails, an empty array
      passes, and an unset path takes the array default `[]`. */
  function RequireStrings(path: string, f: Field<seq<string>>): Result<seq<string>, SchemaError> {
    match f
    case Unset => Success([])
    case Cleared => Failure(RequiredError(path))
    case Given(xs) => Success(xs)
  }

  /** An optional path's value after casting, with the default applied when it was unset. */
  function Optional<T>(f: Field<T>, default: Option<T>): Option<T> {
    match f
    case Unset => default
    case Cleared => None
    case Given(x) => Some(x)
  }

  /** A string that `trim` leaves unchanged. */
  predicate Trimmed(s: string) {
    Trim(s) == s
  }

  /** A raw value a `String` path accepts. */
  predicate StringLike(v: Value) {
    v.Undefined? || v.Null? || Spelling(v).Some?
  }

  /** A raw value a required `String` path accepts: one whose spelling is not empty once
      trimmed (when the path trims). */
  predicate PresentText(v: Value, trim: bool) {
    Spelling(v).Some? && (if trim then Trim(Spelling(v).value) else Spelling(v).value) != ""
  }

  /** A raw value a required `[String]` path accepts when saving: anything but `null`,
      since every other value casts to an array and the empty array passes `required`. */
  predicate ListLike(v: Value) {
    !v.Null?
  }

  /** A raw value the `createdAt` path accepts. */
  predicate DateLike(v: Value) {
    v.Undefined? || (v.Num? && v.n >= 0)
  }

  /** A required `String` path when saving: cast, then the `required` validator. */
  function RequiredText(path: string, v: Value, trim: bool): (r: Result<string, SchemaError>)
    ensures r.Success? <==> PresentText(v, trim)
    ensures r.Success? ==> r.value == (if trim then Trim(Spelling(v).value) else Spelling(v).value)
    ensures r.Success? && trim ==> Trimmed(r.value)
  {
    var f :- CastString(path, v, trim);
    RequireString(path, f)
  }

  /** An optional, trimmed `String` path when saving, with its default. */
  function OptionalText(path: string, v: Value, default: Option<string>): (r: Result<Option<string>, SchemaError>)
    requires default.Some? ==> Trimmed(default.value)
    ensures r.Success? <==> StringLike(v)
    ensures r.Success? && r.value.Some? ==> Trimmed(r.value.value)
    ensures v.Undefined? ==> r == Success(default)
    ensures v.Null? ==> r == Success(None)
    ensures Spelling(v).Some? ==> r == Success(Some(Trim(Spelling(v).value)))
  {
    var f :- CastString(path, v, true);
    Success(Optional(f, default))
  }

  /** The string paths of a document being saved, cast and validated. */
  datatype Texts = Texts(title: string, company: string, location: Option<string>, salary: Option<string>, description: string)

  function CastTexts(data: Object): (r: Result<Texts, SchemaError>)
    ensures r.Success? <==>
      && PresentText(Get(data, "title"), true)
      && PresentText(Get(data, "company"), true)
      && StringLike(Get(data, "location"))
      && StringLike(Get(data, "salary"))
      && PresentText(Get(data, "description"), false)
    ensures r.Success? ==>
      && r.value.title == Trim(Spelling(Get(data, "title")).value) && Trimmed(r.value.title)
      && r.value.company == Trim(Spelling(Get(data, "company")).value) && Trimmed(r.value.company)
      && r.value.description == Spelling(Get(data, "description")).value
      && (r.value.location.Some? ==> Trimmed(r.value.location.value))
      && (r.value.salary.Some? ==> Trimmed(r.value.salary.value))
      && (Get(data, "location").Undefined? ==> r.value.location == Some(DefaultLocation))
      && (Spelling(Get(data, "location")).Some? ==> r.value.location == Some(Trim(Spelling(Get(data, "location")).value)))
  {
    assert Trimmed(DefaultLocation) by { TrimNoOp(DefaultLocation); }
    var title :- RequiredText("title", Get(data, "title"), true);
    var company :- RequiredText("company", Get(data, "company"), true);
    var location :- OptionalText("location", Get(data, "location"), Some(DefaultLocation));
    var salary :- OptionalText("salary", Get(data, "salary"), None);
    var description :- RequiredText("description", Get(data, "description"), false);
    Success(Texts(title, company, location, salary, description))
  }

  /** The array paths of a document being saved. */
  function CastLists(data: Object): (r: Result<(seq<string>, seq<string>), SchemaError>)
    ensures r.Success? <==> ListLike(Get(data, "requirements")) && ListLike(Get(data, "benefits"))
    ensures r.Success? && Get(data, "requirements").Undefined? ==> r.value.0 == []
    ensures r.Success? && Get(data, "requirements").Arr? ==> r.value.0 == Get(data, "requirements").items
    ensures r.Success? && Get(data, "benefits").Undefined? ==> r.value.1 == []
    ensures r.Success? && Get(data, "benefits").Arr? ==> r.value.1 == Get(data, "benefits").items
  {
    var requirements := CastStrings(Get(data, "requirements"));
    var requirements :- RequireStrings("requirements", requirements);
    var benefits := CastStrings(Get(data, "benefits"));
    var benefits :- RequireStrings("benefits", benefits);
    Success((requirements, benefits))
  }

  /** The bookkeeping paths of a document being saved: status, creation time, applicants. */
  function CastMeta(data: Object, now: nat): (r: Result<(Status, nat, Option<int>), SchemaError>)
    ensures r.Success? <==>
      && Get(data, "status") in {Undefined, Str("active"), Str("closed")}
      && DateLike(Get(data, "createdAt"))
      && (Get(data, "applicants").Undefined? || Get(data, "applicants").Null? || Get(data, "applicants").Num?)
    ensures r.Success? && Get(data, "status") == Undefined ==> r.value.0 == Active
    ensures r.Success? && Get(data, "status") == Str("closed") ==> r.value.0 == Closed
    ensures r.Success? && Get(data, "createdAt") == Undefined ==> r.value.1 == now
    ensures r.Success? && Get(data, "createdAt").Num? ==> r.value.1 == Get(data, "createdAt").n
    ensures r.Success? && Get(data, "applicants") == Undefined ==> r.value.2 == Some(0)
    ensures r.Success? && Get(data, "applicants").Num? ==> r.value.2 == Some(Get(data, "applicants").n)
  {
    var status :- CastStatus(Get(data, "status"));
    var createdAt :- CastDate(Get(data, "createdAt"));
    var applicants :- CastNumber(Get(data, "applicants"));
    Success((Optional(status, Some(Active)).GetOr(Active),
             Optional(createdAt, Some(now)).GetOr(now),
             Optional(applicants, Some(0))))
  }

  /** `new JobModel(data).save()`: casting, defaults and validation. Properties of `data`
      that are not paths of the schema are dropped. Mongoose collects every failing path;
      this model reports the first one in schema order. Saving succeeds exactly for the
      acceptable objects, stores the supplied text (trimmed where the schema trims) and
      fills the defaults of the paths left `undefined`. */
  function Cast(data: Object, now: nat): (r: Result<JobDoc, SchemaError>)
    ensures r.Success? <==> Acceptable(data)
    ensures r.Success? ==> Trimmed(r.value.title) && r.value.title != ""
    ensures r.Success? ==> Trimmed(r.value.company) && r.value.company != ""
    ensures r.Success? ==> r.value.description != ""
    ensures r.Success? && r.value.location.Some? ==> Trimmed(r.value.location.value)
    ensures r.Success? && r.value.salary.Some? ==> Trimmed(r.value.salary.value)
    ensures r.Success? ==> r.value.title == Trim(Spelling(Get(data, "title")).value)
    ensures r.Success? ==> r.value.company == Trim(Spelling(Get(data, "company")).value)
    ensures r.Success? ==> r.value.description == Spelling(Get(data, "description")).value
    ensures r.Success? && Spelling(Get(data, "location")).Some? ==> r.value.location == Some(Trim(Spelling(Get(data, "location")).value))
    ensures r.Success? && Get(data, "location") == Undefined ==> r.value.location == Some(DefaultLocation)
    ensures r.Success? && Get(data, "requirements").Arr? ==> r.value.requirements == Get(data, "requirements").items
    ensures r.Success? && Get(data, "requirements") == Undefined ==> r.value.requirements == []
    ensures r.Success? && Get(data, "benefits").Arr? ==> r.value.benefits == Get(data, "benefits").items
    ensures r.Success? && Get(data, "benefits") == Undefined ==> r.value.benefits == []
    ensures r.Success? && Get(data, "status") == Undefined ==> r.value.status == Active
    ensures r.Success? && Get(data, "status") == Str("closed") ==> r.value.status == Closed
    ensures r.Success? && Get(data, "createdAt") == Undefined ==> r.value.createdAt == now
    ensures r.Success? && Get(data, "createdAt").Num? ==> r.value.createdAt == Get(data, "createdAt").n
    ensures r.Success? && Get(data, "applicants") == Undefined ==> r.value.applicants == Some(0)
    ensures r.Success? && Get(data, "applicants").Num? ==> r.value.applicants == Some(Get(data, "applicants").n)
  {
    var t :- CastTexts(data);
    var lists :- CastLists(data);
    var meta :- CastMeta(data, now);
    Success(JobDoc(t.title, t.company, t.location, t.salary, t.description,
                   lists.0, lists.1, meta.0, meta.1, meta.2))
  }

  /** A raw value the `applicants` path accepts. */
  predicate NumberLike(v: Value) {
    v.Undefined? || v.Null? || v.Num?
  }

  /** A raw value the `status` path accepts. */
  predicate StatusLike(v: Value) {
    v in {Undefined, Str("active"), Str("closed")}
  }

  /** The objects the schema accepts when saving, stated path by path. */
  predicate Acceptable(data: Object) {
    && PresentText(Get(data, "title"), true)
    && PresentText(Get(data, "company"), true)
    && StringLike(Get(data, "location"))
    && StringLike(Get(data, "salary"))
    && PresentText(Get(data, "description"), false)
    && ListLike(Get(data, "requirements"))
    && ListLike(Get(data, "benefits"))
    && StatusLike(Get(data, "status"))
    && DateLike(Get(data, "createdAt"))
    && NumberLike(Get(data, "applicants"))
  }

  // ---------------------------------------------------------------------------
  // Updates (`findByIdAndUpdate` with `runValidators: true`)
  // ---------------------------------------------------------------------------

  /** A cast update: for each path, whether it is left alone (`None`) or its new value. */
  datatype Patch = Patch(
    title: Option<string>,
    company: Option<string>,
    location: Option<Option<string>>,
    salary: Option<Option<string>>,
    description: Option<string>,
    requirements: Option<seq<string>>,
    benefits: Option<seq<string>>,
    status: Option<Status>,
    createdAt: Option<nat>,
    applicants: Option<Option<int>>)

  /** An optional path in an update: untouched when unset, cleared by `null`. */
  function UpdateOptional<T>(f: Field<T>): Option<Option<T>> {
    match f
    case Unset => None
    case Cleared => Some(None)
    case Given(x) => Some(Some(x))
  }

  /** A path that cannot be cleared, in an update. */
  function UpdateValue<T>(f: Field<T>): Option<T> {
    if f.Given? then Some(f.value) else None
  }

  /** A required string path in an update: untouched when `undefined`, otherwise cast and
      validated as on save. */
  function UpdateRequiredText(path: string, v: Value, trim: bool): (r: Result<Option<string>, SchemaError>)
    ensures r.Success? <==> v.Undefined? || PresentText(v, trim)
    ensures v.Undefined? ==> r == Success(None)
    ensures r.Success? && Spelling(v).Some? ==> r.value == Some(if trim then Trim(Spelling(v).value) else Spelling(v).value)
    ensures r.Success? && r.value.Some? && trim ==> Trimmed(r.value.value)
  {
    if v.Undefined? then Success(None)
    else
      var s :- RequiredText(path, v, trim);
      Success(Some(s))
  }

  /** An optional, trimmed string path in an update. */
  function UpdateOptionalText(path: string, v: Value): (r: Result<Option<Option<string>>, SchemaError>)
    ensures r.Success? <==> StringLike(v)
    ensures v.Undefined? ==> r == Success(None)
    ensures v.Null? ==> r == Success(Some(None))
    ensures Spelling(v).Some? ==> r == Success(Some(Some(Trim(Spelling(v).value))))
    ensures r.Success? && r.value.Some? && r.value.value.Some? ==> Trimmed(r.value.value.value)
  {
    var f :- CastString(path, v, true);
    Success(UpdateOptional(f))
  }

  /** A required array path in an update: `null` fails the `required` validator. */
  function UpdateList(path: string, v: Value): (r: Result<Option<seq<string>>, SchemaError>)
    ensures r.Success? <==> ListLike(v)
    ensures v.Undefined? ==> r == Success(None)
    ensures v.Arr? ==> r == Success(Some(v.items))
    ensures Spelling(v).Some? ==> r == Success(Some([Spelling(v).value]))
  {
    var f := CastStrings(v);
    if f.Cleared? then Failure(RequiredError(path)) else Success(UpdateValue(f))
  }

  /** The updates the schema accepts: every supplied path holds a value it would accept
      on save, and `undefined` leaves a path alone. */
  predicate Updatable(update: Object) {
    && (Get(update, "title").Undefined? || PresentText(Get(update, "title"), true))
    && (Get(update, "company").Undefined? || PresentText(Get(update, "company"), true))
    && StringLike(Get(update, "location"))
    && StringLike(Get(update, "salary"))
    && (Get(update, "description").Undefined? || PresentText(Get(update, "description"), false))
    && ListLike(Get(update, "requirements"))
    && ListLike(Get(update, "benefits"))
    && StatusLike(Get(update, "status"))
    && DateLike(Get(update, "createdAt"))
    && NumberLike(Get(update, "applicants"))
  }

  /** Casting and validating an update before it is sent to the database: only the
      supplied paths are checked, with the same casts and validators as on save. */
  function CastUpdate(update: Object): (r: Result<Patch, SchemaError>)
    ensures r.Success? <==> Updatable(update)
    ensures r.Success? ==>
      && (Get(update, "title") == Undefined <==> r.value.title.None?)
      && (Get(update, "company") == Undefined <==> r.value.company.None?)
      && (Get(update, "location") == Undefined <==> r.value.location.None?)
      && (Get(update, "salary") == Undefined <==> r.value.salary.None?)
      && (Get(update, "description") == Undefined <==> r.value.description.None?)
      && (Get(update, "requirements") == Undefined <==> r.value.requirements.None?)
      && (Get(update, "benefits") == Undefined <==> r.value.benefits.None?)
      && (Get(update, "status") == Undefined <==> r.value.status.None?)
      && (Get(update, "createdAt") == Undefined <==> r.value.createdAt.None?)
      && (Get(update, "applicants") == Undefined <==> r.value.applicants.None?)
  {
    var title :- UpdateRequiredText("title", Get(update, "title"), true);
    var company :- UpdateRequiredText("company", Get(update, "company"), true);
    var location :- UpdateOptionalText("location", Get(update, "location"));
    var salary :- UpdateOptionalText("salary", Get(update, "salary"));
    var description :- UpdateRequiredText("description", Get(update, "description"), false);
    var requirements :- UpdateList("requirements", Get(update, "requirements"));
    var benefits :- UpdateList("benefits", Get(update, "benefits"));
    var status :- CastStatus(Get(update, "status"));
    var createdAt :- CastDate(Get(update, "createdAt"));
    var applicants :- CastNumber(Get(update, "applicants"));
    Success(Patch(
      title, company, location, salary, description, requirements, benefits,
      UpdateValue(status), UpdateValue(createdAt), UpdateOptional(applicants)))
  }

  /** The document after `$set`-ing the supplied paths. */
  function ApplyPatch(doc: JobDoc, p: Patch): JobDoc {
    JobDoc(
      p.title.GetOr(doc.title),
      p.company.GetOr(doc.company),
      p.location.GetOr(doc.location),
      p.salary.GetOr(doc.salary),
      p.description.GetOr(doc.description),
      p.requirements.GetOr(doc.requirements),
      p.benefits.GetOr(doc.benefits),
      p.status.GetOr(doc.status),
      p.createdAt.GetOr(doc.createdAt),
      p.applicants.GetOr(doc.applicants))
  }

  /** A stored document whose required paths hold text. */
  predicate Complete(doc: JobDoc) {
    doc.title != "" && doc.company != "" && doc.description != ""
  }

  /** `findByIdAndUpdate(id, update, { runValidators: true })` on one document: the update
      is accepted exactly when it is updatable, it changes only the paths it supplies, and
      it never empties a required path. */
  function UpdateDoc(doc: JobDoc, update: Object): (r: Result<JobDoc, SchemaError>)
    ensures r.Success? <==> Updatable(update)
    ensures r.Success? ==>
      && (Get(update, "title") == Undefined ==> r.value.title == doc.title)
      && (Get(update, "company") == Undefined ==> r.value.company == doc.company)
      && (Get(update, "location") == Undefined ==> r.value.location == doc.location)
      && (Get(update, "salary") == Undefined ==> r.value.salary == doc.salary)
      && (Get(update, "description") == Undefined ==> r.value.description == doc.description)
      && (Get(update, "requirements") == Undefined ==> r.value.requirements == doc.requirements)
      && (Get(update, "benefits") == Undefined ==> r.value.benefits == doc.benefits)
      && (Get(update, "status") == Undefined ==> r.value.status == doc.status)
      && (Get(update, "createdAt") == Undefined ==> r.value.createdAt == doc.createdAt)
      && (Get(update, "applicants") == Undefined ==> r.value.applicants == doc.applicants)
    ensures r.Success? && Complete(doc) ==> Complete(r.value)
  {
    var p :- CastUpdate(update);
    Success(ApplyPatch(doc, p))
  }

  /** An update stores what it supplies, trimmed where the schema trims; `null` clears an
      optional path. */
  lemma UpdateStoresSupplied(doc: JobDoc, update: Object)
    requires Updatable(update)
    ensures UpdateDoc(doc, update).Success?
    ensures var d := UpdateDoc(doc, update).value;
      && (Spelling(Get(update, "title")).Some? ==> d.title == Trim(Spelling(Get(update, "title")).value))
      && (Spelling(Get(update, "company")).Some? ==> d.company == Trim(Spelling(Get(update, "company")).value))
      && (Spelling(Get(update, "description")).Some? ==> d.description == Spelling(Get(update, "description")).value)
      && (Spelling(Get(update, "location")).Some? ==> d.location == Some(Trim(Spelling(Get(update, "location")).value)))
      && (Get(update, "location").Null? ==> d.location.None?)
      && (Get(update, "requirements").Arr? ==> d.requirements == Get(update, "requirements").items)
      && (Get(update, "benefits").Arr? ==> d.benefits == Get(update, "benefits").items)
      && (Get(update, "status") == Str("closed") ==> d.status == Closed)
      && (Get(update, "status") == Str("active") ==> d.status == Active)
      && (Get(update, "applicants").Num? ==> d.applicants == Some(Get(update, "applicants").n))
      && (Get(update, "applicants").Null? ==> d.applicants.None?)
  {
  }
}
