/** `POST` of app/api/jobs/route.ts: creating a job from a JSON body typed in by a person.
    The body is checked for six required fields in a fixed order, newline-separated
    `requirements` and `benefits` are split into lists, and the job is saved with the
    current time as its creation time. */
module ManualRoute {
  import opened Wrappers
  import opened Text
  import opened Json
  import opened JobSchema
  import opened JobStore
  import opened Http

  /** What `request.json()` produced: a parse failure (it throws) or a document. */
  datatype BodyOutcome = Unparseable | Parsed(doc: Document)

  /** The fields checked, in the order they are checked. `salary` is not among them. */
  const RequiredFields: seq<string> := ["title", "company", "location", "description", "requirements", "benefits"]

  const CreatedMessage: string := "Job created successfully"
  const CreateFailedMessage: string := "Error creating job"

  /** The 400 message naming a missing field. */
  function MissingMessage(field: string): string {
    "Missing required field: " + field
  }

  /** The index of the first of `fields[i..]` whose value in `o` is falsy. */
  function FirstFalsy(o: Object, fields: seq<string>, i: nat): (r: Option<nat>)
    requires i <= |fields|
    decreases |fields| - i
    ensures r.None? <==> forall k | i <= k < |fields| :: Truthy(Get(o, fields[k]))
    ensures r.Some? ==> i <= r.value < |fields| && !Truthy(Get(o, fields[r.value]))
    ensures r.Some? ==> forall k | i <= k < r.value :: Truthy(Get(o, fields[k]))
  {
    if i == |fields| then None
    else if !Truthy(Get(o, fields[i])) then Some(i)
    else FirstFalsy(o, fields, i + 1)
  }

  /** `json.requirements.split('\n').filter(Boolean)` when the value is a string; any other
      value is left as it is. */
  function SplitIfString(v: Value): (r: Value)
    ensures !v.Str? ==> r == v
    ensures v.Str? ==> (
      && r.Arr?
      && (forall k | 0 <= k < |r.items| :: r.items[k] != [] && '\n' !in r.items[k])
      && (forall x :: x in r.items <==> x in SplitLines(v.s) && x != "")
      && Concat(r.items) == RemoveChar(v.s, '\n'))
    ensures v.Str? ==> r == Arr(DropEmpty(SplitLines(v.s)))
  {
    if v.Str? then NonEmptyLinesOfSplit(v.s); Arr(NonEmptyLines(v.s)) else v
  }

  /** A string of line-feed-free pieces joined by line feeds becomes the list of its
      non-empty pieces, in order. */
  lemma SplitIfStringJoin(xs: seq<string>)
    requires |xs| >= 1
    requires forall k :: 0 <= k < |xs| ==> '\n' !in xs[k]
    ensures SplitIfString(Str(Join(xs, '\n'))) == Arr(DropEmpty(xs))
  {
    NonEmptyLinesOfJoin(xs);
  }

  /** The object handed to `createJob`: the body with its string lists split and
      `createdAt` set to the current time. */
  function Prepared(o: Object, now: nat): Object {
    var o := if Get(o, "requirements").Str? then o["requirements" := SplitIfString(o["requirements"])] else o;
    var o := if Get(o, "benefits").Str? then o["benefits" := SplitIfString(o["benefits"])] else o;
    o["createdAt" := Num(now)]
  }

  /** The route: its response and the collection after it. `dbUp` is false when the
      database connection fails, which makes `createJob` throw. */
  function Post(body: BodyOutcome, now: nat, dbUp: bool, s: Store): (r: (Response, Store))
    requires Valid(s)
    ensures Valid(r.1)
    ensures r.0.status in {200, 400, 500}
    ensures r.0.status != 200 ==> r.1 == s
    ensures r.0.status == 200 ==> r.0.body.JobBody? && r.0.body.message == CreatedMessage
    ensures r.0.status == 200 ==> r.0.body.job.id !in s.docs && r.1.docs.Keys == s.docs.Keys + {r.0.body.job.id}
    ensures r.0.status == 500 ==> r.0.body == ErrorBody(CreateFailedMessage)
    ensures r.0.status == 400 <==> (body.Parsed? && !body.doc.NullDoc? &&
      (body.doc.NonObjectDoc? || exists k | 0 <= k < |RequiredFields| :: !Truthy(Get(body.doc.fields, RequiredFields[k]))))
    ensures r.0.status == 200 <==>
      && body.Parsed? && body.doc.ObjectDoc?
      && (forall k | 0 <= k < |RequiredFields| :: Truthy(Get(body.doc.fields, RequiredFields[k])))
      && dbUp && Acceptable(CreationData(Prepared(body.doc.fields, now)))
    ensures body.Unparseable? || body == Parsed(NullDoc) ==> r == (Error(500, CreateFailedMessage), s)
  {
    match body
    case Unparseable => (Error(500, CreateFailedMessage), s)
    case Parsed(NullDoc) => (Error(500, CreateFailedMessage), s)
    case Parsed(NonObjectDoc) => (Error(400, MissingMessage(RequiredFields[0])), s)
    case Parsed(ObjectDoc(o)) =>
      match FirstFalsy(o, RequiredFields, 0)
      case Some(k) => (Error(400, MissingMessage(RequiredFields[k])), s)
      case None =>
        if !dbUp then (Error(500, CreateFailedMessage), s)
        else
          match CreateJob(s, Prepared(o, now), now)
          case Failure(_) => (Error(500, CreateFailedMessage), s)
          case Success((s', job)) => (Ok(CreatedMessage, job), s')
  }

  /** The 400 names the first required field, in the fixed order, whose value is falsy. */
  lemma MissingFieldIsFirst(o: Object, k: nat, now: nat, dbUp: bool, s: Store)
    requires Valid(s)
    requires k < |RequiredFields| && !Truthy(Get(o, RequiredFields[k]))
    requires forall m | 0 <= m < k :: Truthy(Get(o, RequiredFields[m]))
    ensures Post(Parsed(ObjectDoc(o)), now, dbUp, s) == (Error(400, MissingMessage(RequiredFields[k])), s)
  {
  }

  /** "Missing" means falsy: exactly `undefined`, `null`, `false`, `0` and the empty string
      are missing, so every array passes, the empty one included, and so does every
      non-empty string. */
  lemma FalsyValues(v: Value)
    ensures !Truthy(v) <==> v in {Undefined, Null, Bool(false), Num(0), Str("")}
    ensures v.Arr? ==> Truthy(v)
    ensures v.Str? ==> (Truthy(v) <==> v.s != "")
  {
  }

  /** `salary` plays no part in the required-field check. */
  lemma SalaryNeverRequired(o: Object, v: Value, now: nat, dbUp: bool, s: Store)
    requires Valid(s)
    ensures var o' := o["salary" := v];
      Post(Parsed(ObjectDoc(o')), now, dbUp, s).0.status == 400 <==> Post(Parsed(ObjectDoc(o)), now, dbUp, s).0.status == 400
  {
    RequiredIgnoresSalary(o, v);
  }

  lemma RequiredIgnoresSalary(o: Object, v: Value)
    ensures forall k | 0 <= k < |RequiredFields| :: Get(o["salary" := v], RequiredFields[k]) == Get(o, RequiredFields[k])
  {
    forall k | 0 <= k < |RequiredFields|
      ensures Get(o["salary" := v], RequiredFields[k]) == Get(o, RequiredFields[k])
    {
      assert RequiredFields[k] != "salary";
    }
  }

  /** A created job carries the current time, is active with no applicants whatever the
      body says, and holds the body's string lists as their non-empty lines and its array
      lists unchanged. */
  lemma CreatedJobFields(o: Object, now: nat, s: Store)
    requires Valid(s)
    requires Post(Parsed(ObjectDoc(o)), now, true, s).0.status == 200
    ensures var job := Post(Parsed(ObjectDoc(o)), now, true, s).0.body.job;
      && job.createdAt == now
      && job.status == Active
      && job.applicants == 0
      && (Get(o, "requirements").Str? ==> job.requirements == NonEmptyLines(Get(o, "requirements").s))
      && (Get(o, "requirements").Arr? ==> job.requirements == Get(o, "requirements").items)
      && (Get(o, "benefits").Str? ==> job.benefits == NonEmptyLines(Get(o, "benefits").s))
      && (Get(o, "benefits").Arr? ==> job.benefits == Get(o, "benefits").items)
  {
    var data := Prepared(o, now);
    assert CreateJob(s, data, now).Success? && Post(Parsed(ObjectDoc(o)), now, true, s).0.body.job == CreateJob(s, data, now).value.1;
    PreparedFields(o, now);
  }

  /** The prepared object's creation time and lists, path by path. */
  lemma PreparedFields(o: Object, now: nat)
    ensures var data := Prepared(o, now);
      && Get(data, "createdAt") == Num(now)
      && (Get(o, "requirements").Str? ==> Get(data, "requirements") == Arr(NonEmptyLines(Get(o, "requirements").s)))
      && (Get(o, "requirements").Arr? ==> Get(data, "requirements") == Get(o, "requirements"))
      && (Get(o, "benefits").Str? ==> Get(data, "benefits") == Arr(NonEmptyLines(Get(o, "benefits").s)))
      && (Get(o, "benefits").Arr? ==> Get(data, "benefits") == Get(o, "benefits"))
  {
  }
}
