/** The job-listing data functions of lib/db.ts over an in-memory collection: a map from
    document id to stored document. Ids are handed out by a counter, standing for the
    fresh `ObjectId` that every insertion receives. */
module JobStore {
  import opened Wrappers
  import opened Json
  import opened JobSchema
  import opened Text

  /** The `jobs` collection. */
  datatype Store = Store(docs: map<nat, JobDoc>, nextId: nat)

  /** Every stored id was handed out before, so the next one is fresh. */
  predicate Valid(s: Store) {
    forall id | id in s.docs :: id < s.nextId
  }

  /** The empty collection. */
  const Empty: Store := Store(map[], 0)

  /** The client-side `Job` of lib/db.ts: the stored document with its id, and with
      `applicants` always present. */
  datatype Job = Job(
    id: nat,
    title: string,
    company: string,
    location: Option<string>,
    salary: Option<string>,
    description: string,
    requirements: seq<string>,
    benefits: seq<string>,
    status: Status,
    createdAt: nat,
    applicants: int)

  /** `convertDocToJob` (and the identical mappings in `getJobs` and `getJobById`): every
      field is copied, and a missing `applicants` count reads as 0 (`applicants || 0`). */
  function ToJob(id: nat, doc: JobDoc): (j: Job)
    ensures j.id == id && FromJob(j) == doc.(applicants := Some(doc.applicants.GetOr(0)))
    ensures doc.applicants.None? ==> j.applicants == 0
    ensures doc.applicants.Some? ==> j.applicants == doc.applicants.value
  {
    Job(id, doc.title, doc.company, doc.location, doc.salary, doc.description,
        doc.requirements, doc.benefits, doc.status, doc.createdAt, doc.applicants.GetOr(0))
  }

  /** The stored document a `Job` describes. */
  function FromJob(j: Job): JobDoc {
    JobDoc(j.title, j.company, j.location, j.salary, j.description,
           j.requirements, j.benefits, j.status, j.createdAt, Some(j.applicants))
  }

  /** Converting a stored document and back loses nothing but the difference between a
      missing count and a count of 0. */
  lemma JobRoundTrip(id: nat, doc: JobDoc, j: Job)
    ensures doc.applicants.Some? ==> FromJob(ToJob(id, doc)) == doc
    ensures ToJob(j.id, FromJob(j)) == j
  {
  }

  // ---------------------------------------------------------------------------
  // createJob
  // ---------------------------------------------------------------------------

  /** The object `createJob` hands to the model: the caller's fields, with `status` and
      `applicants` overwritten. */
  function CreationData(data: Object): Object {
    data["status" := Str("active")]["applicants" := Num(0)]
  }

  /** The creation data differs from the caller's fields only in the two paths it sets. */
  lemma CreationDataPaths(data: Object)
    ensures Get(CreationData(data), "status") == Str("active")
    ensures Get(CreationData(data), "applicants") == Num(0)
    ensures forall k | k != "status" && k != "applicants" :: Get(CreationData(data), k) == Get(data, k)
  {
  }

  /** `createJob(jobData)`: saves a new document with status `active` and no applicants
      under a fresh id and returns it; a document the schema refuses leaves the collection
      as it was. */
  function CreateJob(s: Store, data: Object, now: nat): (r: Result<(Store, Job), SchemaError>)
    requires Valid(s)
    ensures r.Success? <==> Acceptable(CreationData(data))
    ensures r.Success? ==> Valid(r.value.0)
    ensures r.Success? ==> r.value.1.status == Active && r.value.1.applicants == 0
    ensures r.Success? ==> r.value.1.id !in s.docs && r.value.0.docs.Keys == s.docs.Keys + {r.value.1.id}
    ensures r.Success? ==> forall id | id in s.docs :: r.value.0.docs[id] == s.docs[id]
    ensures r.Success? ==> Spelling(Get(data, "title")).Some? && r.value.1.title == Trim(Spelling(Get(data, "title")).value)
    ensures r.Success? ==> Spelling(Get(data, "description")).Some? && r.value.1.description == Spelling(Get(data, "description")).value
    ensures r.Success? ==> Spelling(Get(data, "company")).Some? && r.value.1.company == Trim(Spelling(Get(data, "company")).value)
    ensures r.Success? && Get(data, "location") == Undefined ==> r.value.1.location == Some(DefaultLocation)
    ensures r.Success? && Spelling(Get(data, "location")).Some? ==> r.value.1.location == Some(Trim(Spelling(Get(data, "location")).value))
    ensures r.Success? && Get(data, "createdAt").Num? ==> r.value.1.createdAt == Get(data, "createdAt").n
    ensures r.Success? && Get(data, "requirements").Arr? ==> r.value.1.requirements == Get(data, "requirements").items
    ensures r.Success? && Get(data, "benefits").Arr? ==> r.value.1.benefits == Get(data, "benefits").items
  {
    var d := CreationData(data);
    assert && Get(d, "title") == Get(data, "title") && Get(d, "company") == Get(data, "company")
           && Get(d, "location") == Get(data, "location") && Get(d, "description") == Get(data, "description")
           && Get(d, "requirements") == Get(data, "requirements") && Get(d, "benefits") == Get(data, "benefits")
           && Get(d, "createdAt") == Get(data, "createdAt");
    var doc :- Cast(d, now);
    var id := s.nextId;
    Success((Store(s.docs[id := doc], id + 1), ToJob(id, doc)))
  }

  /** Whatever `status` and `applicants` the caller passes, `createJob` behaves the same. */
  lemma CreateIgnoresStatusAndApplicants(s: Store, data: Object, now: nat, status: Value, applicants: Value)
    requires Valid(s)
    ensures CreateJob(s, data["status" := status]["applicants" := applicants], now) == CreateJob(s, data, now)
  {
    var d := data["status" := status]["applicants" := applicants];
    assert CreationData(d) == CreationData(data);
    assert Cast(CreationData(d), now) == Cast(CreationData(data), now);
  }

  // ---------------------------------------------------------------------------
  // getJobById
  // ---------------------------------------------------------------------------

  /** `getJobById(id)`: the stored document with that id, or `null`. */
  function GetJobById(s: Store, id: nat): (r: Option<Job>)
    ensures r.Some? <==> id in s.docs
    ensures r.Some? ==> r.value.id == id
    ensures r.Some? ==> FromJob(r.value) == s.docs[id].(applicants := Some(s.docs[id].applicants.GetOr(0)))
  {
    if id in s.docs then Some(ToJob(id, s.docs[id])) else None
  }

  /** A created job can be read back under the id it was returned with, with the same
      field values. */
  lemma CreateThenGet(s: Store, data: Object, now: nat)
    requires Valid(s)
    requires CreateJob(s, data, now).Success?
    ensures var (s', job) := CreateJob(s, data, now).value;
      GetJobById(s', job.id) == Some(job)
  {
  }

  // ---------------------------------------------------------------------------
  // updateJob
  // ---------------------------------------------------------------------------

  /** `updateJob(id, jobData)`: the update is validated first; an unknown id then yields
      `null` and changes nothing, and a known one has exactly the supplied paths replaced
      and is returned as it is after the update. No other document changes. */
  function UpdateJob(s: Store, id: nat, update: Object): (r: Result<(Store, Option<Job>), SchemaError>)
    ensures r.Success? <==> Updatable(update)
    ensures r.Success? && id !in s.docs ==> r.value == (s, None)
    ensures r.Success? && id in s.docs ==>
      var d := UpdateDoc(s.docs[id], update).value;
      && r.value.0 == Store(s.docs[id := d], s.nextId)
      && r.value.1 == Some(ToJob(id, d))
  {
    var p :- CastUpdate(update);
    if id !in s.docs then Success((s, None))
    else
      var d := ApplyPatch(s.docs[id], p);
      Success((Store(s.docs[id := d], s.nextId), Some(ToJob(id, d))))
  }

  /** Updating keeps the collection valid, and a later read returns what the update
      returned. */
  lemma UpdateThenGet(s: Store, id: nat, update: Object)
    requires Valid(s)
    requires UpdateJob(s, id, update).Success?
    ensures var (s', job) := UpdateJob(s, id, update).value;
      Valid(s') && GetJobById(s', id) == job
  {
  }

  // ---------------------------------------------------------------------------
  // deleteJob
  // ---------------------------------------------------------------------------

  /** `deleteJob(id)`: removes the document with that id, answering whether one was
      removed; every other document stays. */
  function DeleteJob(s: Store, id: nat): (r: (Store, bool))
    ensures r.1 <==> id in s.docs
    ensures r.0.docs.Keys == s.docs.Keys - {id}
    ensures forall k | k in r.0.docs :: r.0.docs[k] == s.docs[k]
    ensures |r.0.docs| == |s.docs| - (if r.1 then 1 else 0)
  {
    (Store(s.docs - {id}, s.nextId), id in s.docs)
  }

  /** After a deletion the job can no longer be read, and the listing omits it. */
  lemma DeleteThenGone(s: Store, id: nat)
    requires Valid(s)
    ensures Valid(DeleteJob(s, id).0)
    ensures GetJobById(DeleteJob(s, id).0, id) == None
    ensures forall j | j in GetJobs(DeleteJob(s, id).0) :: j.id != id
  {
  }

  // ---------------------------------------------------------------------------
  // getJobs
  // ---------------------------------------------------------------------------

  /** Newest first: `createdAt` never increases along the list. */
  predicate NewestFirst(js: seq<Job>) {
    forall i, j | 0 <= i < j < |js| :: js[i].createdAt >= js[j].createdAt
  }

  /** The stored ids below `n`. */
  function IdsBelow(s: Store, n: nat): set<nat> {
    set id | id in s.docs && id < n
  }

  /** The stored documents with ids below `n`, in ascending id order (insertion order). */
  function Collect(s: Store, n: nat): (r: seq<Job>)
    ensures |r| == |IdsBelow(s, n)|
    ensures forall j | j in r :: j.id in s.docs && j.id < n && j == ToJob(j.id, s.docs[j.id])
    ensures forall id | id in s.docs && id < n :: ToJob(id, s.docs[id]) in r
  {
    if n == 0 then
      assert IdsBelow(s, n) == {};
      []
    else
      var rest := Collect(s, n - 1);
      if n - 1 in s.docs then
        assert IdsBelow(s, n) == IdsBelow(s, n - 1) + {n - 1};
        rest + [ToJob(n - 1, s.docs[n - 1])]
      else
        assert IdsBelow(s, n) == IdsBelow(s, n - 1);
        rest
  }

  /** `x` placed before the first element of a newest-first list that is not newer. */
  function Insert(x: Job, ys: seq<Job>): (r: seq<Job>)
    requires NewestFirst(ys)
    ensures NewestFirst(r)
    ensures multiset(r) == multiset(ys) + multiset{x}
    ensures |r| > 0 && (r[0] == x || (ys != [] && r[0] == ys[0]))
  {
    if ys == [] || x.createdAt >= ys[0].createdAt then
      [x] + ys
    else
      var tail := Insert(x, ys[1..]);
      assert ys == [ys[0]] + ys[1..];
      [ys[0]] + tail
  }

  /** A stable sort by `createdAt`, newest first. */
  function SortNewestFirst(xs: seq<Job>): (r: seq<Job>)
    ensures NewestFirst(r)
    ensures multiset(r) == multiset(xs)
  {
    if xs == [] then []
    else
      assert xs == [xs[0]] + xs[1..];
      Insert(xs[0], SortNewestFirst(xs[1..]))
  }

  /** `getJobs()`: every stored document exactly once, newest first. */
  function GetJobs(s: Store): (r: seq<Job>)
    requires Valid(s)
    ensures NewestFirst(r)
    ensures |r| == |s.docs|
    ensures forall j | j in r :: j.id in s.docs && j == ToJob(j.id, s.docs[j.id])
    ensures forall id | id in s.docs :: ToJob(id, s.docs[id]) in r
  {
    assert IdsBelow(s, s.nextId) == s.docs.Keys;
    var all := Collect(s, s.nextId);
    var r := SortNewestFirst(all);
    assert forall j :: j in r <==> j in all by {
      forall j ensures j in r <==> j in all {
        assert j in r <==> j in multiset(r);
      }
    }
    assert |r| == |multiset(r)|;
    r
  }
}
