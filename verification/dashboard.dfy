/** The figures of the two dashboard pages, app/dashboard/page.tsx and
    app/dashboard/jobs/page.tsx, computed from the `getJobs()` listing. Markup and date
    formatting are not modelled. */
module Dashboard {
  import opened Text
  import opened JobSchema
  import opened JobStore

  // ---------------------------------------------------------------------------
  // The overview page
  // ---------------------------------------------------------------------------

  /** How many jobs the overview previews. */
  const PreviewSize: nat := 3

  /** `recentJobs.slice(0, 3)`: the first three jobs, or all of them when there are
      fewer. */
  function TopJobs(js: seq<Job>): (r: seq<Job>)
    ensures |r| == if |js| < PreviewSize then |js| else PreviewSize
    ensures r == js[..|r|]
  {
    if |js| < PreviewSize then js else js[..PreviewSize]
  }

  /** `jobs.filter(job => job.status === st)`: the jobs of that status, in their order. */
  function Filter(js: seq<Job>, st: Status): (r: seq<Job>)
    ensures |r| <= |js|
    ensures forall j | j in r :: j in js && j.status == st
    ensures forall j | j in js && j.status == st :: j in r
  {
    if js == [] then []
    else (if js[0].status == st then [js[0]] else []) + Filter(js[1..], st)
  }

  /** The "Active Jobs" figure. */
  function ActiveCount(js: seq<Job>): (n: nat)
    ensures n <= |js|
    ensures n == |Filter(js, Active)|
  {
    |Filter(js, Active)|
  }

  /** `job.applicants || 0`: a falsy count reads as 0. The client-side job always has an
      integer count, and 0 is its only falsy value. */
  function ShownApplicants(j: Job): (n: int)
    ensures j.applicants != 0 ==> n == j.applicants
    ensures j.applicants == 0 ==> n == 0
  {
    if j.applicants != 0 then j.applicants else 0
  }

  /** `jobs.reduce((sum, job) => sum + (job.applicants || 0), sum)`: a left fold. */
  function SumFrom(sum: int, js: seq<Job>): (r: int)
    ensures (forall j | j in js :: j.applicants >= 0) ==> r >= sum
    decreases |js|
  {
    if js == [] then sum else SumFrom(sum + ShownApplicants(js[0]), js[1..])
  }

  /** The "Total Applicants" figure. */
  function TotalApplicants(js: seq<Job>): (n: int)
    ensures (forall j | j in js :: j.applicants >= 0) ==> n >= 0
  {
    SumFrom(0, js)
  }

  /** The "View All" link of the listing header shows when there is any job. */
  predicate ShowsViewAll(js: seq<Job>) {
    |js| > 0
  }

  /** The "View all N job listings" link shows when there are more than three jobs. */
  predicate ShowsViewAllCount(js: seq<Job>) {
    |js| > PreviewSize
  }

  // ---------------------------------------------------------------------------
  // The listing page
  // ---------------------------------------------------------------------------

  /** `status.charAt(0).toUpperCase() + status.slice(1)`. */
  function StatusLabel(st: Status): (shown: string)
    ensures st == Active ==> shown == "Active"
    ensures st == Closed ==> shown == "Closed"
  {
    Capitalize(StatusName(st))
  }

  // ---------------------------------------------------------------------------
  // Properties
  // ---------------------------------------------------------------------------

  /** The preview is the newest part of the listing: no job left out of it is newer than
      one shown. */
  lemma TopAreNewest(s: Store)
    requires Valid(s)
    ensures var js := GetJobs(s);
      forall t, k | t in TopJobs(js) && |TopJobs(js)| <= k < |js| :: t.createdAt >= js[k].createdAt
  {
    var js := GetJobs(s);
    var top := TopJobs(js);
    forall t, k | t in top && |top| <= k < |js| ensures t.createdAt >= js[k].createdAt {
      var i :| 0 <= i < |top| && top[i] == t;
      assert js[i] == t;
    }
  }

  /** The "View all N" link shows exactly when the preview leaves some job out, and the
      header link whenever the preview shows anything. */
  lemma ViewAllLinks(js: seq<Job>)
    ensures ShowsViewAllCount(js) <==> |TopJobs(js)| < |js|
    ensures ShowsViewAll(js) <==> |TopJobs(js)| > 0
  {
  }

  /** Filtering distributes over concatenation, so each filter keeps the jobs in their
      listing order. */
  lemma {:induction false} FilterConcat(a: seq<Job>, b: seq<Job>, st: Status)
    ensures Filter(a + b, st) == Filter(a, st) + Filter(b, st)
    decreases |a|
  {
    if a == [] {
      assert a + b == b;
    } else {
      assert (a + b)[1..] == a[1..] + b;
      FilterConcat(a[1..], b, st);
    }
  }

  /** Because a status is either active or closed, the two filters split the listing:
      their lengths add up, and together they hold each job as often as the listing. */
  lemma {:induction false} FilterPartition(js: seq<Job>)
    ensures |Filter(js, Active)| + |Filter(js, Closed)| == |js|
    ensures multiset(Filter(js, Active)) + multiset(Filter(js, Closed)) == multiset(js)
    decreases |js|
  {
    if js != [] {
      FilterPartition(js[1..]);
      assert js == [js[0]] + js[1..];
    }
  }

  /** Summing from an accumulator adds it to the sum from zero. */
  lemma {:induction false} SumFromShift(sum: int, js: seq<Job>)
    ensures SumFrom(sum, js) == sum + SumFrom(0, js)
    decreases |js|
  {
    if js != [] {
      SumFromShift(sum + ShownApplicants(js[0]), js[1..]);
      SumFromShift(ShownApplicants(js[0]), js[1..]);
    }
  }

  /** The total of a concatenation is the sum of the totals. */
  lemma {:induction false} TotalConcat(a: seq<Job>, b: seq<Job>)
    ensures TotalApplicants(a + b) == TotalApplicants(a) + TotalApplicants(b)
    decreases |a|
  {
    if a == [] {
      assert a + b == b;
    } else {
      assert (a + b)[1..] == a[1..] + b;
      TotalConcat(a[1..], b);
      SumFromShift(ShownApplicants(a[0]), a[1..] + b);
      SumFromShift(ShownApplicants(a[0]), a[1..]);
    }
  }

  /** The total of one job is the count it shows: with `TotalConcat` and the empty total,
      the figure is the sum of the shown counts. */
  lemma TotalSingle(j: Job)
    ensures TotalApplicants([j]) == ShownApplicants(j)
    ensures TotalApplicants([]) == 0
  {
    assert [j][1..] == [];
    assert SumFrom(0, [j]) == SumFrom(ShownApplicants(j), []);
  }

  /** A stored document without a count is shown with 0 applicants, and one with a count
      is shown with it. */
  lemma ShownApplicantsOfStored(s: Store, id: nat)
    requires id in s.docs
    ensures ShownApplicants(GetJobById(s, id).value) == s.docs[id].applicants.GetOr(0)
  {
  }

  /** Jobs that were only ever created (never updated to a negative count) have no
      applicants, so a listing of them totals 0. */
  lemma {:induction false} FreshJobsTotalZero(js: seq<Job>)
    requires forall j | j in js :: j.applicants == 0
    ensures TotalApplicants(js) == 0
    decreases |js|
  {
    if js != [] {
      FreshJobsTotalZero(js[1..]);
      SumFromShift(0, js[1..]);
    }
  }
}
