/** The counting and collecting loops of the recruiter endpoints of
    server.py: the applications list of `api_recruiter_applications`
    (server.py:350-366) and the dashboard counters of `api_recruiter_stats`
    (server.py:500-516). The database reads are parameters: `jobs` is what
    `list_jobs_by_recruiter` returned, and `fetch(id)` is what
    `list_applicants_for_job(id)` returns, `None` when that call raises. */
module RecruiterApi {
  import opened Wrappers

  /** A row of the jobs table as a dictionary. The table has no status
      column, so `status` is `None` on every row the database returns. */
  datatype Job = Job(id: int, title: string, status: Option<string>)

  /** A row of the applications table as a dictionary, with the two keys the
      applications endpoint writes into it. */
  datatype Application = Application(
    id: int,
    candidateName: Option<string>,
    status: Option<string>,
    jobId: int,
    jobTitle: Option<string>)

  /** What `list_applicants_for_job` gives for a job id. */
  type Fetch = int -> Option<seq<Application>>

  // ---------- Aggregation (server.py:350-366) ----------

  /** `[job["id"] for job in recruiter_jobs]`. */
  function Ids(jobs: seq<Job>): (r: seq<int>)
    ensures |r| == |jobs|
    ensures forall i :: 0 <= i < |jobs| ==> r[i] == jobs[i].id
  {
    if jobs == [] then [] else [jobs[0].id] + Ids(jobs[1..])
  }

  /** `next((job for job in recruiter_jobs if job["id"] == id), {})
      .get("title", "Unknown Job")`. */
  function TitleOf(jobs: seq<Job>, id: int): string {
    if jobs == [] then "Unknown Job"
    else if jobs[0].id == id then jobs[0].title
    else TitleOf(jobs[1..], id)
  }

  /** The two keys the inner loop writes into one application. */
  function Tagged(a: Application, id: int, title: string): Application {
    a.(jobId := id, jobTitle := Some(title))
  }

  /** The applications of one job, tagged, in the order fetched. */
  function TagAll(apps: seq<Application>, id: int, title: string): (r: seq<Application>)
    ensures |r| == |apps|
    ensures forall i :: 0 <= i < |apps| ==> r[i] == Tagged(apps[i], id, title)
  {
    if apps == [] then [] else [Tagged(apps[0], id, title)] + TagAll(apps[1..], id, title)
  }

  /** What one outer iteration contributes: nothing when the fetch raised
      (the `except: continue`), the tagged applications otherwise. */
  function Contribution(jobs: seq<Job>, id: int, fetch: Fetch): seq<Application> {
    match fetch(id)
    case None => []
    case Some(apps) => TagAll(apps, id, TitleOf(jobs, id))
  }

  /** The list built by the outer loop over `ids`, in loop order. */
  function Collected(jobs: seq<Job>, ids: seq<int>, fetch: Fetch): seq<Application>
    decreases |ids|
  {
    if ids == [] then []
    else Collected(jobs, ids[..|ids| - 1], fetch) + Contribution(jobs, ids[|ids| - 1], fetch)
  }

  /** The `applications` list of the reply. */
  function Aggregated(jobs: seq<Job>, fetch: Fetch): seq<Application> {
    Collected(jobs, Ids(jobs), fetch)
  }

  /** The handler's loops. The `job_id` query parameter is the same name as
      the loop variable, so it is overwritten before it is ever read: the
      result does not depend on `jobIdParam`. */
  method RecruiterApplications(jobs: seq<Job>, jobIdParam: Option<int>, fetch: Fetch)
    returns (all: seq<Application>)
    ensures all == Aggregated(jobs, fetch)
  {
    var jobIds := Ids(jobs);
    all := [];
    for k := 0 to |jobIds|
      invariant all == Collected(jobs, jobIds[..k], fetch)
    {
      var jobId := jobIds[k];
      assert jobIds[..k + 1][..k] == jobIds[..k];
      assert Collected(jobs, jobIds[..k + 1], fetch) == all + Contribution(jobs, jobId, fetch);
      var fetched := fetch(jobId);
      if fetched.Some? {
        all := TagInto(all, fetched.value, jobId, TitleOf(jobs, jobId));
      }
    }
    assert jobIds[..|jobIds|] == jobIds;
  }

  /** The inner loop: each fetched application, tagged, is appended. */
  method TagInto(all: seq<Application>, apps: seq<Application>, id: int, title: string)
    returns (r: seq<Application>)
    ensures r == all + TagAll(apps, id, title)
  {
    r := all;
    for i := 0 to |apps|
      invariant r == all + TagAll(apps[..i], id, title)
    {
      assert apps[..i + 1] == apps[..i] + [apps[i]];
      TagAllSnoc(apps[..i], apps[i], id, title);
      r := r + [Tagged(apps[i], id, title)];
    }
    assert apps[..|apps|] == apps;
  }

  lemma TagAllSnoc(apps: seq<Application>, a: Application, id: int, title: string)
    ensures TagAll(apps + [a], id, title) == TagAll(apps, id, title) + [Tagged(a, id, title)]
  {
    var l, r := TagAll(apps + [a], id, title), TagAll(apps, id, title) + [Tagged(a, id, title)];
    assert |l| == |r|;
    forall i | 0 <= i < |l| ensures l[i] == r[i] {
      if i < |apps| { assert (apps + [a])[i] == apps[i]; }
    }
  }

  /** The title found for an id is that of the first job with that id, and it
      falls back to "Unknown Job" only for an id no job has. */
  lemma {:induction false} TitleOfFirst(jobs: seq<Job>, id: int)
    ensures (exists i :: 0 <= i < |jobs| && jobs[i].id == id) ==>
      exists i :: 0 <= i < |jobs| && jobs[i].id == id && TitleOf(jobs, id) == jobs[i].title
              && forall m :: 0 <= m < i ==> jobs[m].id != id
    ensures (forall i :: 0 <= i < |jobs| ==> jobs[i].id != id) ==> TitleOf(jobs, id) == "Unknown Job"
  {
    if jobs != [] {
      TitleOfFirst(jobs[1..], id);
      if jobs[0].id != id {
        if exists i :: 0 <= i < |jobs| && jobs[i].id == id {
          var i :| 0 <= i < |jobs| && jobs[i].id == id;
          assert jobs[1..][i - 1].id == id;
          var i' :| 0 <= i' < |jobs[1..]| && jobs[1..][i'].id == id && TitleOf(jobs[1..], id) == jobs[1..][i'].title
                    && forall m :: 0 <= m < i' ==> jobs[1..][m].id != id;
          assert forall m :: 0 <= m < i' + 1 ==> jobs[m].id != id by {
            forall m | 0 <= m < i' + 1 ensures jobs[m].id != id {
              if m > 0 { assert jobs[m] == jobs[1..][m - 1]; }
            }
          }
        }
        if forall i :: 0 <= i < |jobs| ==> jobs[i].id != id {
          assert forall i :: 0 <= i < |jobs[1..]| ==> jobs[1..][i].id != id by {
            forall i | 0 <= i < |jobs[1..]| ensures jobs[1..][i].id != id { assert jobs[1..][i] == jobs[i + 1]; }
          }
        }
      }
    }
  }

  /** An application is owned when its job id and job title are those of
      the first of the recruiter's jobs with that id. */
  predicate Owned(jobs: seq<Job>, a: Application) {
    exists i :: 0 <= i < |jobs| && jobs[i].id == a.jobId && a.jobTitle == Some(jobs[i].title)
             && forall m :: 0 <= m < i ==> jobs[m].id != a.jobId
  }

  /** Every application collected over ids of the recruiter's jobs is owned. */
  lemma {:induction false} CollectedOwned(jobs: seq<Job>, ids: seq<int>, fetch: Fetch)
    requires forall k :: 0 <= k < |ids| ==> exists i :: 0 <= i < |jobs| && jobs[i].id == ids[k]
    ensures forall a :: a in Collected(jobs, ids, fetch) ==> Owned(jobs, a)
    decreases |ids|
  {
    if ids != [] {
      var init, id := ids[..|ids| - 1], ids[|ids| - 1];
      assert forall k :: 0 <= k < |init| ==> init[k] == ids[k];
      CollectedOwned(jobs, init, fetch);
      TitleOfFirst(jobs, id);
      assert exists i :: 0 <= i < |jobs| && jobs[i].id == ids[|ids| - 1];
      forall a | a in Contribution(jobs, id, fetch) ensures Owned(jobs, a) {
        var apps := fetch(id).value;
        var n :| 0 <= n < |apps| && a == Tagged(apps[n], id, TitleOf(jobs, id));
      }
    }
  }

  /** Every application in the reply carries the id and title of a job the
      recruiter owns. */
  lemma AggregatedOwned(jobs: seq<Job>, fetch: Fetch)
    ensures forall a :: a in Aggregated(jobs, fetch) ==> Owned(jobs, a)
  {
    var ids := Ids(jobs);
    forall k | 0 <= k < |ids| ensures exists i :: 0 <= i < |jobs| && jobs[i].id == ids[k] {
      assert jobs[k].id == ids[k];
    }
    CollectedOwned(jobs, ids, fetch);
  }

  /** Conversely every application fetched for a job whose fetch did not
      raise is in the reply, tagged with that job's id. */
  lemma {:induction false} CollectedComplete(jobs: seq<Job>, ids: seq<int>, fetch: Fetch, k: nat, n: nat)
    requires k < |ids| && fetch(ids[k]).Some? && n < |fetch(ids[k]).value|
    ensures Tagged(fetch(ids[k]).value[n], ids[k], TitleOf(jobs, ids[k])) in Collected(jobs, ids, fetch)
    decreases |ids|
  {
    var init := ids[..|ids| - 1];
    if k < |ids| - 1 {
      assert init[k] == ids[k];
      CollectedComplete(jobs, init, fetch, k, n);
    } else {
      assert Contribution(jobs, ids[k], fetch)[n] == Tagged(fetch(ids[k]).value[n], ids[k], TitleOf(jobs, ids[k]));
    }
  }

  // ---------- Stats (server.py:500-516) ----------

  /** `j.get('status') != 'closed'`. */
  predicate IsActive(j: Job) { j.status != Some("closed") }

  /** `not app.get('status') or app.get('status') == 'pending'`: a missing or
      empty status counts as pending. */
  predicate IsPending(a: Application) {
    a.status == None || a.status == Some("") || a.status == Some("pending")
  }

  predicate IsHired(a: Application) { a.status == Some("hired") }

  function CountActive(jobs: seq<Job>): (n: nat)
    ensures n <= |jobs|
  {
    if jobs == [] then 0 else (if IsActive(jobs[0]) then 1 else 0) + CountActive(jobs[1..])
  }

  function CountPending(apps: seq<Application>): (n: nat)
    ensures n <= |apps|
  {
    if apps == [] then 0 else (if IsPending(apps[0]) then 1 else 0) + CountPending(apps[1..])
  }

  function CountHired(apps: seq<Application>): (n: nat)
    ensures n <= |apps|
  {
    if apps == [] then 0 else (if IsHired(apps[0]) then 1 else 0) + CountHired(apps[1..])
  }

  /** The three application counters. */
  datatype Tally = Tally(total: nat, pending: nat, hired: nat) {
    function Plus(other: Tally): Tally {
      Tally(total + other.total, pending + other.pending, hired + other.hired)
    }
  }

  const Zero := Tally(0, 0, 0)

  /** What one job's applications add to the counters. */
  function TallyOf(apps: seq<Application>): Tally {
    Tally(|apps|, CountPending(apps), CountHired(apps))
  }

  /** The counters after the loop over `jobs`: the `try` encloses the whole
      loop, so the first fetch that raises ends the counting and the jobs
      before it keep their counts. */
  function Counted(jobs: seq<Job>, fetch: Fetch): Tally {
    if jobs == [] then Zero
    else match fetch(jobs[0].id)
      case None => Zero
      case Some(apps) => TallyOf(apps).Plus(Counted(jobs[1..], fetch))
  }

  /** The `stats` object of the reply. */
  datatype Stats = Stats(activeJobs: nat, totalApplications: nat, pendingReviews: nat, hiredCandidates: nat)

  function StatsOf(jobs: seq<Job>, fetch: Fetch): Stats {
    var t := Counted(jobs, fetch);
    Stats(CountActive(jobs), t.total, t.pending, t.hired)
  }

  /** The handler's counting, as it runs. */
  method RecruiterStats(jobs: seq<Job>, fetch: Fetch) returns (s: Stats)
    ensures s == StatsOf(jobs, fetch)
  {
    var activeJobs := CountActive(jobs);
    var total: nat, pending: nat, hired: nat := 0, 0, 0;
    var i := 0;
    assert jobs[0..] == jobs;
    ZeroPlus(Counted(jobs, fetch));
    while i < |jobs|
      invariant 0 <= i <= |jobs|
      invariant Tally(total, pending, hired).Plus(Counted(jobs[i..], fetch)) == Counted(jobs, fetch)
    {
      var fetched := fetch(jobs[i].id);
      CountedFrom(jobs, i, fetch);
      if fetched.None? {
        ZeroPlus(Tally(total, pending, hired));
        return Stats(activeJobs, total, pending, hired);
      }
      var jobApplications := fetched.value;
      total := total + |jobApplications|;
      pending := pending + CountPending(jobApplications);
      hired := hired + CountHired(jobApplications);
      i := i + 1;
    }
    assert jobs[i..] == [];
    ZeroPlus(Tally(total, pending, hired));
    s := Stats(activeJobs, total, pending, hired);
  }

  lemma ZeroPlus(t: Tally)
    ensures Zero.Plus(t) == t && t.Plus(Zero) == t
  {
  }

  /** One step of the loop over `jobs[i..]`. */
  lemma CountedFrom(jobs: seq<Job>, i: nat, fetch: Fetch)
    requires i < |jobs|
    ensures fetch(jobs[i].id).None? ==> Counted(jobs[i..], fetch) == Zero
    ensures fetch(jobs[i].id).Some? ==>
      Counted(jobs[i..], fetch) == TallyOf(fetch(jobs[i].id).value).Plus(Counted(jobs[i + 1..], fetch))
  {
    assert jobs[i..][0] == jobs[i];
    assert jobs[i..][1..] == jobs[i + 1..];
  }

  /** Pending and hired are disjoint, so they never exceed one job's total. */
  lemma {:induction false} PendingHiredBound(apps: seq<Application>)
    ensures CountPending(apps) + CountHired(apps) <= |apps|
  {
    if apps != [] {
      PendingHiredBound(apps[1..]);
    }
  }

  /** Pending plus hired never exceeds the total, on every path (including a
      fetch that raises part way). */
  lemma {:induction false} StatsBound(jobs: seq<Job>, fetch: Fetch)
    ensures var s := StatsOf(jobs, fetch);
      s.pendingReviews + s.hiredCandidates <= s.totalApplications && s.activeJobs <= |jobs|
  {
    CountedBound(jobs, fetch);
  }

  lemma {:induction false} CountedBound(jobs: seq<Job>, fetch: Fetch)
    ensures Counted(jobs, fetch).pending + Counted(jobs, fetch).hired <= Counted(jobs, fetch).total
  {
    if jobs != [] && fetch(jobs[0].id).Some? {
      PendingHiredBound(fetch(jobs[0].id).value);
      CountedBound(jobs[1..], fetch);
    }
  }

  /** A fetch that raises for job `k` drops the counts of job `k` and of every
      job after it. */
  lemma {:induction false} FailureStopsCounting(jobs: seq<Job>, fetch: Fetch, k: nat)
    requires k < |jobs| && fetch(jobs[k].id).None?
    ensures Counted(jobs, fetch) == Counted(jobs[..k], fetch)
  {
    if k > 0 {
      assert jobs[1..][k - 1] == jobs[k];
      FailureStopsCounting(jobs[1..], fetch, k - 1);
      assert jobs[..k][1..] == jobs[1..][..k - 1];
    }
  }

  /** With no status key on any job row (the jobs table has no such column),
      every job counts as active. */
  lemma {:induction false} AllActiveWithoutStatus(jobs: seq<Job>)
    requires forall i :: 0 <= i < |jobs| ==> jobs[i].status == None
    ensures CountActive(jobs) == |jobs|
  {
    if jobs != [] {
      assert forall i :: 0 <= i < |jobs[1..]| ==> jobs[1..][i] == jobs[i + 1];
      AllActiveWithoutStatus(jobs[1..]);
    }
  }
}
