/** The candidate dashboard's job list (static/portal.js:478-497 and
    :520-539): the page keeps the last fetched jobs in `jobsCache` and shows
    those that pass the search box, the location box and the three
    location check-boxes. */
module JobFilters {
  import opened Wrappers
  import opened Strings

  /** The job fields the filter reads; a field that is missing, `null` or
      empty is `None` or "" alike (`j.title || ''`). */
  datatype JobCard = JobCard(title: Option<string>, description: Option<string>,
                             skills: Option<string>, location: Option<string>)

  /** The filter inputs: the two text boxes as typed, and the check-boxes
      (a missing element reads as unchecked). */
  datatype Filters = Filters(query: string, location: string, remote: bool, onsite: bool, hybrid: bool)

  const NoFilters := Filters("", "", false, false, false)

  function OrEmpty(o: Option<string>): string {
    if o.Some? then o.value else ""
  }

  /** The lower-cased `title description skills`, joined by single spaces. */
  function JobText(j: JobCard): string {
    Lower(OrEmpty(j.title) + AfterTitle(j))
  }

  function AfterTitle(j: JobCard): string {
    " " + OrEmpty(j.description) + " " + OrEmpty(j.skills)
  }

  function JobLocation(j: JobCard): string {
    Lower(OrEmpty(j.location))
  }

  /** The predicate `applyJobFilters` passes to `jobs.filter`. */
  predicate Keeps(f: Filters, j: JobCard) {
    var q, loc, jloc := Lower(f.query), Lower(f.location), JobLocation(j);
    && (q == "" || Contains(JobText(j), q))
    && (loc == "" || Contains(jloc, loc))
    && (!f.remote || Contains(jloc, "remote"))
    && (!f.onsite || Contains(jloc, "on-site") || Contains(jloc, "onsite"))
    && (!f.hybrid || Contains(jloc, "hybrid"))
  }

  /** `applyJobFilters(jobs)`. */
  function ApplyJobFilters(jobs: seq<JobCard>, f: Filters): seq<JobCard> {
    if jobs == [] then []
    else if Keeps(f, jobs[0]) then [jobs[0]] + ApplyJobFilters(jobs[1..], f)
    else ApplyJobFilters(jobs[1..], f)
  }

  /** `a` is `b` with some elements left out, the rest in their order. */
  predicate Subsequence<T(==)>(a: seq<T>, b: seq<T>)
    decreases |b|
  {
    a == [] || (b != [] && if a[0] == b[0] then Subsequence(a[1..], b[1..]) else Subsequence(a, b[1..]))
  }

  /** `g` asks for at least what `f` asks for: the same text boxes and every
      check-box of `f` still checked. */
  predicate Stricter(g: Filters, f: Filters) {
    g.query == f.query && g.location == f.location
    && (f.remote ==> g.remote) && (f.onsite ==> g.onsite) && (f.hybrid ==> g.hybrid)
  }

  // ---------- Properties ----------

  /** A job is shown exactly when it is in the list and passes the filter. */
  lemma {:induction false} ApplyMembership(jobs: seq<JobCard>, f: Filters, j: JobCard)
    ensures j in ApplyJobFilters(jobs, f) <==> j in jobs && Keeps(f, j)
  {
    if jobs != [] {
      ApplyMembership(jobs[1..], f, j);
      assert jobs == [jobs[0]] + jobs[1..];
    }
  }

  /** The result keeps the input's order: it is a sub-list of it. */
  lemma {:induction false} ApplySubsequence(jobs: seq<JobCard>, f: Filters)
    ensures Subsequence(ApplyJobFilters(jobs, f), jobs)
  {
    if jobs != [] {
      ApplySubsequence(jobs[1..], f);
      var rest := ApplyJobFilters(jobs[1..], f);
      if !Keeps(f, jobs[0]) {
        SubsequenceSkip(rest, jobs);
      } else {
        assert ([jobs[0]] + rest)[1..] == rest;
      }
    }
  }

  /** A sub-list of `b[1..]` is a sub-list of `b`. */
  lemma {:induction false} SubsequenceSkip<T>(a: seq<T>, b: seq<T>)
    requires b != [] && Subsequence(a, b[1..])
    ensures Subsequence(a, b)
    decreases |b|
  {
    if a != [] && a[0] == b[0] {
      var c := b[1..];
      SubsequenceTail(a, c);
      SubsequenceSkip(a[1..], c);
    }
  }

  /** Dropping the first element of a sub-list keeps a sub-list of the tail. */
  lemma {:induction false} SubsequenceTail<T>(a: seq<T>, c: seq<T>)
    requires a != [] && Subsequence(a, c)
    ensures Subsequence(a[1..], c[1..])
    decreases |c|
  {
    if a[0] != c[0] {
      SubsequenceTail(a, c[1..]);
      SubsequenceSkip(a[1..], c[1..]);
    }
  }

  /** Filtering the filtered list changes nothing. */
  lemma {:induction false} ApplyIdempotent(jobs: seq<JobCard>, f: Filters)
    ensures ApplyJobFilters(ApplyJobFilters(jobs, f), f) == ApplyJobFilters(jobs, f)
  {
    if jobs != [] {
      ApplyIdempotent(jobs[1..], f);
      if Keeps(f, jobs[0]) {
        assert ([jobs[0]] + ApplyJobFilters(jobs[1..], f))[1..] == ApplyJobFilters(jobs[1..], f);
      }
    }
  }

  /** With empty boxes and no check-box every job is shown. */
  lemma {:induction false} NoFiltersShowAll(jobs: seq<JobCard>)
    ensures ApplyJobFilters(jobs, NoFilters) == jobs
  {
    if jobs != [] {
      NoFiltersShowAll(jobs[1..]);
      assert Keeps(NoFilters, jobs[0]);
      assert jobs == [jobs[0]] + jobs[1..];
    }
  }

  /** Filtering works job by job: the shown jobs of two lists joined are
      those of each list, joined. */
  lemma {:induction false} ApplyAppend(a: seq<JobCard>, b: seq<JobCard>, f: Filters)
    ensures ApplyJobFilters(a + b, f) == ApplyJobFilters(a, f) + ApplyJobFilters(b, f)
  {
    if a == [] {
      assert a + b == b;
    } else {
      assert (a + b)[0] == a[0] && (a + b)[1..] == a[1..] + b;
      ApplyAppend(a[1..], b, f);
      if Keeps(f, a[0]) {
        SeqAppendAssoc([a[0]], ApplyJobFilters(a[1..], f), ApplyJobFilters(b, f));
      }
    }
  }

  /** Checking more boxes never adds a job: the stricter filter shows what
      it shows of the looser filter's result. */
  lemma {:induction false} StricterFiltersNarrow(jobs: seq<JobCard>, f: Filters, g: Filters)
    requires Stricter(g, f)
    ensures ApplyJobFilters(jobs, g) == ApplyJobFilters(ApplyJobFilters(jobs, f), g)
    ensures Subsequence(ApplyJobFilters(jobs, g), ApplyJobFilters(jobs, f))
  {
    if jobs != [] {
      StricterFiltersNarrow(jobs[1..], f, g);
      var rest := ApplyJobFilters(jobs[1..], f);
      if Keeps(f, jobs[0]) {
        assert ([jobs[0]] + rest)[0] == jobs[0] && ([jobs[0]] + rest)[1..] == rest;
        if !Keeps(g, jobs[0]) {
          SubsequenceSkip(ApplyJobFilters(jobs[1..], g), [jobs[0]] + rest);
        }
      } else {
        assert !Keeps(g, jobs[0]);
      }
    }
  }

  /** The query is compared case-blind: only its lower-cased form matters. */
  lemma QueryCaseBlind(f: Filters, j: JobCard)
    ensures Keeps(f.(query := Lower(f.query)), j) == Keeps(f, j)
  {
    LowerIdempotent(f.query);
  }

  lemma LowerIdempotent(s: string)
    ensures Lower(Lower(s)) == Lower(s)
  {
    assert forall i :: 0 <= i < |s| ==> LowerChar(LowerChar(s[i])) == LowerChar(s[i]);
  }

  /** A query found (case-blind) in the title passes the query box. */
  lemma QueryInTitlePasses(f: Filters, j: JobCard)
    requires j.title.Some? && Contains(Lower(j.title.value), Lower(f.query))
    ensures Contains(JobText(j), Lower(f.query))
  {
    LowerContainsPrefix(j.title.value, AfterTitle(j), Lower(f.query));
  }

  lemma LowerContainsPrefix(t: string, rest: string, q: string)
    requires Contains(Lower(t), q)
    ensures Contains(Lower(t + rest), q)
  {
    LowerAppend(t, rest);
    ContainsPrefixOf(Lower(t), Lower(rest), q);
  }

  /** The query is matched against the joined text, so it may span two
      fields: "r p" matches a job titled "senior" with description
      "python". */
  lemma QuerySpansFields()
    ensures Keeps(Filters("r p", "", false, false, false), JobCard(Some("senior"), Some("python"), None, None))
  {
    var j := JobCard(Some("senior"), Some("python"), None, None);
    SeniorPythonText();
    assert Lower("r p") == "r p" by {
      LowerOfLowercase("r p");
    }
    assert JobLocation(j) == "";
  }

  lemma SeniorPythonText()
    ensures JobText(JobCard(Some("senior"), Some("python"), None, None)) == "senior python "
    ensures Contains("senior python ", "r p")
  {
    var j := JobCard(Some("senior"), Some("python"), None, None);
    assert AfterTitle(j) == " python ";
    assert "senior" + " python " == "senior python ";
    LowerOfLowercase("senior python ");
    SpanningMatch();
  }

  lemma SpanningMatch()
    ensures Contains("senior python ", "r p")
  {
    assert "senior python "[5..8] == "r p";
    ContainsAt("senior python ", "r p", 5);
  }

  lemma LowerOfLowercase(s: string)
    requires forall i :: 0 <= i < |s| ==> !('A' <= s[i] <= 'Z')
    ensures Lower(s) == s
  {
  }

  // ---------- The cache ----------

  /** The reply of `GET /api/jobs`: a body `{ok, jobs}` (`jobs` absent or
      `null` is `None`), or a fetch or JSON error. */
  datatype JobsReply = Loaded(ok: bool, jobs: Option<seq<JobCard>>) | FetchFailed

  /** The page's job list. */
  class JobBoard {
    var jobsCache: seq<JobCard>

    constructor ()
      ensures jobsCache == []
    {
      jobsCache := [];
    }

    /** `renderCandidateJobs()`: the cache is replaced by the reply's jobs,
        or by the empty list when the reply is not ok or the fetch failed (a
        failure does not keep the previous jobs), and the shown jobs are the
        cache filtered. */
    method RenderCandidateJobs(reply: JobsReply, f: Filters) returns (shown: seq<JobCard>)
      modifies this
      ensures jobsCache == if reply.Loaded? && reply.ok && reply.jobs.Some? then reply.jobs.value else []
      ensures shown == ApplyJobFilters(jobsCache, f)
      ensures forall j :: j in shown <==> j in jobsCache && Keeps(f, j)
    {
      if reply.Loaded? && reply.ok {
        jobsCache := reply.jobs.GetOr([]);
      } else {
        jobsCache := [];
      }
      shown := ApplyJobFilters(jobsCache, f);
      forall j ensures j in shown <==> j in jobsCache && Keeps(f, j) {
        ApplyMembership(jobsCache, f, j);
      }
    }
  }
}
