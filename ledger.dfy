/** The status cards of the candidate dashboard (static/portal.js:499-508):
    the applications the page has stored locally are counted in total and
    by the four statuses "shortlisted", "interview", "rejected" and
    "offer". */
module CandidateLedger {
  import opened Wrappers

  /** A stored application; only its `status` is read (`None` when absent). */
  datatype LedgerEntry = LedgerEntry(status: Option<string>)

  /** `apps.filter((a) => a.status === status).length`. */
  function CountStatus(apps: seq<LedgerEntry>, status: string): (n: nat)
    ensures n <= |apps|
  {
    if apps == [] then 0
    else (if apps[0].status == Some(status) then 1 else 0) + CountStatus(apps[1..], status)
  }

  /** The five numbers the cards show. */
  datatype StatusCounts = StatusCounts(total: nat, shortlisted: nat, interview: nat, rejected: nat, offer: nat)

  function CountLedger(apps: seq<LedgerEntry>): StatusCounts {
    StatusCounts(|apps|, CountStatus(apps, "shortlisted"), CountStatus(apps, "interview"),
                 CountStatus(apps, "rejected"), CountStatus(apps, "offer"))
  }

  /** What one entry adds to the counts. */
  function EntryCounts(e: LedgerEntry): StatusCounts {
    StatusCounts(1, if e.status == Some("shortlisted") then 1 else 0, if e.status == Some("interview") then 1 else 0,
                 if e.status == Some("rejected") then 1 else 0, if e.status == Some("offer") then 1 else 0)
  }

  function Add(a: StatusCounts, b: StatusCounts): StatusCounts {
    StatusCounts(a.total + b.total, a.shortlisted + b.shortlisted, a.interview + b.interview,
                 a.rejected + b.rejected, a.offer + b.offer)
  }

  // ---------- Properties ----------

  /** The counts are additive over the stored list. */
  lemma {:induction false} CountStatusAppend(a: seq<LedgerEntry>, b: seq<LedgerEntry>, status: string)
    ensures CountStatus(a + b, status) == CountStatus(a, status) + CountStatus(b, status)
  {
    if a == [] {
      assert a + b == b;
    } else {
      assert (a + b)[0] == a[0] && (a + b)[1..] == a[1..] + b;
      CountStatusAppend(a[1..], b, status);
    }
  }

  /** Storing one more application adds exactly that entry's counts. */
  lemma CountAfterStoring(apps: seq<LedgerEntry>, e: LedgerEntry)
    ensures CountLedger(apps + [e]) == Add(CountLedger(apps), EntryCounts(e))
  {
    CountStatusAppend(apps, [e], "shortlisted");
    CountStatusAppend(apps, [e], "interview");
    CountStatusAppend(apps, [e], "rejected");
    CountStatusAppend(apps, [e], "offer");
    assert [e][1..] == [];
  }

  /** An entry counts under at most one status, so the four status cards
      never add up to more than the total. */
  lemma {:induction false} StatusCountsBound(apps: seq<LedgerEntry>)
    ensures var c := CountLedger(apps);
      c.shortlisted + c.interview + c.rejected + c.offer <= c.total
  {
    if apps != [] {
      StatusCountsBound(apps[1..]);
    }
  }

  /** Entries with an other or no status count only in the total. */
  lemma {:induction false} UncountedStatuses(apps: seq<LedgerEntry>)
    requires forall i :: 0 <= i < |apps| ==>
      apps[i].status !in {Some("shortlisted"), Some("interview"), Some("rejected"), Some("offer")}
    ensures CountLedger(apps) == StatusCounts(|apps|, 0, 0, 0, 0)
  {
    if apps != [] {
      UncountedStatuses(apps[1..]);
    }
  }
}
