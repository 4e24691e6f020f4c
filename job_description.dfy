/** The job-description encoding of server.py. The jobs table has no columns
    for company, job type, location, salary or category, so posting a job
    folds them into the description text (server.py:386-391) and updating a
    job folds all but the company (server.py:413-417); listing jobs reads them
    back out of the description (server.py:298-320 for the public list,
    server.py:330-340 for a recruiter's own list). */
module JobDescription {
  import opened Wrappers
  import opened Strings

  const CompanyPrefix := "Company: "
  /** The placeholder shown when a description carries no company line. */
  const DefaultCompany := "Company Name"

  /** The four metadata fields that travel inside the description. */
  datatype MetaField = JobTypeField | LocationField | SalaryField | CategoryField

  function Prefix(k: MetaField): (p: string)
    ensures |p| > 0
  {
    match k
    case JobTypeField => "Job Type: "
    case LocationField => "Location: "
    case SalaryField => "Salary: "
    case CategoryField => "Category: "
  }

  /** The form fields of a job post or job update (all default to ""). */
  datatype JobForm = JobForm(
    description: string,
    companyName: string,
    jobType: string,
    location: string,
    salary: string,
    category: string)

  function FormField(f: JobForm, k: MetaField): string {
    match k
    case JobTypeField => f.jobType
    case LocationField => f.location
    case SalaryField => f.salary
    case CategoryField => f.category
  }

  /** A job row as the listing endpoints return it. The optional fields are
      keys the parse may add to the row's dictionary; `None` means absent. */
  datatype JobRow = JobRow(
    id: int,
    title: string,
    description: string,
    companyName: Option<string>,
    jobType: Option<string>,
    location: Option<string>,
    salary: Option<string>,
    category: Option<string>)

  function RowField(j: JobRow, k: MetaField): Option<string> {
    match k
    case JobTypeField => j.jobType
    case LocationField => j.location
    case SalaryField => j.salary
    case CategoryField => j.category
  }

  /** `job[key] = value` for a metadata key. */
  function SetRowField(j: JobRow, k: MetaField, v: string): JobRow {
    match k
    case JobTypeField => j.(jobType := Some(v))
    case LocationField => j.(location := Some(v))
    case SalaryField => j.(salary := Some(v))
    case CategoryField => j.(category := Some(v))
  }

  /** Everything of a row except its metadata keys. */
  function Base(j: JobRow): JobRow {
    j.(jobType := None, location := None, salary := None, category := None)
  }

  // ---------- Encoding ----------

  /** What one `if value: description += lead + prefix + value` step adds. */
  function FieldText(lead: string, k: MetaField, value: string): string {
    if value != "" then lead + Prefix(k) + value else ""
  }

  /** The metadata block: a line per non-empty field, in the fixed order Job
      Type (after a blank line), Location, Salary, Category. */
  function MetadataText(f: JobForm): string {
    FieldText("\n\n", JobTypeField, f.jobType) + FieldText("\n", LocationField, f.location)
    + FieldText("\n", SalaryField, f.salary) + FieldText("\n", CategoryField, f.category)
  }

  /** The company header a job post puts first, only when a company is given. */
  function CompanyHeader(company: string): string {
    if company != "" then CompanyPrefix + company + "\n\n" else ""
  }

  /** The description stored by a job post: the company header, the stripped
      body, then the metadata block. */
  function PostedDescription(f: JobForm): string {
    CompanyHeader(f.companyName) + Strip(f.description) + MetadataText(f)
  }

  /** The description stored by a job update: never a company header. */
  function UpdatedDescription(f: JobForm): string {
    Strip(f.description) + MetadataText(f)
  }

  /** The four conditional `+=` steps both handlers end with. */
  method AppendMetadata(body: string, f: JobForm) returns (d: string)
    ensures d == body + MetadataText(f)
  {
    var t1 := FieldText("\n\n", JobTypeField, f.jobType);
    var t2 := FieldText("\n", LocationField, f.location);
    var t3 := FieldText("\n", SalaryField, f.salary);
    var t4 := FieldText("\n", CategoryField, f.category);
    d := body;
    if f.jobType != "" { d := d + ("\n\n" + "Job Type: " + f.jobType); }
    assert d == body + t1;
    if f.location != "" { d := d + ("\n" + "Location: " + f.location); }
    assert d == body + t1 + t2;
    if f.salary != "" { d := d + ("\n" + "Salary: " + f.salary); }
    assert d == body + t1 + t2 + t3;
    if f.category != "" { d := d + ("\n" + "Category: " + f.category); }
    assert d == body + t1 + t2 + t3 + t4;
    SeqAppendAssoc(body, t1, t2);
    SeqAppendAssoc(body, t1 + t2, t3);
    SeqAppendAssoc(body, t1 + t2 + t3, t4);
  }

  /** The post handler's description (server.py:386-391). */
  method ComposePosted(f: JobForm) returns (d: string)
    ensures d == PostedDescription(f)
  {
    var body := Strip(f.description);
    ghost var header := CompanyHeader(f.companyName);
    assert PostedDescription(f) == header + body + MetadataText(f);
    if f.companyName != "" {
      body := CompanyPrefix + f.companyName + "\n\n" + body;
    }
    assert body == header + Strip(f.description);
    d := AppendMetadata(body, f);
  }

  /** The update handler's description (server.py:413-417): the post
      encoding without a company. */
  method ComposeUpdated(f: JobForm) returns (d: string)
    ensures d == UpdatedDescription(f)
    ensures d == PostedDescription(f.(companyName := ""))
  {
    d := AppendMetadata(Strip(f.description), f);
    assert CompanyHeader("") + Strip(f.description) == Strip(f.description);
  }

  // ---------- Decoding ----------

  /** The value a metadata line carries: the prefix deleted, then stripped. */
  function FieldValue(line: string, k: MetaField): string {
    Strip(RemoveAll(line, Prefix(k)))
  }

  /** One iteration of the line loop (server.py:309-316): the `elif` chain
      sets at most one key, the first whose prefix the line starts with. */
  function ApplyFieldLine(j: JobRow, line: string): JobRow {
    if StartsWith(line, Prefix(JobTypeField)) then SetRowField(j, JobTypeField, FieldValue(line, JobTypeField))
    else if StartsWith(line, Prefix(LocationField)) then SetRowField(j, LocationField, FieldValue(line, LocationField))
    else if StartsWith(line, Prefix(SalaryField)) then SetRowField(j, SalaryField, FieldValue(line, SalaryField))
    else if StartsWith(line, Prefix(CategoryField)) then SetRowField(j, CategoryField, FieldValue(line, CategoryField))
    else j
  }

  /** The line loop over `lines`, first line first. */
  function ApplyFieldLines(j: JobRow, lines: seq<string>): JobRow
    decreases |lines|
  {
    if lines == [] then j
    else ApplyFieldLine(ApplyFieldLines(j, lines[..|lines| - 1]), lines[|lines| - 1])
  }

  /** The last line that starts with `p`, if any. */
  function LastWith(lines: seq<string>, p: string): (r: Option<string>)
    ensures r.Some? ==> StartsWith(r.value, p)
    decreases |lines|
  {
    if lines == [] then None
    else if StartsWith(lines[|lines| - 1], p) then Some(lines[|lines| - 1])
    else LastWith(lines[..|lines| - 1], p)
  }

  /** A field after the loop: the value of the last line with its prefix, or
      the row's earlier value when no line has it. */
  function Extracted(before: Option<string>, lines: seq<string>, k: MetaField): Option<string> {
    match LastWith(lines, Prefix(k))
    case Some(line) => Some(FieldValue(line, k))
    case None => before
  }

  /** The four prefixes exclude each other: they differ in their first letter. */
  lemma PrefixesExclusive(line: string, a: MetaField, b: MetaField)
    requires StartsWith(line, Prefix(a)) && StartsWith(line, Prefix(b))
    ensures a == b
  {
    assert line[0] == Prefix(a)[0] == Prefix(b)[0];
  }

  /** One line sets the field whose prefix it starts with and no other. */
  lemma ApplyFieldLineEffect(j: JobRow, line: string, k: MetaField)
    ensures RowField(ApplyFieldLine(j, line), k)
         == if StartsWith(line, Prefix(k)) then Some(FieldValue(line, k)) else RowField(j, k)
    ensures Base(ApplyFieldLine(j, line)) == Base(j)
  {
    if StartsWith(line, Prefix(k)) {
      forall k' | StartsWith(line, Prefix(k')) ensures k' == k { PrefixesExclusive(line, k, k'); }
    }
  }

  /** Every line starting with a metadata prefix sets that field, and a later
      line overrides an earlier one; nothing else in the row changes. */
  lemma {:induction false} FieldLinesLastWins(j: JobRow, lines: seq<string>, k: MetaField)
    ensures RowField(ApplyFieldLines(j, lines), k) == Extracted(RowField(j, k), lines, k)
    ensures Base(ApplyFieldLines(j, lines)) == Base(j)
    decreases |lines|
  {
    if lines != [] {
      var init := lines[..|lines| - 1];
      FieldLinesLastWins(j, init, k);
      ApplyFieldLineEffect(ApplyFieldLines(j, init), lines[|lines| - 1], k);
    }
  }

  /** The line loop of server.py:308-316 as it runs. */
  method ExtractFields(j: JobRow, lines: seq<string>) returns (r: JobRow)
    ensures r == ApplyFieldLines(j, lines)
  {
    r := j;
    for i := 0 to |lines|
      invariant r == ApplyFieldLines(j, lines[..i])
    {
      assert lines[..i + 1][..i] == lines[..i];
      r := ApplyFieldLine(r, lines[i]);
    }
    assert lines[..|lines|] == lines;
  }

  /** The company a description's first line names. */
  function CompanyOf(description: string): string {
    Strip(RemoveAll(Split(description, '\n')[0], CompanyPrefix))
  }

  /** One job of the public list (server.py:300-320). */
  function AnnotatePublic(j: JobRow): JobRow {
    if j.description != "" && StartsWith(j.description, CompanyPrefix) then
      ApplyFieldLines(j.(companyName := Some(CompanyOf(j.description))), Split(j.description, '\n'))
    else
      j.(companyName := Some(DefaultCompany))
  }

  /** One job of a recruiter's own list (server.py:331-340): only the company. */
  function AnnotateOwn(j: JobRow): JobRow {
    if j.description != "" && StartsWith(j.description, CompanyPrefix) then
      j.(companyName := Some(CompanyOf(j.description)))
    else
      j.(companyName := Some(DefaultCompany))
  }

  /** `api_jobs` mutating each row of the list in place (server.py:299-320). */
  method AnnotatePublicJobs(jobs: array<JobRow>)
    modifies jobs
    ensures forall i :: 0 <= i < jobs.Length ==> jobs[i] == AnnotatePublic(old(jobs[i]))
  {
    ghost var rows := jobs[..];
    for i := 0 to jobs.Length
      invariant forall k {:trigger AnnotatePublic(rows[k])} :: 0 <= k < i ==> jobs[k] == AnnotatePublic(rows[k])
      invariant forall k :: i <= k < jobs.Length ==> jobs[k] == rows[k]
    {
      var job := AnnotatePublicJob(jobs[i]);
      jobs[i] := job;
    }
  }

  /** The loop body of `api_jobs` for one row. */
  method AnnotatePublicJob(j: JobRow) returns (job: JobRow)
    ensures job == AnnotatePublic(j)
  {
    job := j;
    if job.description != "" && StartsWith(job.description, CompanyPrefix) {
      var lines := Split(job.description, '\n');
      job := job.(companyName := Some(Strip(RemoveAll(lines[0], CompanyPrefix))));
      job := ExtractFields(job, lines);
    } else {
      job := job.(companyName := Some(DefaultCompany));
    }
  }

  /** `api_recruiter_jobs` mutating each row in place (server.py:330-340). */
  method AnnotateOwnJobs(jobs: array<JobRow>)
    modifies jobs
    ensures forall i :: 0 <= i < jobs.Length ==> jobs[i] == AnnotateOwn(old(jobs[i]))
  {
    for i := 0 to jobs.Length
      invariant forall k :: 0 <= k < i ==> jobs[k] == AnnotateOwn(old(jobs[k]))
      invariant forall k :: i <= k < jobs.Length ==> jobs[k] == old(jobs[k])
    {
      var job := jobs[i];
      if job.description != "" && StartsWith(job.description, CompanyPrefix) {
        var lines := Split(job.description, '\n');
        job := job.(companyName := Some(Strip(RemoveAll(lines[0], CompanyPrefix))));
      } else {
        job := job.(companyName := Some(DefaultCompany));
      }
      jobs[i] := job;
    }
  }

  // ---------- Properties of the encoding ----------

  /** The lines one `AppendField` step adds: a blank line first when its
      lead is a blank line, then the field line. */
  function FieldLines(blankFirst: bool, k: MetaField, value: string): seq<string> {
    if value == "" then [] else if blankFirst then ["", Prefix(k) + value] else [Prefix(k) + value]
  }

  /** The lines of the metadata block, in order. */
  function MetadataLines(f: JobForm): seq<string> {
    FieldLines(true, JobTypeField, f.jobType) + FieldLines(false, LocationField, f.location)
    + FieldLines(false, SalaryField, f.salary) + FieldLines(false, CategoryField, f.category)
  }

  predicate OneLine(s: string) { '\n' !in s }

  /** Metadata values that fit on one line. */
  predicate OneLineMetadata(f: JobForm) {
    OneLine(f.jobType) && OneLine(f.location) && OneLine(f.salary) && OneLine(f.category)
  }

  /** The lead of a step: a blank line before Job Type, a line break otherwise. */
  function Lead(blankFirst: bool): string {
    if blankFirst then "\n\n" else "\n"
  }

  /** One step adds its lines after the lines already there. */
  lemma SplitFieldText(d: string, blankFirst: bool, k: MetaField, value: string)
    requires OneLine(value)
    ensures Split(d + FieldText(Lead(blankFirst), k, value), '\n') == Split(d, '\n') + FieldLines(blankFirst, k, value)
  {
    if value == "" {
      assert d + "" == d;
    } else {
      var line := Prefix(k) + value;
      assert OneLine(Prefix(k));
      assert OneLine(line);
      SeqAppendAssoc(Lead(blankFirst), Prefix(k), value);
      SeqAppendAssoc(d, Lead(blankFirst), line);
      if blankFirst {
        SplitTwoLines(d, line);
      } else {
        SplitSnoc(d, line, '\n');
      }
    }
  }

  /** A blank line and then a line. */
  lemma SplitTwoLines(d: string, line: string)
    requires OneLine(line)
    ensures Split(d + "\n\n" + line, '\n') == Split(d, '\n') + ["", line]
  {
    assert d + "\n\n" + line == (d + ['\n'] + "") + ['\n'] + line;
    SplitSnoc(d, "", '\n');
    SplitSnoc(d + ['\n'] + "", line, '\n');
  }

  /** The metadata block adds exactly its lines after the lines of what precedes it. */
  lemma SplitMetadata(x: string, f: JobForm)
    requires OneLineMetadata(f)
    ensures Split(x + MetadataText(f), '\n') == Split(x, '\n') + MetadataLines(f)
  {
    var t1 := FieldText(Lead(true), JobTypeField, f.jobType);
    var t2 := FieldText(Lead(false), LocationField, f.location);
    var t3 := FieldText(Lead(false), SalaryField, f.salary);
    var t4 := FieldText(Lead(false), CategoryField, f.category);
    var l1 := FieldLines(true, JobTypeField, f.jobType);
    var l2 := FieldLines(false, LocationField, f.location);
    var l3 := FieldLines(false, SalaryField, f.salary);
    var l4 := FieldLines(false, CategoryField, f.category);
    SeqAppendAssoc(x, t1, t2);
    SeqAppendAssoc(x, t1 + t2, t3);
    SeqAppendAssoc(x, t1 + t2 + t3, t4);
    var d1, d2, d3 := x + t1, x + t1 + t2, x + t1 + t2 + t3;
    SplitFieldText(x, true, JobTypeField, f.jobType);
    SplitFieldText(d1, false, LocationField, f.location);
    SplitFieldText(d2, false, SalaryField, f.salary);
    SplitFieldText(d3, false, CategoryField, f.category);
    SeqAppendAssoc(Split(x, '\n'), l1, l2);
    SeqAppendAssoc(Split(x, '\n'), l1 + l2, l3);
    SeqAppendAssoc(Split(x, '\n'), l1 + l2 + l3, l4);
  }

  /** The last line with a prefix lies in the later part when that part has one. */
  lemma {:induction false} LastWithAppend(a: seq<string>, b: seq<string>, p: string)
    ensures LastWith(a + b, p) == if LastWith(b, p).Some? then LastWith(b, p) else LastWith(a, p)
    decreases |b|
  {
    if b == [] {
      assert a + b == a;
    } else {
      var w := a + b;
      assert w[|w| - 1] == b[|b| - 1];
      assert w[..|w| - 1] == a + b[..|b| - 1];
      LastWithAppend(a, b[..|b| - 1], p);
    }
  }

  /** Which line of one step's lines starts with the prefix of `k`. */
  lemma FieldLinesLast(blankFirst: bool, own: MetaField, value: string, k: MetaField)
    ensures LastWith(FieldLines(blankFirst, own, value), Prefix(k))
         == if value != "" && own == k then Some(Prefix(own) + value) else None
  {
    var line := Prefix(own) + value;
    assert StartsWith(line, Prefix(own)) by { assert line[..|Prefix(own)|] == Prefix(own); }
    if StartsWith(line, Prefix(k)) { PrefixesExclusive(line, own, k); }
    if value != "" {
      var lines := FieldLines(blankFirst, own, value);
      assert lines[|lines| - 1] == line;
      if blankFirst {
        assert lines[..|lines| - 1] == [""];
        assert !StartsWith("", Prefix(k));
        assert [""][..0] == [];
      } else {
        assert lines[..|lines| - 1] == [];
      }
    }
  }

  /** The metadata lines hold, for each non-empty field, its own line last. */
  lemma MetadataLinesLast(f: JobForm, k: MetaField)
    ensures LastWith(MetadataLines(f), Prefix(k)) == if FormField(f, k) != "" then Some(Prefix(k) + FormField(f, k)) else None
  {
    var t := FieldLines(true, JobTypeField, f.jobType);
    var l := FieldLines(false, LocationField, f.location);
    var s := FieldLines(false, SalaryField, f.salary);
    var c := FieldLines(false, CategoryField, f.category);
    FieldLinesLast(true, JobTypeField, f.jobType, k);
    FieldLinesLast(false, LocationField, f.location, k);
    FieldLinesLast(false, SalaryField, f.salary, k);
    FieldLinesLast(false, CategoryField, f.category, k);
    LastWithAppend(t + l + s, c, Prefix(k));
    LastWithAppend(t + l, s, Prefix(k));
    LastWithAppend(t, l, Prefix(k));
  }

  /** The value a field is listed with after a post: the posted value
      stripped when it is non-empty, otherwise that of the last body line
      with the field's prefix, if any. */
  function Recovered(posted: string, fromBody: Option<string>, k: MetaField): Option<string> {
    if posted != "" then Some(Strip(posted))
    else match fromBody
      case Some(line) => Some(FieldValue(line, k))
      case None => None
  }

  /** One field after the round trip. */
  lemma RecoveredField(bodyLines: seq<string>, f: JobForm, k: MetaField)
    requires !Contains(FormField(f, k), Prefix(k))
    ensures Extracted(None, bodyLines + MetadataLines(f), k)
         == Recovered(FormField(f, k), LastWith(bodyLines, Prefix(k)), k)
  {
    MetadataLinesLast(f, k);
    LastWithAppend(bodyLines, MetadataLines(f), Prefix(k));
    if FormField(f, k) != "" { RemoveLeadingPattern(Prefix(k), FormField(f, k)); }
  }

  /** Values that come back from the description unchanged but for
      stripping: each fits on one line and does not contain its own prefix. */
  predicate Recoverable(f: JobForm) {
    && OneLine(f.companyName) && !Contains(f.companyName, CompanyPrefix)
    && OneLineMetadata(f)
    && forall k: MetaField :: !Contains(FormField(f, k), Prefix(k))
  }

  /** The metadata block is empty or starts with a line break. */
  lemma MetadataStartsWithBreak(f: JobForm)
    ensures MetadataText(f) == "" || MetadataText(f)[0] == '\n'
  {
    var t1 := FieldText(Lead(true), JobTypeField, f.jobType);
    var t2 := FieldText(Lead(false), LocationField, f.location);
    var t3 := FieldText(Lead(false), SalaryField, f.salary);
    var t4 := FieldText(Lead(false), CategoryField, f.category);
    assert t1 == "" || t1[0] == '\n';
    assert t2 == "" || t2[0] == '\n';
    assert t3 == "" || t3[0] == '\n';
    assert t4 == "" || t4[0] == '\n';
  }

  /** A company header makes the company line the first line. */
  lemma HeaderFirstLine(company: string, t: string, m: string)
    requires company != "" && OneLine(company)
    ensures var d := CompanyHeader(company) + t + m;
      d != "" && StartsWith(d, CompanyPrefix) && Split(d, '\n')[0] == CompanyPrefix + company
  {
    var head := CompanyPrefix + company;
    var rest := "\n" + t + m;
    assert CompanyHeader(company) == head + ['\n'] + "\n";
    SeqAppendAssoc(head + ['\n'], "\n", t);
    SeqAppendAssoc(head + ['\n'], "\n" + t, m);
    FirstPiece(head, rest, '\n');
    SeqAppendAssoc(head, ['\n'], rest);
    StartsWithAppend(CompanyPrefix, company, ['\n'] + rest);
  }

  /** Text that is empty or starts with a line break cannot complete a
      company prefix. */
  lemma NoPrefixAfter(b: string, m: string)
    requires !StartsWith(b, CompanyPrefix)
    requires m == "" || m[0] == '\n'
    ensures !StartsWith(b + m, CompanyPrefix)
  {
    var w := b + m;
    if |b| >= |CompanyPrefix| {
      assert w[..|CompanyPrefix|] == b[..|CompanyPrefix|];
    } else if m != "" && |w| >= |CompanyPrefix| {
      assert w[..|CompanyPrefix|][|b|] == m[0] == '\n';
      assert CompanyPrefix[|b|] != '\n';
    } else if m == "" {
      assert w == b;
    }
  }

  /** Round trip of a job post through the public list: the listed company is
      the posted company stripped (which is also what the post reply returns,
      server.py:394), and each non-empty metadata field comes back stripped,
      overriding any body line with the same prefix; an empty field comes
      back from the last such body line, if any. */
  lemma PostedRoundTrip(id: int, title: string, f: JobForm, k: MetaField)
    requires f.companyName != "" && Recoverable(f)
    ensures var r := AnnotatePublic(JobRow(id, title, PostedDescription(f), None, None, None, None, None));
      var bodyLines := Split(CompanyHeader(f.companyName) + Strip(f.description), '\n');
      && r.companyName == Some(Strip(f.companyName))
      && RowField(r, k) == Recovered(FormField(f, k), LastWith(bodyLines, Prefix(k)), k)
      && Base(r) == JobRow(id, title, PostedDescription(f), Some(Strip(f.companyName)), None, None, None, None)
  {
    var x := CompanyHeader(f.companyName) + Strip(f.description);
    var d := PostedDescription(f);
    HeaderFirstLine(f.companyName, Strip(f.description), MetadataText(f));
    RemoveLeadingPattern(CompanyPrefix, f.companyName);
    assert CompanyOf(d) == Strip(f.companyName);
    SplitMetadata(x, f);
    var j0 := JobRow(id, title, d, Some(Strip(f.companyName)), None, None, None, None);
    FieldLinesLastWins(j0, Split(d, '\n'), k);
    RecoveredField(Split(x, '\n'), f, k);
  }

  /** The same post in the recruiter's own list: only the company is set,
      and it is the posted company stripped. */
  lemma PostedOwnRoundTrip(j: JobRow, f: JobForm)
    requires f.companyName != "" && OneLine(f.companyName) && !Contains(f.companyName, CompanyPrefix)
    requires j.description == PostedDescription(f)
    ensures AnnotateOwn(j) == j.(companyName := Some(Strip(f.companyName)))
  {
    HeaderFirstLine(f.companyName, Strip(f.description), MetadataText(f));
    RemoveLeadingPattern(CompanyPrefix, f.companyName);
    assert CompanyOf(j.description) == Strip(f.companyName);
  }

  /** A description that does not start with the company prefix is listed
      with the placeholder company and no extracted field at all. */
  lemma NoCompanyLineNoFields(j: JobRow)
    requires !StartsWith(j.description, CompanyPrefix)
    ensures AnnotatePublic(j) == j.(companyName := Some(DefaultCompany))
    ensures AnnotateOwn(j) == j.(companyName := Some(DefaultCompany))
  {
  }

  /** So a job that is edited, or posted without a company, is listed with the
      placeholder company, and its metadata lines are not read back, unless
      its body itself starts with a company line. */
  lemma UpdatedJobLosesMetadata(id: int, title: string, f: JobForm)
    requires !StartsWith(Strip(f.description), CompanyPrefix)
    ensures var j := JobRow(id, title, UpdatedDescription(f), None, None, None, None, None);
      AnnotatePublic(j) == j.(companyName := Some(DefaultCompany))
    ensures PostedDescription(f.(companyName := "")) == UpdatedDescription(f)
  {
    MetadataStartsWithBreak(f);
    NoPrefixAfter(Strip(f.description), MetadataText(f));
    assert CompanyHeader("") + Strip(f.description) == Strip(f.description);
  }
}
