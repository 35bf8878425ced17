/** The application endpoints (app/routers/applications.py): apply with a
    resume, list one's own applications, list a job's applications, and the
    company's status update with its notification mails. */
module ApplicationsRouter {
  import opened Wrappers
  import opened Models
  import opened Schemas
  import opened Query
  import opened Crud
  import opened EmailUtils

  // ---- Apply ----

  const PDF_MIME := "application/pdf"
  const DOCX_MIME := "application/vnd.openxmlformats-officedocument.wordprocessingml.document"

  /** The resume content types the endpoint accepts. */
  function AllowedResumeTypes(): seq<string>
  {
    [PDF_MIME, DOCX_MIME]
  }

  /** The storage key the resume is uploaded under. */
  function ResumeKey(applicant: Uuid, job: Uuid): string
  {
    "resume_" + UuidText(applicant) + "_" + UuidText(job)
  }

  /** The mail the job's owner receives for a new application. */
  function NewApplicantMail(ownerEmail: string, title: string, applicantName: string, url: string): Email
  {
    Email(ownerEmail, "New applicant for " + title,
          "<p>New application for " + title + " from " + applicantName + ". Resume: " + url + "</p>")
  }

  /** `apply_job`: job exists, then no earlier application for the pair, then
      the resume type; the resume is uploaded (`upload` maps a storage key to
      its URL), one Applied application is inserted and one mail to the job's
      owner is queued. An over-long cover letter makes the insert fail. */
  method ApplyJob(db: Db, tasks: BackgroundTasks, actor: User, jobId: Uuid, coverLetter: Option<string>,
                  contentType: string, upload: string -> string, now: Time) returns (r: Result<Uuid, Failure>)
    requires db.Valid() && actor.id in db.users && db.users[actor.id] == actor && actor.role == Applicant
    modifies db, tasks
    ensures db.Valid()
    ensures jobId !in old(db.jobs) ==> r == Err(NotFound)
    ensures (jobId in old(db.jobs) && HasApplied(old(db.apps), actor.id, jobId)) ==> r == Err(Duplicate)
    ensures (jobId in old(db.jobs) && !HasApplied(old(db.apps), actor.id, jobId)
             && contentType !in AllowedResumeTypes()) ==> r == Err(UnsupportedFormat)
    ensures r.Ok? <==> jobId in old(db.jobs) && !HasApplied(old(db.apps), actor.id, jobId)
                       && contentType in AllowedResumeTypes() && FitsColumn(coverLetter, COVER_LETTER_WIDTH)
    ensures r == Err(ServerError) <==>
              jobId in old(db.jobs) && !HasApplied(old(db.apps), actor.id, jobId)
              && contentType in AllowedResumeTypes() && !FitsColumn(coverLetter, COVER_LETTER_WIDTH)
    ensures r.Err? ==> unchanged(db) && tasks.queue == old(tasks.queue)
    ensures r.Ok? ==> r.value !in old(db.apps)
                      && db.apps == old(db.apps)[r.value := NewApplication(r.value, actor.id, jobId,
                                                  upload(ResumeKey(actor.id, jobId)), coverLetter, now)]
    ensures r.Ok? ==> var job := old(db.jobs)[jobId];
                      tasks.queue == old(tasks.queue) + [NewApplicantMail(old(db.users)[job.createdBy].email,
                                                         job.title, actor.fullName, upload(ResumeKey(actor.id, jobId)))]
    ensures r.Ok? ==> HasApplied(db.apps, actor.id, jobId) && OneApplicationPerPair(db.apps)
    ensures db.users == old(db.users) && db.jobs == old(db.jobs) && db.tokens == old(db.tokens)
  {
    var found := db.GetJob(jobId);
    if found.None? {
      return Err(NotFound);
    }
    var job := found.value;
    var existing := db.GetApplicationByApplicantJob(actor.id, job.id);
    if existing.Some? {
      return Err(Duplicate);
    }
    if contentType !in AllowedResumeTypes() {
      return Err(UnsupportedFormat);
    }
    var url := upload(ResumeKey(actor.id, job.id));
    var app := db.CreateApplication(actor.id, job.id, url, coverLetter, now);
    if app.None? {
      return Err(ServerError);
    }
    var company := db.users[job.createdBy];
    var mail := NewApplicantMail(company.email, job.title, actor.fullName, url);
    SendEmailBackground(tasks, mail.to, mail.subject, mail.html);
    assert db.apps[app.value.id].applicantId == actor.id && db.apps[app.value.id].jobId == jobId;
    r := Ok(app.value.id);
  }

  // ---- Status update ----

  /** The subject and body mailed to the applicant for a new status; only
      Interview, Rejected and Hired have one. */
  function StatusMail(s: ApplicationStatus, title: string): (m: Option<(string, string)>)
    ensures m.Some? <==> s == Interview || s == Rejected || s == Hired
  {
    match s
    case Interview =>
      Some(("You've been selected for an interview for " + title,
            "Congrats! You've been invited to interview for " + title + ". Status: Interview"))
    case Rejected =>
      Some(("Application update for " + title,
            "We regret to inform you that your application for " + title + " was Rejected."))
    case Hired =>
      Some(("Congratulations! Hired for " + title,
            "Great news — your application for " + title + " resulted in Hired!"))
    case _ => None
  }

  /** The mails queued by a status change: one or none. */
  function StatusNotifications(s: ApplicationStatus, title: string, to: string): (q: seq<Email>)
    ensures |q| <= 1
    ensures |q| == 1 <==> s == Interview || s == Rejected || s == Hired
    ensures |q| == 1 ==> q[0].to == to
  {
    var m := StatusMail(s, title);
    if m.Some? then [Email(to, m.value.0, m.value.1)] else []
  }

  /** The three notification subjects are told apart by their first letter,
      whatever the job title. */
  lemma StatusSubjectsDistinct(title: string)
    ensures StatusMail(Interview, title).value.0 != StatusMail(Rejected, title).value.0
    ensures StatusMail(Interview, title).value.0 != StatusMail(Hired, title).value.0
    ensures StatusMail(Rejected, title).value.0 != StatusMail(Hired, title).value.0
  {
    assert StatusMail(Interview, title).value.0[0] == 'Y';
    assert StatusMail(Rejected, title).value.0[0] == 'A';
    assert StatusMail(Hired, title).value.0[0] == 'C';
  }

  datatype StatusEcho = StatusEcho(applicationId: Uuid, status: string)

  /** `update_application_status`: status validity, then the application, then
      ownership of its job. On success only that application's status changes,
      the new status is echoed, and the applicant is mailed for Interview,
      Rejected and Hired. Every failure changes nothing. */
  method UpdateApplicationStatus(db: Db, tasks: BackgroundTasks, actor: User, appId: Uuid, newStatus: Option<string>)
    returns (r: Result<StatusEcho, Failure>)
    requires db.Valid() && actor.id in db.users && db.users[actor.id] == actor && actor.role == Company
    modifies db, tasks
    ensures db.Valid()
    ensures (newStatus.None? || ParseApplicationStatus(newStatus.value).None?) ==> r == Err(InvalidStatus)
    ensures (newStatus.Some? && ParseApplicationStatus(newStatus.value).Some? && appId !in old(db.apps))
            ==> r == Err(NotFound)
    ensures (newStatus.Some? && ParseApplicationStatus(newStatus.value).Some? && appId in old(db.apps)
             && old(db.jobs)[old(db.apps)[appId].jobId].createdBy != actor.id) ==> r == Err(Unauthorized)
    ensures r.Ok? <==> newStatus.Some? && ParseApplicationStatus(newStatus.value).Some? && appId in old(db.apps)
                       && old(db.jobs)[old(db.apps)[appId].jobId].createdBy == actor.id
    ensures r.Err? ==> unchanged(db) && tasks.queue == old(tasks.queue)
    ensures r.Ok? ==> var s := ParseApplicationStatus(newStatus.value).value;
                      var a := old(db.apps)[appId];
                      && db.apps == old(db.apps)[appId := a.(status := s)]
                      && r.value == StatusEcho(appId, newStatus.value)
                      && tasks.queue == old(tasks.queue)
                           + StatusNotifications(s, old(db.jobs)[a.jobId].title, old(db.users)[a.applicantId].email)
    ensures db.users == old(db.users) && db.jobs == old(db.jobs) && db.tokens == old(db.tokens)
            && db.nextUuid == old(db.nextUuid)
  {
    if newStatus.None? || newStatus.value !in ApplicationStatusNames() {
      return Err(InvalidStatus);
    }
    if appId !in db.apps {
      return Err(NotFound);
    }
    var app := db.apps[appId];
    var job := db.jobs[app.jobId];
    if job.createdBy != actor.id {
      return Err(Unauthorized);
    }
    var s := ParseApplicationStatus(newStatus.value).value;
    db.SetApplicationStatus(appId, s);
    var applicant := db.users[app.applicantId];
    var m := StatusMail(s, job.title);
    if m.Some? {
      SendEmailBackground(tasks, applicant.email, m.value.0, m.value.1);
    }
    r := Ok(StatusEcho(appId, ApplicationStatusName(s)));
  }

  // ---- Listings ----

  /** An application with its job and the job's owner (the inner joins). */
  datatype Joined = Joined(app: Application, job: Job, owner: User)

  datatype MyFilter = MyFilter(companyName: Option<string>, jobStatus: Option<JobStatus>, appStatus: seq<string>)

  /** One of the caller's applications passing the three optional filters; an
      empty status list filters nothing, a non-empty one is a membership test. */
  predicate MyMatches(j: Joined, applicant: Uuid, f: MyFilter)
  {
    && j.app.applicantId == applicant
    && TextFilter(f.companyName, j.owner.fullName)
    && (f.jobStatus.None? || j.job.status == f.jobStatus.value)
    && (f.appStatus == [] || ApplicationStatusName(j.app.status) in f.appStatus)
  }

  /** The joined row for a stored application whose job and owner exist. */
  function JoinOf(apps: map<Uuid, Application>, jobs: map<Uuid, Job>, users: map<Uuid, User>, id: Uuid): Joined
    requires id in apps && apps[id].jobId in jobs && jobs[apps[id].jobId].createdBy in users
  {
    var a := apps[id];
    Joined(a, jobs[a.jobId], users[jobs[a.jobId].createdBy])
  }

  predicate Joinable(apps: map<Uuid, Application>, jobs: map<Uuid, Job>, users: map<Uuid, User>, id: Uuid)
  {
    id in apps && apps[id].jobId in jobs && jobs[apps[id].jobId].createdBy in users
  }

  /** Every application is stored under its own id. */
  predicate AppKeysAgree(apps: map<Uuid, Application>)
  {
    forall id :: id in apps ==> apps[id].id == id
  }

  /** The keys `my_applications` selects. */
  function MySelection(apps: map<Uuid, Application>, jobs: map<Uuid, Job>, users: map<Uuid, User>,
                       applicant: Uuid, f: MyFilter): set<Uuid>
  {
    set id | id in apps && Joinable(apps, jobs, users, id) && MyMatches(JoinOf(apps, jobs, users, id), applicant, f)
  }

  /** The selected joined rows in key order, before sorting. */
  function MyListed(apps: map<Uuid, Application>, jobs: map<Uuid, Job>, users: map<Uuid, User>,
                    applicant: Uuid, f: MyFilter, bound: nat): (rows: seq<Joined>)
    requires AppKeysAgree(apps)
    ensures var ids := IdsBelow(MySelection(apps, jobs, users, applicant, f), bound);
            && |rows| == |ids|
            && forall i :: 0 <= i < |rows| ==> rows[i] == JoinOf(apps, jobs, users, ids[i]) && rows[i].app.id == ids[i]
  {
    var ids := IdsBelow(MySelection(apps, jobs, users, applicant, f), bound);
    seq(|ids|, i requires 0 <= i < |ids| => JoinOf(apps, jobs, users, ids[i]))
  }

  datatype SortField = ByAppliedAt | ByCompanyName | ByApplicationStatus | ByJobTitle

  /** The `ordering` lookup: an unknown key falls back to `applied_at`. */
  function SortFieldOf(sortBy: string): (field: SortField)
    ensures sortBy == "company_name" <==> field == ByCompanyName
    ensures sortBy == "application_status" <==> field == ByApplicationStatus
    ensures sortBy == "job_title" <==> field == ByJobTitle
    ensures field == ByAppliedAt <==> sortBy !in ["company_name", "application_status", "job_title"]
  {
    if sortBy == "company_name" then ByCompanyName
    else if sortBy == "application_status" then ByApplicationStatus
    else if sortBy == "job_title" then ByJobTitle
    else ByAppliedAt
  }

  /** `order.lower() == "desc"`. */
  function Descending(order: string): (desc: bool)
    ensures desc <==> |order| == 4 && LowerChar(order[0]) == 'd' && LowerChar(order[1]) == 'e'
                      && LowerChar(order[2]) == 's' && LowerChar(order[3]) == 'c'
  {
    var low := Lower(order);
    assert |low| == 4 ==> low == [low[0], low[1], low[2], low[3]];
    low == "desc"
  }

  /** "desc" in any letter case sorts descending; the default "asc" does not. */
  lemma DescendingExamples()
    ensures Descending("desc") && Descending("DESC") && Descending("Desc")
    ensures !Descending("asc") && !Descending("") && !Descending("descending")
  {
  }

  /** The `sort_by` and `order` defaults of `my_applications`. */
  const DEFAULT_SORT_BY := "applied_at"
  const DEFAULT_ORDER := "desc"

  /** Without sort parameters the listing is newest application first. */
  lemma DefaultOrder()
    ensures SortFieldOf(DEFAULT_SORT_BY) == ByAppliedAt && Descending(DEFAULT_ORDER)
  {
  }

  function TextKey(s: string): seq<int>
  {
    seq(|s|, i requires 0 <= i < |s| => s[i] as int)
  }

  /** The ORDER BY column for each sort field. */
  function RowKey(field: SortField): Joined -> seq<int>
  {
    match field
    case ByAppliedAt => (j: Joined) => [j.app.appliedAt]
    case ByCompanyName => (j: Joined) => TextKey(j.owner.fullName)
    case ByApplicationStatus => (j: Joined) => [ApplicationStatusOrdinal(j.app.status) as int]
    case ByJobTitle => (j: Joined) => TextKey(j.job.title)
  }

  function MyOrder(apps: map<Uuid, Application>, jobs: map<Uuid, Job>, users: map<Uuid, User>,
                   applicant: Uuid, f: MyFilter, field: SortField, desc: bool, bound: nat): seq<Joined>
    requires AppKeysAgree(apps)
  {
    SortBy(MyListed(apps, jobs, users, applicant, f, bound), RowKey(field), desc)
  }

  /** Every listed row is one of the selected applications: the caller's,
      passing the filters, as stored. */
  lemma MyOrderRows(apps: map<Uuid, Application>, jobs: map<Uuid, Job>, users: map<Uuid, User>,
                    applicant: Uuid, f: MyFilter, field: SortField, desc: bool, bound: nat)
    requires AppKeysAgree(apps)
    ensures var rows := MyOrder(apps, jobs, users, applicant, f, field, desc, bound);
            var sel := MySelection(apps, jobs, users, applicant, f);
            forall i :: 0 <= i < |rows| ==>
              rows[i].app.id in sel && rows[i].app == apps[rows[i].app.id]
              && rows[i].app.applicantId == applicant && MyMatches(rows[i], applicant, f)
  {
    var sel := MySelection(apps, jobs, users, applicant, f);
    var ids := IdsBelow(sel, bound);
    var listed := MyListed(apps, jobs, users, applicant, f, bound);
    var rows := SortBy(listed, RowKey(field), desc);
    SortKeepsMembers(listed, RowKey(field), desc);
    forall i | 0 <= i < |rows|
      ensures rows[i].app.id in sel && rows[i].app == apps[rows[i].app.id]
      ensures rows[i].app.applicantId == applicant && MyMatches(rows[i], applicant, f)
    {
      assert rows[i] in listed;
      var k :| 0 <= k < |listed| && listed[k] == rows[i];
      assert ids[k] in sel && listed[k] == JoinOf(apps, jobs, users, ids[k]);
    }
  }

  /** Every selected application is listed. */
  lemma MyOrderComplete(apps: map<Uuid, Application>, jobs: map<Uuid, Job>, users: map<Uuid, User>,
                        applicant: Uuid, f: MyFilter, field: SortField, desc: bool, bound: nat)
    requires AppKeysAgree(apps)
    ensures var rows := MyOrder(apps, jobs, users, applicant, f, field, desc, bound);
            forall id :: id in MySelection(apps, jobs, users, applicant, f) && id < bound ==>
              JoinOf(apps, jobs, users, id) in rows
  {
    var sel := MySelection(apps, jobs, users, applicant, f);
    var ids := IdsBelow(sel, bound);
    var listed := MyListed(apps, jobs, users, applicant, f, bound);
    var rows := SortBy(listed, RowKey(field), desc);
    SortKeepsMembers(listed, RowKey(field), desc);
    forall id | id in sel && id < bound ensures JoinOf(apps, jobs, users, id) in rows {
      var k :| 0 <= k < |ids| && ids[k] == id;
      assert listed[k] == JoinOf(apps, jobs, users, id);
    }
  }

  /** The listing has one row per selected application. */
  lemma MyOrderCount(apps: map<Uuid, Application>, jobs: map<Uuid, Job>, users: map<Uuid, User>,
                     applicant: Uuid, f: MyFilter, field: SortField, desc: bool, bound: nat)
    requires AppKeysAgree(apps) && (forall id :: id in apps ==> id < bound)
    ensures |MyOrder(apps, jobs, users, applicant, f, field, desc, bound)| == |MySelection(apps, jobs, users, applicant, f)|
  {
    ListingCount(MySelection(apps, jobs, users, applicant, f), bound);
  }

  /** The listing is in the requested order of the requested key. */
  lemma MyOrderSorted(apps: map<Uuid, Application>, jobs: map<Uuid, Job>, users: map<Uuid, User>,
                      applicant: Uuid, f: MyFilter, field: SortField, desc: bool, bound: nat)
    requires AppKeysAgree(apps)
    ensures var rows := MyOrder(apps, jobs, users, applicant, f, field, desc, bound);
            forall i, j :: 0 <= i <= j < |rows| ==> Precedes(RowKey(field)(rows[i]), RowKey(field)(rows[j]), desc)
  {
    var listed := MyListed(apps, jobs, users, applicant, f, bound);
    assert MyOrder(apps, jobs, users, applicant, f, field, desc, bound) == SortBy(listed, RowKey(field), desc);
    SortedAllPairs(listed, RowKey(field), desc);
  }

  datatype MyApplicationRow = MyApplicationRow(
    applicationId: Uuid,
    jobTitle: string,
    companyName: string,
    status: string,
    appliedAt: Time)

  function ToMyRow(j: Joined): MyApplicationRow
  {
    MyApplicationRow(j.app.id, j.job.title, j.owner.fullName, ApplicationStatusName(j.app.status), j.app.appliedAt)
  }

  /** The response loop building one output row per page row. */
  method MyRowsOut(items: seq<Joined>) returns (out: seq<MyApplicationRow>)
    ensures |out| == |items|
    ensures forall k :: 0 <= k < |items| ==> out[k] == ToMyRow(items[k])
    ensures forall k :: 0 <= k < |items| ==> out[k].applicationId == items[k].app.id
  {
    out := [];
    for i := 0 to |items|
      invariant |out| == i
      invariant forall k :: 0 <= k < i ==> out[k] == ToMyRow(items[k])
    {
      out := out + [ToMyRow(items[i])];
    }
  }

  /** A job-status filter string: absent or empty filters nothing; otherwise
      it must name a JobStatus (`JobStatus(s)` raises). */
  function JobStatusFilter(s: Option<string>): (r: Option<Option<JobStatus>>)
    ensures r.None? <==> s.Some? && s.value != "" && ParseJobStatus(s.value).None?
    ensures r.Some? && r.value.Some? ==> s.Some? && JobStatusName(r.value.value) == s.value
    ensures r == Some(None) <==> s.None? || s.value == ""
  {
    if s.None? || s.value == "" then Some(None)
    else
      var p := ParseJobStatus(s.value);
      if p.None? then None else Some(p)
  }

  /** `my_applications`: only the caller's applications, filtered, counted
      before paging, ordered by the requested key and direction, then paged. */
  method MyApplications(db: Db, actor: User, companyName: Option<string>, jobStatus: Option<string>,
                        appStatus: seq<string>, sortBy: string, order: string, page: int, size: int)
    returns (r: Result<Paginated<MyApplicationRow>, Failure>)
    requires db.Valid() && actor.id in db.users && db.users[actor.id] == actor && actor.role == Applicant
    ensures r.Err? <==> JobStatusFilter(jobStatus).None? || BadPage(page, size)
    ensures r.Err? ==> r.error == ServerError
    ensures r.Ok? ==> var f := MyFilter(companyName, JobStatusFilter(jobStatus).value, appStatus);
                      var rows := Page(MyOrder(db.apps, db.jobs, db.users, actor.id, f, SortFieldOf(sortBy),
                                               Descending(order), db.nextUuid), page, size);
                      && r.value.totalSize == |MySelection(db.apps, db.jobs, db.users, actor.id, f)|
                      && r.value.pageNumber == page && r.value.pageSize == size
                      && |r.value.items| == |rows|
                      && (forall i :: 0 <= i < |rows| ==> r.value.items[i] == ToMyRow(rows[i]))
    ensures r.Ok? ==> forall i :: 0 <= i < |r.value.items| ==>
                        r.value.items[i].applicationId in db.apps
                        && db.apps[r.value.items[i].applicationId].applicantId == actor.id
  {
    var js := JobStatusFilter(jobStatus);
    if js.None? {
      return Err(ServerError);
    }
    if BadPage(page, size) {
      return Err(ServerError);
    }
    var f := MyFilter(companyName, js.value, appStatus);
    var field := SortFieldOf(sortBy);
    var desc := Descending(order);
    var apps, jobs, users, bound := db.apps, db.jobs, db.users, db.nextUuid;
    assert AppKeysAgree(apps) && (forall id :: id in apps ==> id < bound);
    MyPageOwned(apps, jobs, users, actor.id, f, field, desc, bound, page, size);
    var items := Page(MyOrder(apps, jobs, users, actor.id, f, field, desc, bound), page, size);
    var out := MyRowsOut(items);
    r := Ok(Paginated(out, page, size, |MySelection(apps, jobs, users, actor.id, f)|));
  }

  /** Every row of a page of `my_applications` is one of the caller's stored
      applications. */
  lemma MyPageOwned(apps: map<Uuid, Application>, jobs: map<Uuid, Job>, users: map<Uuid, User>,
                    applicant: Uuid, f: MyFilter, field: SortField, desc: bool, bound: nat, page: int, size: int)
    requires AppKeysAgree(apps)
    requires !BadPage(page, size)
    ensures var items := Page(MyOrder(apps, jobs, users, applicant, f, field, desc, bound), page, size);
            forall k :: 0 <= k < |items| ==> items[k].app.id in apps && apps[items[k].app.id].applicantId == applicant
  {
    var sorted := MyOrder(apps, jobs, users, applicant, f, field, desc, bound);
    var items := Page(sorted, page, size);
    MyOrderRows(apps, jobs, users, applicant, f, field, desc, bound);
    forall k | 0 <= k < |items| ensures items[k].app.id in apps && apps[items[k].app.id].applicantId == applicant {
      assert items[k] == sorted[Offset(page, size) + k];
    }
  }

  // ---- A job's applications ----

  datatype JobApplicationRow = JobApplicationRow(
    applicantName: string,
    resumeLink: string,
    coverLetter: Option<string>,
    status: string,
    appliedAt: Time)

  /** The keys `view_job_applications` selects: the job's applications,
      optionally with one exact status. */
  function JobSelection(apps: map<Uuid, Application>, users: map<Uuid, User>, jobId: Uuid,
                        status: Option<ApplicationStatus>): set<Uuid>
  {
    set id | id in apps && apps[id].jobId == jobId && apps[id].applicantId in users
             && (status.None? || apps[id].status == status.value)
  }

  function AppliedAtKey(a: Application): seq<int>
  {
    [a.appliedAt]
  }

  function JobListed(apps: map<Uuid, Application>, users: map<Uuid, User>, jobId: Uuid,
                     status: Option<ApplicationStatus>, bound: nat): (rows: seq<Application>)
    requires AppKeysAgree(apps)
    ensures var ids := IdsBelow(JobSelection(apps, users, jobId, status), bound);
            |rows| == |ids| && forall i :: 0 <= i < |rows| ==> rows[i] == apps[ids[i]] && rows[i].id == ids[i]
  {
    var ids := IdsBelow(JobSelection(apps, users, jobId, status), bound);
    seq(|ids|, i requires 0 <= i < |ids| => apps[ids[i]])
  }

  /** The job's applications, newest first. */
  function JobOrder(apps: map<Uuid, Application>, users: map<Uuid, User>, jobId: Uuid,
                    status: Option<ApplicationStatus>, bound: nat): seq<Application>
    requires AppKeysAgree(apps)
  {
    SortBy(JobListed(apps, users, jobId, status, bound), AppliedAtKey, true)
  }

  /** The listing holds exactly the job's applications with the requested
      status, each naming a stored applicant. */
  lemma JobOrderRows(apps: map<Uuid, Application>, users: map<Uuid, User>, jobId: Uuid,
                     status: Option<ApplicationStatus>, bound: nat)
    requires AppKeysAgree(apps)
    ensures var rows := JobOrder(apps, users, jobId, status, bound);
            var sel := JobSelection(apps, users, jobId, status);
            && (forall i :: 0 <= i < |rows| ==>
                  rows[i].id in sel && apps[rows[i].id] == rows[i]
                  && rows[i].jobId == jobId && rows[i].applicantId in users
                  && (status.None? || rows[i].status == status.value))
            && (forall id :: id in sel && id < bound ==> apps[id] in rows)
  {
    var sel := JobSelection(apps, users, jobId, status);
    var ids := IdsBelow(sel, bound);
    var listed := JobListed(apps, users, jobId, status, bound);
    var rows := JobOrder(apps, users, jobId, status, bound);
    SortKeepsMembers(listed, AppliedAtKey, true);
    forall i | 0 <= i < |rows|
      ensures rows[i].id in sel && apps[rows[i].id] == rows[i]
      ensures rows[i].jobId == jobId && rows[i].applicantId in users && (status.None? || rows[i].status == status.value)
    {
      assert rows[i] in listed;
      var k :| 0 <= k < |listed| && listed[k] == rows[i];
      assert ids[k] in sel;
    }
    forall id | id in sel && id < bound ensures apps[id] in rows {
      var k :| 0 <= k < |ids| && ids[k] == id;
      assert listed[k] == apps[id];
    }
  }

  /** The listing has one row per selected application. */
  lemma JobOrderCount(apps: map<Uuid, Application>, users: map<Uuid, User>, jobId: Uuid,
                      status: Option<ApplicationStatus>, bound: nat)
    requires AppKeysAgree(apps) && (forall id :: id in apps ==> id < bound)
    ensures |JobOrder(apps, users, jobId, status, bound)| == |JobSelection(apps, users, jobId, status)|
  {
    ListingCount(JobSelection(apps, users, jobId, status), bound);
  }

  /** The listing is newest first. */
  lemma JobOrderNewestFirst(apps: map<Uuid, Application>, users: map<Uuid, User>, jobId: Uuid,
                            status: Option<ApplicationStatus>, bound: nat)
    requires AppKeysAgree(apps)
    ensures var rows := JobOrder(apps, users, jobId, status, bound);
            forall i, j :: 0 <= i <= j < |rows| ==> rows[j].appliedAt <= rows[i].appliedAt
  {
    var listed := JobListed(apps, users, jobId, status, bound);
    var rows := SortBy(listed, AppliedAtKey, true);
    forall i, j | 0 <= i <= j < |rows| ensures rows[j].appliedAt <= rows[i].appliedAt {
      SortedPairwise(rows, AppliedAtKey, true, i, j);
      LexLeSingle(rows[j].appliedAt, rows[i].appliedAt);
    }
  }

  /** Every row of a page of a job's applications names a stored applicant. */
  lemma JobPageApplicants(apps: map<Uuid, Application>, users: map<Uuid, User>, jobId: Uuid,
                          status: Option<ApplicationStatus>, bound: nat, page: int, size: int)
    requires AppKeysAgree(apps)
    requires !BadPage(page, size)
    ensures var items := Page(JobOrder(apps, users, jobId, status, bound), page, size);
            forall k :: 0 <= k < |items| ==> items[k].applicantId in users && items[k].jobId == jobId
  {
    var sorted := JobOrder(apps, users, jobId, status, bound);
    var items := Page(sorted, page, size);
    JobOrderRows(apps, users, jobId, status, bound);
    forall k | 0 <= k < |items| ensures items[k].applicantId in users && items[k].jobId == jobId {
      assert items[k] == sorted[Offset(page, size) + k];
    }
  }

  function ToJobApplicationRow(a: Application, users: map<Uuid, User>): JobApplicationRow
    requires a.applicantId in users
  {
    JobApplicationRow(users[a.applicantId].fullName, a.resumeLink, a.coverLetter,
                      ApplicationStatusName(a.status), a.appliedAt)
  }

  /** The response loop of `view_job_applications`. */
  method JobRowsOut(items: seq<Application>, users: map<Uuid, User>) returns (out: seq<JobApplicationRow>)
    requires forall k :: 0 <= k < |items| ==> items[k].applicantId in users
    ensures |out| == |items|
    ensures forall k :: 0 <= k < |items| ==> out[k] == ToJobApplicationRow(items[k], users)
  {
    out := [];
    for i := 0 to |items|
      invariant |out| == i
      invariant forall k :: 0 <= k < i ==> out[k] == ToJobApplicationRow(items[k], users)
    {
      out := out + [ToJobApplicationRow(items[i], users)];
    }
  }

  /** An exact status filter string: absent or empty filters nothing;
      otherwise it must name an ApplicationStatus (`ApplicationStatus(s)`
      raises). */
  function AppStatusFilter(s: Option<string>): (r: Option<Option<ApplicationStatus>>)
    ensures r.None? <==> s.Some? && s.value != "" && ParseApplicationStatus(s.value).None?
    ensures r.Some? && r.value.Some? ==> s.Some? && ApplicationStatusName(r.value.value) == s.value
    ensures r == Some(None) <==> s.None? || s.value == ""
  {
    if s.None? || s.value == "" then Some(None)
    else
      var p := ParseApplicationStatus(s.value);
      if p.None? then None else Some(p)
  }

  /** `view_job_applications`: not-found, then ownership, then the listing of
      that job's applications, newest first, paged. */
  method ViewJobApplications(db: Db, actor: User, jobId: Uuid, status: Option<string>, page: int, size: int)
    returns (r: Result<Paginated<JobApplicationRow>, Failure>)
    requires db.Valid() && actor.id in db.users && db.users[actor.id] == actor && actor.role == Company
    ensures jobId !in db.jobs ==> r == Err(NotFound)
    ensures jobId in db.jobs && db.jobs[jobId].createdBy != actor.id ==> r == Err(Unauthorized)
    ensures r.Ok? <==> jobId in db.jobs && db.jobs[jobId].createdBy == actor.id
                       && AppStatusFilter(status).Some? && !BadPage(page, size)
    ensures r.Ok? ==> var st := AppStatusFilter(status).value;
                      var rows := Page(JobOrder(db.apps, db.users, jobId, st, db.nextUuid), page, size);
                      && r.value.totalSize == |JobSelection(db.apps, db.users, jobId, st)|
                      && r.value.pageNumber == page && r.value.pageSize == size
                      && |r.value.items| == |rows|
                      && (forall i :: 0 <= i < |rows| ==>
                            rows[i].applicantId in db.users && r.value.items[i] == ToJobApplicationRow(rows[i], db.users))
  {
    if jobId !in db.jobs {
      return Err(NotFound);
    }
    if db.jobs[jobId].createdBy != actor.id {
      return Err(Unauthorized);
    }
    var st := AppStatusFilter(status);
    if st.None? {
      return Err(ServerError);
    }
    if BadPage(page, size) {
      return Err(ServerError);
    }
    var apps, users, bound := db.apps, db.users, db.nextUuid;
    assert AppKeysAgree(apps) && (forall id :: id in apps ==> id < bound);
    JobPageApplicants(apps, users, jobId, st.value, bound, page, size);
    var total := |JobSelection(apps, users, jobId, st.value)|;
    var items := Page(JobOrder(apps, users, jobId, st.value, bound), page, size);
    var out := JobRowsOut(items, users);
    r := Ok(Paginated(out, page, size, total));
  }
}
