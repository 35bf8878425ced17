/** The job endpoints (app/routers/jobs.py): create, ownership-gated update
    with the status transition table, ownership-gated delete, browse and
    detail. The acting user is the one the role gate (Auth.RequireRole)
    returned. */
module JobsRouter {
  import opened Wrappers
  import opened Models
  import opened Schemas
  import opened Query
  import opened Crud

  // ---- The status transition table ----

  /** `allowed[current]`. */
  function AllowedTargets(s: JobStatus): seq<JobStatus>
  {
    match s
    case Draft => [Open]
    case Open => [Closed]
    case Closed => []
  }

  /** Position in the lifecycle Draft < Open < Closed. */
  function Rank(s: JobStatus): nat
  {
    match s
    case Draft => 0
    case Open => 1
    case Closed => 2
  }

  /** A requested status is accepted when it equals the current one or the
      table lists it: exactly staying put or moving one step forward. */
  function TransitionAllowed(current: JobStatus, target: JobStatus): (ok: bool)
    ensures ok <==> current == target || Rank(target) == Rank(current) + 1
    ensures current == Closed ==> (ok <==> target == Closed)
  {
    target == current || target in AllowedTargets(current)
  }

  /** Along any chain of accepted status changes the rank never decreases, and
      once Closed a job stays Closed. */
  lemma {:induction false} AcceptedChainNeverRegresses(chain: seq<JobStatus>, i: nat, j: nat)
    requires forall k :: 0 < k < |chain| ==> TransitionAllowed(chain[k - 1], chain[k])
    requires i <= j < |chain|
    ensures Rank(chain[i]) <= Rank(chain[j])
    ensures chain[i] == Closed ==> chain[j] == Closed
    decreases j - i
  {
    if i < j {
      AcceptedChainNeverRegresses(chain, i, j - 1);
      assert TransitionAllowed(chain[j - 1], chain[j]);
    }
  }

  // ---- JobUpdate payload ----

  datatype JobPatch = JobPatch(
    title: Option<string>,
    description: Option<string>,
    location: Option<string>,
    status: Option<string>)

  /** A status string, when given, names a JobStatus (`JobStatus(s)` raises
      otherwise; the empty string slips past that test but cannot be stored). */
  predicate StatusParses(status: Option<string>)
  {
    status.None? || ParseJobStatus(status.value).Some?
  }

  /** The job with exactly the payload's non-None fields overwritten. */
  function Patched(job: Job, patch: JobPatch): (r: Job)
    requires StatusParses(patch.status)
    ensures r.id == job.id && r.createdBy == job.createdBy && r.createdAt == job.createdAt
    ensures r.title == (if patch.title.Some? then patch.title.value else job.title)
    ensures r.description == (if patch.description.Some? then patch.description.value else job.description)
    ensures r.location == (if patch.location.Some? then patch.location else job.location)
    ensures r.status == (if patch.status.Some? then ParseJobStatus(patch.status.value).value else job.status)
  {
    Job(job.id,
        if patch.title.Some? then patch.title.value else job.title,
        if patch.description.Some? then patch.description.value else job.description,
        if patch.location.Some? then patch.location else job.location,
        if patch.status.Some? then ParseJobStatus(patch.status.value).value else job.status,
        job.createdBy,
        job.createdAt)
  }

  // ---- Responses ----

  datatype JobOut = JobOut(
    id: Uuid,
    title: string,
    description: string,
    location: Option<string>,
    status: string,
    createdBy: Uuid,
    createdAt: Time)

  function ToJobOut(j: Job): JobOut
  {
    JobOut(j.id, j.title, j.description, j.location, JobStatusName(j.status), j.createdBy, j.createdAt)
  }

  // ---- Endpoints ----

  /** `create_job`: after schema validation, inserts a job owned by the caller.
      Status is Draft when absent; a status string naming no JobStatus, or an
      over-long location, fails the insert. */
  method CreateJob(db: Db, actor: User, title: string, description: string, location: Option<string>,
                   status: Option<string>, now: Time) returns (r: Result<Uuid, Failure>)
    requires db.Valid() && actor.id in db.users && db.users[actor.id] == actor && actor.role == Company
    modifies db
    ensures db.Valid()
    ensures r == Err(ValidationError) <==> !JobCreateValid(title, description)
    ensures r.Err? ==> unchanged(db)
    ensures r.Ok? <==> JobCreateValid(title, description) && StatusParses(status) && FitsColumn(location, LOCATION_WIDTH)
    ensures r == Err(ServerError) <==>
              JobCreateValid(title, description) && !(StatusParses(status) && FitsColumn(location, LOCATION_WIDTH))
    ensures r.Ok? ==> r.value !in old(db.jobs)
                      && db.jobs == old(db.jobs)[r.value := NewJob(r.value, title, description, location,
                           if status.Some? then ParseJobStatus(status.value) else None, actor.id, now)]
    ensures db.users == old(db.users) && db.apps == old(db.apps) && db.tokens == old(db.tokens)
  {
    if !JobCreateValid(title, description) {
      return Err(ValidationError);
    }
    if !StatusParses(status) {
      return Err(ServerError);
    }
    var parsed := if status.Some? then ParseJobStatus(status.value) else None;
    var job := db.CreateJob(actor.id, title, description, location, parsed, now);
    if job.None? {
      return Err(ServerError);
    }
    r := Ok(job.value.id);
  }

  /** `update_job`: schema check, then not-found, then ownership, then the
      transition table (only when a non-empty status is given), then the
      partial write. Every failure leaves the store unchanged. */
  method UpdateJob(db: Db, actor: User, jobId: Uuid, patch: JobPatch) returns (r: Result<Uuid, Failure>)
    requires db.Valid() && actor.id in db.users && db.users[actor.id] == actor && actor.role == Company
    modifies db
    ensures db.Valid()
    ensures r.Err? ==> unchanged(db)
    ensures r == Err(ValidationError) <==> !JobUpdateValid(patch.title, patch.description)
    ensures patch.title.Some? && patch.description.Some? ==>
              (r == Err(ValidationError) <==> !JobCreateValid(patch.title.value, patch.description.value))
    ensures JobUpdateValid(patch.title, patch.description) && jobId !in old(db.jobs) ==> r == Err(NotFound)
    ensures (JobUpdateValid(patch.title, patch.description) && jobId in old(db.jobs)
             && old(db.jobs)[jobId].createdBy != actor.id) ==> r == Err(Unauthorized)
    ensures r == Err(InvalidTransition) <==>
              JobUpdateValid(patch.title, patch.description) && jobId in old(db.jobs)
              && old(db.jobs)[jobId].createdBy == actor.id && StatusParses(patch.status) && patch.status.Some?
              && !TransitionAllowed(old(db.jobs)[jobId].status, ParseJobStatus(patch.status.value).value)
    ensures r.Ok? <==>
              JobUpdateValid(patch.title, patch.description) && jobId in old(db.jobs)
              && old(db.jobs)[jobId].createdBy == actor.id && StatusParses(patch.status)
              && TransitionAllowed(old(db.jobs)[jobId].status, Patched(old(db.jobs)[jobId], patch).status)
              && FitsColumn(Patched(old(db.jobs)[jobId], patch).location, LOCATION_WIDTH)
    ensures r == Err(ServerError) <==>
              JobUpdateValid(patch.title, patch.description) && jobId in old(db.jobs)
              && old(db.jobs)[jobId].createdBy == actor.id
              && (!StatusParses(patch.status)
                  || (TransitionAllowed(old(db.jobs)[jobId].status, Patched(old(db.jobs)[jobId], patch).status)
                      && !FitsColumn(Patched(old(db.jobs)[jobId], patch).location, LOCATION_WIDTH)))
    ensures r.Ok? ==> r.value == jobId && db.jobs == old(db.jobs)[jobId := Patched(old(db.jobs)[jobId], patch)]
    ensures r.Ok? ==> TransitionAllowed(old(db.jobs)[jobId].status, db.jobs[jobId].status)
    ensures db.users == old(db.users) && db.apps == old(db.apps) && db.tokens == old(db.tokens)
  {
    if !JobUpdateValid(patch.title, patch.description) {
      return Err(ValidationError);
    }
    var found := db.GetJob(jobId);
    if found.None? {
      return Err(NotFound);
    }
    var job := found.value;
    if job.createdBy != actor.id {
      return Err(Unauthorized);
    }
    if patch.status.Some? && patch.status.value != "" {
      var target := ParseJobStatus(patch.status.value);
      if target.None? {
        return Err(ServerError);   // JobStatus(...) raises ValueError
      }
      if target.value != job.status && target.value !in AllowedTargets(job.status) {
        return Err(InvalidTransition);
      }
    }
    if !StatusParses(patch.status) {
      return Err(ServerError);     // the empty status string cannot be committed
    }
    var updated := Patched(job, patch);
    var ok := db.UpdateJob(updated);
    if !ok {
      return Err(ServerError);
    }
    r := Ok(jobId);
  }

  /** `delete_job`: not-found, then ownership; a job that applications still
      name cannot be deleted (the commit fails); otherwise only that job goes. */
  method DeleteJob(db: Db, actor: User, jobId: Uuid) returns (r: Result<(), Failure>)
    requires db.Valid() && actor.id in db.users && db.users[actor.id] == actor && actor.role == Company
    modifies db
    ensures db.Valid()
    ensures jobId !in old(db.jobs) ==> r == Err(NotFound)
    ensures jobId in old(db.jobs) && old(db.jobs)[jobId].createdBy != actor.id ==> r == Err(Unauthorized)
    ensures r == Err(ServerError) <==>
              jobId in old(db.jobs) && old(db.jobs)[jobId].createdBy == actor.id && JobReferenced(old(db.apps), jobId)
    ensures r.Ok? <==>
              jobId in old(db.jobs) && old(db.jobs)[jobId].createdBy == actor.id && !JobReferenced(old(db.apps), jobId)
    ensures r.Err? ==> unchanged(db)
    ensures r.Ok? ==> db.jobs == old(db.jobs) - {jobId}
    ensures db.users == old(db.users) && db.apps == old(db.apps) && db.tokens == old(db.tokens)
  {
    var found := db.GetJob(jobId);
    if found.None? {
      return Err(NotFound);
    }
    if found.value.createdBy != actor.id {
      return Err(Unauthorized);
    }
    var ok := db.DeleteJob(jobId);
    if !ok {
      return Err(ServerError);
    }
    r := Ok(());
  }

  // ---- Browse ----

  datatype JobFilter = JobFilter(title: Option<string>, location: Option<string>, companyName: Option<string>)

  /** The three optional ILIKE filters; a job without a location never
      matches a location filter (NULL ILIKE is not true). */
  predicate JobMatches(job: Job, ownerName: string, f: JobFilter)
  {
    && TextFilter(f.title, job.title)
    && (f.location.None? || f.location.value == ""
        || (job.location.Some? && ILike(job.location.value, f.location.value)))
    && TextFilter(f.companyName, ownerName)
  }

  /** The keys the browse query selects (jobs joined with their owner). */
  function MatchingJobs(jobs: map<Uuid, Job>, users: map<Uuid, User>, f: JobFilter): set<Uuid>
  {
    set id | id in jobs && jobs[id].createdBy in users && JobMatches(jobs[id], users[jobs[id].createdBy].fullName, f)
  }

  function CreatedAtKey(j: Job): seq<int>
  {
    [j.createdAt]
  }

  /** Every job is stored under its own id. */
  predicate KeysAgree(jobs: map<Uuid, Job>)
  {
    forall id :: id in jobs ==> jobs[id].id == id
  }

  /** The selected jobs in key order, before sorting. */
  function ListedJobs(jobs: map<Uuid, Job>, users: map<Uuid, User>, f: JobFilter, bound: nat): (rows: seq<Job>)
    requires KeysAgree(jobs)
    ensures var ids := IdsBelow(MatchingJobs(jobs, users, f), bound);
            |rows| == |ids| && forall i :: 0 <= i < |rows| ==> rows[i] == jobs[ids[i]] && rows[i].id == ids[i]
  {
    var ids := IdsBelow(MatchingJobs(jobs, users, f), bound);
    seq(|ids|, i requires 0 <= i < |ids| => jobs[ids[i]])
  }

  /** The selected jobs ordered by `created_at` descending. */
  function BrowseOrder(jobs: map<Uuid, Job>, users: map<Uuid, User>, f: JobFilter, bound: nat): seq<Job>
    requires KeysAgree(jobs)
  {
    SortBy(ListedJobs(jobs, users, f, bound), CreatedAtKey, true)
  }

  /** The browse order holds exactly the selected jobs, as stored. */
  lemma BrowseOrderRows(jobs: map<Uuid, Job>, users: map<Uuid, User>, f: JobFilter, bound: nat)
    requires KeysAgree(jobs)
    ensures var rows := BrowseOrder(jobs, users, f, bound);
            var m := MatchingJobs(jobs, users, f);
            && (forall i :: 0 <= i < |rows| ==> rows[i].id in m && jobs[rows[i].id] == rows[i])
            && (forall id :: id in m && id < bound ==> jobs[id] in rows)
  {
    var m := MatchingJobs(jobs, users, f);
    var ids := IdsBelow(m, bound);
    var listed := ListedJobs(jobs, users, f, bound);
    var rows := BrowseOrder(jobs, users, f, bound);
    SortKeepsMembers(listed, CreatedAtKey, true);
    forall i | 0 <= i < |rows| ensures rows[i].id in m && jobs[rows[i].id] == rows[i] {
      assert rows[i] in listed;
      var k :| 0 <= k < |listed| && listed[k] == rows[i];
      assert ids[k] in m;
    }
    forall id | id in m && id < bound ensures jobs[id] in rows {
      var k :| 0 <= k < |ids| && ids[k] == id;
      assert listed[k] == jobs[id];
    }
  }

  /** The browse order lists every selected job once: its length is the
      number of jobs the filters select. */
  lemma BrowseOrderCount(jobs: map<Uuid, Job>, users: map<Uuid, User>, f: JobFilter, bound: nat)
    requires KeysAgree(jobs) && forall id :: id in jobs ==> id < bound
    ensures |BrowseOrder(jobs, users, f, bound)| == |MatchingJobs(jobs, users, f)|
  {
    ListingCount(MatchingJobs(jobs, users, f), bound);
  }

  /** The browse order is newest first. */
  lemma BrowseOrderNewestFirst(jobs: map<Uuid, Job>, users: map<Uuid, User>, f: JobFilter, bound: nat)
    requires KeysAgree(jobs)
    ensures var rows := BrowseOrder(jobs, users, f, bound);
            forall i, j :: 0 <= i <= j < |rows| ==> rows[j].createdAt <= rows[i].createdAt
  {
    var listed := ListedJobs(jobs, users, f, bound);
    var rows := SortBy(listed, CreatedAtKey, true);
    forall i, j | 0 <= i <= j < |rows| ensures rows[j].createdAt <= rows[i].createdAt {
      SortedPairwise(rows, CreatedAtKey, true, i, j);
      LexLeSingle(rows[j].createdAt, rows[i].createdAt);
    }
  }

  /** `browse_jobs`: the total counts every selected job; the page holds the
      selected jobs, newest first, from offset (page-1)*size, at most size of
      them. A negative offset or limit makes the query fail. */
  method BrowseJobs(db: Db, filter: JobFilter, page: int, size: int) returns (r: Result<Paginated<JobOut>, Failure>)
    requires db.Valid()
    ensures r.Err? <==> BadPage(page, size)
    ensures r.Err? ==> r.error == ServerError
    ensures r.Ok? ==> r.value.pageNumber == page && r.value.pageSize == size
    ensures r.Ok? ==> r.value.totalSize == |MatchingJobs(db.jobs, db.users, filter)|
    ensures r.Ok? ==> var rows := Page(BrowseOrder(db.jobs, db.users, filter, db.nextUuid), page, size);
                      |r.value.items| == |rows| && forall i :: 0 <= i < |rows| ==> r.value.items[i] == ToJobOut(rows[i])
  {
    if BadPage(page, size) {
      return Err(ServerError);
    }
    var jobs, users, bound := db.jobs, db.users, db.nextUuid;
    var total := |MatchingJobs(jobs, users, filter)|;
    assert KeysAgree(jobs);
    var items := Page(BrowseOrder(jobs, users, filter, bound), page, size);
    var out := JobOutRows(items);
    r := Ok(Paginated(out, page, size, total));
  }

  /** The response loop of `browse_jobs`. */
  method JobOutRows(items: seq<Job>) returns (out: seq<JobOut>)
    ensures |out| == |items|
    ensures forall k :: 0 <= k < |items| ==> out[k] == ToJobOut(items[k])
  {
    out := [];
    for i := 0 to |items|
      invariant |out| == i
      invariant forall k :: 0 <= k < i ==> out[k] == ToJobOut(items[k])
    {
      out := out + [ToJobOut(items[i])];
    }
  }

  /** `job_detail`. */
  method JobDetail(db: Db, jobId: Uuid) returns (r: Result<JobOut, Failure>)
    requires db.Valid()
    ensures r.Ok? <==> jobId in db.jobs
    ensures r.Err? ==> r.error == NotFound
    ensures r.Ok? ==> r.value == ToJobOut(db.jobs[jobId]) && r.value.id == jobId
  {
    var found := db.GetJob(jobId);
    if found.None? {
      return Err(NotFound);
    }
    r := Ok(ToJobOut(found.value));
  }
}
