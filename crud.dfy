/** The store and its data-access operations (app/crud.py, plus the job and
    application operations the routers call). Tables are maps from primary
    key to record; a failed commit rolls back and leaves every table as it
    was. */
module Crud {
  import opened Wrappers
  import opened Models

  /** The configuration default of `VERIFICATION_TOKEN_EXPIRE_MINUTES`. */
  const VERIFICATION_TOKEN_EXPIRE_MINUTES: int := 60

  /** Some stored user has this exact e-mail. */
  predicate EmailTaken(users: map<Uuid, User>, email: string)
  {
    exists id :: id in users && users[id].email == email
  }

  /** Some stored application pairs this applicant with this job. */
  predicate HasApplied(apps: map<Uuid, Application>, applicant: Uuid, job: Uuid)
  {
    exists id :: id in apps && apps[id].applicantId == applicant && apps[id].jobId == job
  }

  /** At most one application per (applicant, job) pair. */
  predicate OneApplicationPerPair(apps: map<Uuid, Application>)
  {
    forall a, b ::
      (a in apps && b in apps && apps[a].applicantId == apps[b].applicantId && apps[a].jobId == apps[b].jobId)
      ==> a == b
  }

  /** The `users.email` unique constraint. */
  predicate UniqueEmails(users: map<Uuid, User>)
  {
    forall a, b :: a in users && b in users && users[a].email == users[b].email ==> a == b
  }

  /** Users: keys below the key counter and equal to the record's id,
      `is_verified` is 0 or 1, e-mails unique. */
  predicate UsersWellFormed(users: map<Uuid, User>, n: nat)
  {
    && (forall id :: id in users ==> id < n && users[id].id == id && 0 <= users[id].isVerified <= 1)
    && UniqueEmails(users)
  }

  /** Jobs: keys as for users; every job is owned by a stored company. */
  predicate JobsWellFormed(jobs: map<Uuid, Job>, users: map<Uuid, User>, n: nat)
  {
    forall id :: id in jobs ==>
      (id < n && jobs[id].id == id && jobs[id].createdBy in users && users[jobs[id].createdBy].role == Company)
  }

  /** Applications: keys as for users; every application belongs to a stored
      applicant; at most one per (applicant, job) pair. */
  predicate AppsWellFormed(apps: map<Uuid, Application>, users: map<Uuid, User>, n: nat)
  {
    && (forall id :: id in apps ==>
          (id < n && apps[id].id == id && apps[id].applicantId in users && users[apps[id].applicantId].role == Applicant))
    && OneApplicationPerPair(apps)
  }

  /** Some stored application names this job. */
  predicate JobReferenced(apps: map<Uuid, Application>, job: Uuid)
  {
    exists id :: id in apps && apps[id].jobId == job
  }

  /** The `applications.job_id` foreign key: every application's job is
      stored. */
  predicate AppsReferenceJobs(apps: map<Uuid, Application>, jobs: map<Uuid, Job>)
  {
    forall id :: id in apps ==> apps[id].jobId in jobs
  }

  /** Tokens: the token string is the key and names a stored user. */
  predicate TokensWellFormed(tokens: map<Uuid, EmailVerificationToken>, users: map<Uuid, User>, n: nat)
  {
    forall t :: t in tokens ==> t < n && tokens[t].token == t && tokens[t].userId in users
  }

  /** `bigger` keeps every user of `users` with the same role. */
  predicate KeepsRoles(users: map<Uuid, User>, bigger: map<Uuid, User>)
  {
    forall id :: id in users ==> id in bigger && bigger[id].role == users[id].role
  }

  /** Growing the user table (keeping roles) and the key counter preserves
      the other tables' well-formedness. */
  lemma OtherTablesGrow(jobs: map<Uuid, Job>, apps: map<Uuid, Application>, tokens: map<Uuid, EmailVerificationToken>,
                        users: map<Uuid, User>, users': map<Uuid, User>, n: nat, n': nat)
    requires JobsWellFormed(jobs, users, n) && AppsWellFormed(apps, users, n) && TokensWellFormed(tokens, users, n)
    requires KeepsRoles(users, users') && n <= n'
    ensures JobsWellFormed(jobs, users', n') && AppsWellFormed(apps, users', n') && TokensWellFormed(tokens, users', n')
  {
  }

  /** Inserting a user under the next key with an unused e-mail. */
  lemma UserInsert(users: map<Uuid, User>, n: nat, u: User)
    requires UsersWellFormed(users, n) && u.id == n && !EmailTaken(users, u.email) && 0 <= u.isVerified <= 1
    ensures UsersWellFormed(users[n := u], n + 1) && KeepsRoles(users, users[n := u])
  {
    var users' := users[n := u];
    forall a, b | a in users' && b in users' && users'[a].email == users'[b].email ensures a == b {
      if a != b && (a == n || b == n) {
        assert false;   // the other key would witness EmailTaken
      }
    }
  }

  /** Inserting an application under the next key for an unused pair. */
  lemma AppInsert(apps: map<Uuid, Application>, users: map<Uuid, User>, n: nat, a: Application)
    requires AppsWellFormed(apps, users, n) && a.id == n
    requires a.applicantId in users && users[a.applicantId].role == Applicant
    requires !HasApplied(apps, a.applicantId, a.jobId)
    ensures AppsWellFormed(apps[n := a], users, n + 1)
  {
    var apps' := apps[n := a];
    forall x, y | x in apps' && y in apps' && apps'[x].applicantId == apps'[y].applicantId && apps'[x].jobId == apps'[y].jobId
      ensures x == y
    {
      if x != y && (x == n || y == n) {
        assert false;   // the other key would witness HasApplied
      }
    }
  }

  /** Inserting an application for a stored job keeps the foreign key. */
  lemma AppJobInsert(apps: map<Uuid, Application>, jobs: map<Uuid, Job>, n: nat, a: Application)
    requires AppsReferenceJobs(apps, jobs) && a.jobId in jobs
    ensures AppsReferenceJobs(apps[n := a], jobs)
  {
  }

  /** Changing an application's status keeps its pair and foreign keys. */
  lemma AppStatusChange(apps: map<Uuid, Application>, users: map<Uuid, User>, n: nat, id: Uuid, s: ApplicationStatus)
    requires AppsWellFormed(apps, users, n) && id in apps
    ensures AppsWellFormed(apps[id := apps[id].(status := s)], users, n)
  {
    var apps' := apps[id := apps[id].(status := s)];
    forall x, y | x in apps' && y in apps' && apps'[x].applicantId == apps'[y].applicantId && apps'[x].jobId == apps'[y].jobId
      ensures x == y
    {
      assert apps[x].applicantId == apps[y].applicantId && apps[x].jobId == apps[y].jobId;
    }
  }

  /** Setting a user's verification flag to 1 keeps e-mails and roles. */
  lemma UserVerify(users: map<Uuid, User>, n: nat, id: Uuid)
    requires UsersWellFormed(users, n) && id in users
    ensures UsersWellFormed(users[id := users[id].(isVerified := 1)], n)
    ensures KeepsRoles(users, users[id := users[id].(isVerified := 1)])
  {
    var users' := users[id := users[id].(isVerified := 1)];
    forall a, b | a in users' && b in users' && users'[a].email == users'[b].email ensures a == b {
      assert users[a].email == users[b].email;
    }
  }

  class Db {
    var users: map<Uuid, User>
    var jobs: map<Uuid, Job>
    var apps: map<Uuid, Application>
    var tokens: map<Uuid, EmailVerificationToken>
    /** Source of fresh primary keys and token strings (uuid4). */
    var nextUuid: nat

    /** Every table is well formed against the users and the key counter,
        and every application names a stored job. */
    ghost predicate Valid()
      reads this
    {
      && UsersWellFormed(users, nextUuid)
      && JobsWellFormed(jobs, users, nextUuid)
      && AppsWellFormed(apps, users, nextUuid)
      && TokensWellFormed(tokens, users, nextUuid)
      && AppsReferenceJobs(apps, jobs)
    }

    constructor ()
      ensures Valid()
      ensures users == map[] && jobs == map[] && apps == map[] && tokens == map[]
    {
      users, jobs, apps, tokens := map[], map[], map[], map[];
      nextUuid := 0;
    }

    // ---- users ----

    /** `create_user`: inserts one unverified user. The commit fails, and
        nothing changes, when the role is not an enum value or the e-mail is
        already stored. */
    method CreateUser(fullName: string, email: string, passwordHash: string, role: string, now: Time)
      returns (r: Option<User>)
      requires Valid()
      modifies this
      ensures Valid()
      ensures r.None? <==> ParseRole(role).None? || EmailTaken(old(users), email)
      ensures r.None? ==> unchanged(this)
      ensures r.Some? ==> r.value.id !in old(users)
                          && r.value == NewUser(r.value.id, fullName, email, passwordHash, ParseRole(role).value, now)
                          && users == old(users)[r.value.id := r.value]
      ensures jobs == old(jobs) && apps == old(apps) && tokens == old(tokens)
    {
      var parsed := ParseRole(role);
      if parsed.None? || (exists id :: id in users && users[id].email == email) {
        return None;
      }
      var u := NewUser(nextUuid, fullName, email, passwordHash, parsed.value, now);
      UserInsert(users, nextUuid, u);
      OtherTablesGrow(jobs, apps, tokens, users, users[u.id := u], nextUuid, nextUuid + 1);
      users := users[u.id := u];
      nextUuid := nextUuid + 1;
      r := Some(u);
    }

    /** `get_user_by_email`: the user with exactly this e-mail, if any. */
    method GetUserByEmail(email: string) returns (r: Option<User>)
      requires Valid()
      ensures r.None? <==> !EmailTaken(users, email)
      ensures r.Some? ==> r.value.id in users && users[r.value.id] == r.value && r.value.email == email
    {
      if exists id :: id in users && users[id].email == email {
        var id :| id in users && users[id].email == email;
        r := Some(users[id]);
      } else {
        r := None;
      }
    }

    // ---- email verification tokens ----

    /** `create_email_token`: a fresh token for the user, expiring
        VERIFICATION_TOKEN_EXPIRE_MINUTES from now. */
    method CreateEmailToken(userId: Uuid, now: Time) returns (t: EmailVerificationToken)
      requires Valid() && userId in users
      modifies this
      ensures Valid()
      ensures t.token !in old(tokens)
      ensures t == EmailVerificationToken(t.token, userId, now + VERIFICATION_TOKEN_EXPIRE_MINUTES, now)
      ensures tokens == old(tokens)[t.token := t]
      ensures users == old(users) && jobs == old(jobs) && apps == old(apps)
    {
      t := EmailVerificationToken(nextUuid, userId, now + VERIFICATION_TOKEN_EXPIRE_MINUTES, now);
      tokens := tokens[t.token := t];
      nextUuid := nextUuid + 1;
    }

    /** `get_token`: the record stored under this token string, if any. */
    method GetToken(token: Uuid) returns (r: Option<EmailVerificationToken>)
      ensures r.Some? <==> token in tokens
      ensures r.Some? ==> r.value == tokens[token]
    {
      r := if token in tokens then Some(tokens[token]) else None;
    }

    /** `delete_token`: removes exactly that token; absent tokens are a no-op. */
    method DeleteToken(token: Uuid)
      requires Valid()
      modifies this
      ensures Valid()
      ensures tokens == old(tokens) - {token}
      ensures users == old(users) && jobs == old(jobs) && apps == old(apps) && nextUuid == old(nextUuid)
    {
      tokens := tokens - {token};
    }

    // ---- jobs ----

    /** `get_job`. */
    method GetJob(id: Uuid) returns (r: Option<Job>)
      ensures r.Some? <==> id in jobs
      ensures r.Some? ==> r.value == jobs[id]
    {
      r := if id in jobs then Some(jobs[id]) else None;
    }

    /** `create_job`: inserts a job owned by `owner`, Draft unless a status is
        given. The commit fails on a location wider than its column. */
    method CreateJob(owner: Uuid, title: string, description: string, location: Option<string>,
                     status: Option<JobStatus>, now: Time) returns (r: Option<Job>)
      requires Valid() && owner in users && users[owner].role == Company
      modifies this
      ensures Valid()
      ensures r.None? <==> !FitsColumn(location, LOCATION_WIDTH)
      ensures r.None? ==> unchanged(this)
      ensures r.Some? ==> r.value.id !in old(jobs)
                          && r.value == NewJob(r.value.id, title, description, location, status, owner, now)
                          && jobs == old(jobs)[r.value.id := r.value]
      ensures users == old(users) && apps == old(apps) && tokens == old(tokens)
    {
      if !FitsColumn(location, LOCATION_WIDTH) {
        return None;
      }
      var j := NewJob(nextUuid, title, description, location, status, owner, now);
      jobs := jobs[j.id := j];
      nextUuid := nextUuid + 1;
      r := Some(j);
    }

    /** `update_job(db, job, **updates)`: writes the given record back. The
        commit fails on a location wider than its column. */
    method UpdateJob(updated: Job) returns (ok: bool)
      requires Valid() && updated.id in jobs
      requires updated.createdBy == jobs[updated.id].createdBy
      modifies this
      ensures Valid()
      ensures ok <==> FitsColumn(updated.location, LOCATION_WIDTH)
      ensures ok ==> jobs == old(jobs)[updated.id := updated]
      ensures !ok ==> unchanged(this)
      ensures users == old(users) && apps == old(apps) && tokens == old(tokens) && nextUuid == old(nextUuid)
    {
      ok := FitsColumn(updated.location, LOCATION_WIDTH);
      if ok {
        jobs := jobs[updated.id := updated];
      }
    }

    /** `delete_job`: hard-deletes the job. The relationship to the job's
        applications has no delete cascade and `applications.job_id` is a
        non-null foreign key, so the commit fails, and nothing changes, while
        some application still names the job. */
    method DeleteJob(id: Uuid) returns (ok: bool)
      requires Valid()
      modifies this
      ensures Valid()
      ensures ok <==> !JobReferenced(apps, id)
      ensures ok ==> jobs == old(jobs) - {id}
      ensures !ok ==> unchanged(this)
      ensures users == old(users) && apps == old(apps) && tokens == old(tokens) && nextUuid == old(nextUuid)
    {
      if exists a :: a in apps && apps[a].jobId == id {
        return false;
      }
      jobs := jobs - {id};
      ok := true;
    }

    // ---- applications ----

    /** `get_application_by_applicant_job`. */
    method GetApplicationByApplicantJob(applicant: Uuid, job: Uuid) returns (r: Option<Application>)
      requires Valid()
      ensures r.None? <==> !HasApplied(apps, applicant, job)
      ensures r.Some? ==> r.value.id in apps && apps[r.value.id] == r.value
                          && r.value.applicantId == applicant && r.value.jobId == job
    {
      if exists id :: id in apps && apps[id].applicantId == applicant && apps[id].jobId == job {
        var id :| id in apps && apps[id].applicantId == applicant && apps[id].jobId == job;
        r := Some(apps[id]);
      } else {
        r := None;
      }
    }

    /** `create_application`: inserts one Applied application. The commit
        fails on a cover letter wider than its column. */
    method CreateApplication(applicant: Uuid, job: Uuid, resumeLink: string, coverLetter: Option<string>, now: Time)
      returns (r: Option<Application>)
      requires Valid() && applicant in users && users[applicant].role == Applicant && job in jobs
      requires !HasApplied(apps, applicant, job)
      modifies this
      ensures Valid()
      ensures r.None? <==> !FitsColumn(coverLetter, COVER_LETTER_WIDTH)
      ensures r.None? ==> unchanged(this)
      ensures r.Some? ==> r.value.id !in old(apps)
                          && r.value == NewApplication(r.value.id, applicant, job, resumeLink, coverLetter, now)
                          && apps == old(apps)[r.value.id := r.value]
      ensures users == old(users) && jobs == old(jobs) && tokens == old(tokens)
    {
      if !FitsColumn(coverLetter, COVER_LETTER_WIDTH) {
        return None;
      }
      var a := NewApplication(nextUuid, applicant, job, resumeLink, coverLetter, now);
      AppInsert(apps, users, nextUuid, a);
      AppJobInsert(apps, jobs, nextUuid, a);
      OtherTablesGrow(jobs, map[], tokens, users, users, nextUuid, nextUuid + 1);
      apps := apps[a.id := a];
      nextUuid := nextUuid + 1;
      r := Some(a);
    }

    /** The in-place status write of `update_application_status` and its
        commit: only that application's status changes. */
    method SetApplicationStatus(id: Uuid, s: ApplicationStatus)
      requires Valid() && id in apps
      modifies this
      ensures Valid()
      ensures apps == old(apps)[id := old(apps)[id].(status := s)]
      ensures users == old(users) && jobs == old(jobs) && tokens == old(tokens) && nextUuid == old(nextUuid)
    {
      AppStatusChange(apps, users, nextUuid, id, s);
      apps := apps[id := apps[id].(status := s)];
    }

    /** The in-place `is_verified = 1` of `verify_email` and its commit. */
    method SetVerified(id: Uuid)
      requires Valid() && id in users
      modifies this
      ensures Valid()
      ensures users == old(users)[id := old(users)[id].(isVerified := 1)]
      ensures jobs == old(jobs) && apps == old(apps) && tokens == old(tokens) && nextUuid == old(nextUuid)
    {
      UserVerify(users, nextUuid, id);
      OtherTablesGrow(jobs, apps, tokens, users, users[id := users[id].(isVerified := 1)], nextUuid, nextUuid);
      users := users[id := users[id].(isVerified := 1)];
    }
  }
}
