/** The persistent entities of the job board (app/models.py): the three
    enumerations and the four record shapes, with their column defaults. */
module Models {
  import opened Wrappers

  /** Primary keys (UUIDs) and verification-token strings (uuid4) are modelled
      as naturals handed out by the store; see Crud.Db.nextUuid. */
  type Uuid = nat

  /** Timestamps are abstract instants (minutes); `now` is always a parameter. */
  type Time = int

  datatype Role = Applicant | Company

  datatype JobStatus = Draft | Open | Closed

  datatype ApplicationStatus = Applied | Reviewed | Interview | Rejected | Hired

  function RoleName(r: Role): string
  {
    match r
    case Applicant => "applicant"
    case Company => "company"
  }

  function JobStatusName(s: JobStatus): string
  {
    match s
    case Draft => "Draft"
    case Open => "Open"
    case Closed => "Closed"
  }

  function ApplicationStatusName(s: ApplicationStatus): string
  {
    match s
    case Applied => "Applied"
    case Reviewed => "Reviewed"
    case Interview => "Interview"
    case Rejected => "Rejected"
    case Hired => "Hired"
  }

  /** `RoleEnum(s)`: the enum accepts exactly its two values. */
  function ParseRole(s: string): (r: Option<Role>)
    ensures r.Some? <==> s == "applicant" || s == "company"
    ensures r.Some? ==> RoleName(r.value) == s
  {
    if s == "applicant" then Some(Applicant)
    else if s == "company" then Some(Company)
    else None
  }

  /** `JobStatus(s)`: exactly three values are recognised. */
  function ParseJobStatus(s: string): (r: Option<JobStatus>)
    ensures r.Some? <==> s == "Draft" || s == "Open" || s == "Closed"
    ensures r.Some? ==> JobStatusName(r.value) == s
  {
    if s == "Draft" then Some(Draft)
    else if s == "Open" then Some(Open)
    else if s == "Closed" then Some(Closed)
    else None
  }

  /** `ApplicationStatus(s)`: exactly five values are recognised. */
  function ParseApplicationStatus(s: string): (r: Option<ApplicationStatus>)
    ensures r.Some? <==> s in ApplicationStatusNames()
    ensures r.Some? ==> ApplicationStatusName(r.value) == s
  {
    if s == "Applied" then Some(Applied)
    else if s == "Reviewed" then Some(Reviewed)
    else if s == "Interview" then Some(Interview)
    else if s == "Rejected" then Some(Rejected)
    else if s == "Hired" then Some(Hired)
    else None
  }

  /** `[s.value for s in ApplicationStatus]`, in declaration order. */
  function ApplicationStatusNames(): seq<string>
  {
    ["Applied", "Reviewed", "Interview", "Rejected", "Hired"]
  }

  /** Every enumeration value has a distinct name that parses back to it. */
  lemma NamesRoundTrip(r: Role, j: JobStatus, a: ApplicationStatus)
    ensures ParseRole(RoleName(r)) == Some(r)
    ensures ParseJobStatus(JobStatusName(j)) == Some(j)
    ensures ParseApplicationStatus(ApplicationStatusName(a)) == Some(a)
  {
  }

  /** The position of a status in its declaration, which is also the order
      PostgreSQL uses for a native enum column. */
  function ApplicationStatusOrdinal(s: ApplicationStatus): (k: nat)
    ensures k < |ApplicationStatusNames()| && ApplicationStatusNames()[k] == ApplicationStatusName(s)
  {
    match s
    case Applied => 0
    case Reviewed => 1
    case Interview => 2
    case Rejected => 3
    case Hired => 4
  }

  /** Widths of the varchar columns that no input schema bounds (location,
      cover_letter); writing a longer value makes the commit fail. */
  const LOCATION_WIDTH: nat := 200
  const COVER_LETTER_WIDTH: nat := 200

  predicate FitsColumn(s: Option<string>, width: nat)
  {
    s.None? || |s.value| <= width
  }

  datatype User = User(
    id: Uuid,
    fullName: string,
    email: string,
    passwordHash: string,
    role: Role,
    isVerified: int,   // 0 false, 1 true
    createdAt: Time)

  datatype Job = Job(
    id: Uuid,
    title: string,
    description: string,
    location: Option<string>,
    status: JobStatus,
    createdBy: Uuid,
    createdAt: Time)

  datatype Application = Application(
    id: Uuid,
    applicantId: Uuid,
    jobId: Uuid,
    resumeLink: string,
    coverLetter: Option<string>,
    status: ApplicationStatus,
    appliedAt: Time)

  datatype EmailVerificationToken = EmailVerificationToken(
    token: Uuid,
    userId: Uuid,
    expiresAt: Time,
    createdAt: Time)

  /** A freshly inserted user: not verified, created now. */
  function NewUser(id: Uuid, fullName: string, email: string, passwordHash: string, role: Role, now: Time): (u: User)
    ensures u.isVerified == 0 && u.createdAt == now
    ensures u.id == id && u.fullName == fullName && u.email == email && u.passwordHash == passwordHash && u.role == role
  {
    User(id, fullName, email, passwordHash, role, 0, now)
  }

  /** A freshly inserted job: Draft unless a status is given. */
  function NewJob(id: Uuid, title: string, description: string, location: Option<string>,
                  status: Option<JobStatus>, owner: Uuid, now: Time): (j: Job)
    ensures status.None? ==> j.status == Draft
    ensures status.Some? ==> j.status == status.value
    ensures j.id == id && j.title == title && j.description == description && j.location == location
    ensures j.createdBy == owner && j.createdAt == now
  {
    Job(id, title, description, location, if status.Some? then status.value else Draft, owner, now)
  }

  /** A freshly inserted application: always Applied, applied now. */
  function NewApplication(id: Uuid, applicant: Uuid, job: Uuid, resumeLink: string,
                          coverLetter: Option<string>, now: Time): (a: Application)
    ensures a.status == Applied && a.appliedAt == now
    ensures a.id == id && a.applicantId == applicant && a.jobId == job
    ensures a.resumeLink == resumeLink && a.coverLetter == coverLetter
  {
    Application(id, applicant, job, resumeLink, coverLetter, Applied, now)
  }

  /** Decimal rendering of an identifier, standing in for `str(uuid)`. */
  function UuidText(u: Uuid): (s: string)
    ensures |s| > 0
    decreases u
  {
    if u < 10 then [DigitChar(u)] else UuidText(u / 10) + [DigitChar(u % 10)]
  }

  function DigitChar(d: nat): char
    requires d < 10
  {
    "0123456789"[d]
  }
}
