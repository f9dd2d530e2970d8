/**
 * The database enums and the rows the client reads, as the generated schema bindings
 * declare them. Nullable columns are `Option`s; timestamps are milliseconds since the
 * Unix epoch.
 */
module Schema {
  import opened Wrappers

  /** `application_status`. */
  datatype ApplicationStatus = Pending | Reviewed | Interview | Rejected | Hired

  /** `job_type`. */
  datatype JobType = Clt | Pj | Temporary | Internship | Remote | Hybrid

  /** `app_role`. */
  datatype AppRole = Candidate | Recruiter | CompanyAdmin | Root

  /** The `type` column of `tags`. */
  datatype TagType = Global | Local

  /** The stored spelling of a job type. */
  function JobTypeName(t: JobType): string {
    match t
    case Clt => "clt"
    case Pj => "pj"
    case Temporary => "temporary"
    case Internship => "internship"
    case Remote => "remote"
    case Hybrid => "hybrid"
  }

  /** Reads a job type back from its spelling; any other string is not a job type. */
  function ParseJobType(s: string): (r: Option<JobType>)
    ensures r.Some? ==> JobTypeName(r.value) == s
  {
    if s == "clt" then Some(Clt)
    else if s == "pj" then Some(Pj)
    else if s == "temporary" then Some(Temporary)
    else if s == "internship" then Some(Internship)
    else if s == "remote" then Some(Remote)
    else if s == "hybrid" then Some(Hybrid)
    else None
  }

  /** Every job type is read back from its own spelling. */
  lemma ParseJobTypeRoundTrip(t: JobType)
    ensures ParseJobType(JobTypeName(t)) == Some(t)
  {
  }

  /** A row of `jobs` (the columns the core reads). */
  datatype Job = Job(
    id: string,
    companyId: string,
    createdBy: Option<string>,
    title: string,
    description: string,
    responsibilities: Option<string>,
    requirements: Option<string>,
    educationRequired: Option<string>,
    experienceRequired: Option<string>,
    skillsRequired: Option<seq<string>>,
    benefits: Option<string>,
    salaryMin: Option<int>,
    salaryMax: Option<int>,
    jobType: JobType,
    workSchedule: Option<string>,
    street: Option<string>,
    number: Option<string>,
    neighborhood: Option<string>,
    city: string,
    state: string,
    zipCode: Option<string>,
    isRemote: Option<bool>,
    isFeatured: Option<bool>,
    isActive: Option<bool>)

  /** A row of `profiles` (the columns the core reads). */
  datatype Profile = Profile(
    id: string,
    userId: string,
    fullName: string,
    email: string,
    avatarUrl: Option<string>,
    bio: Option<string>,
    phone: Option<string>,
    street: Option<string>,
    number: Option<string>,
    neighborhood: Option<string>,
    city: Option<string>,
    state: Option<string>,
    zipCode: Option<string>,
    skills: Option<seq<string>>,
    experience: Option<string>,
    education: Option<string>)

  /** A form field filled from a nullable text column: the stored text, or '' for null. */
  predicate FilledFrom(field: string, column: Option<string>) {
    (column.Some? ==> field == column.value) && (column.None? ==> field == "")
  }

  /** `value || ''` on a nullable text column. */
  function OrEmpty(s: Option<string>): (r: string)
    ensures FilledFrom(r, s)
  {
    s.GetOr("")
  }

  /** `value || null` on a nullable number: `0` is falsy and becomes null as well. */
  function NonZeroOrNull(n: Option<int>): (r: Option<int>)
    ensures r.Some? <==> n.Some? && n.value != 0
    ensures r.Some? ==> r == n
  {
    if n.Some? && n.value != 0 then n else None
  }

  /** A number is truthy when it is present and not zero. */
  predicate Truthy(n: Option<int>) {
    n.Some? && n.value != 0
  }
}
