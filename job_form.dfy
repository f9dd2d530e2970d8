/** The job form: its schema, its default values, the tag picker and the submit payload. */
module JobForm {
  import opened Wrappers
  import opened Schema
  import opened Text
  import opened Lists
  import opened Validation
  import opened Tags

  /** The values the form edits; `jobType` is the raw value of the type selector. */
  datatype JobFormData = JobFormData(
    title: string, description: string, responsibilities: string, requirements: string,
    educationRequired: string, experienceRequired: string, benefits: string,
    salaryMin: Option<int>, salaryMax: Option<int>, jobType: string, workSchedule: string,
    street: string, number: string, neighborhood: string, city: string, state: string,
    zipCode: string, isRemote: bool, isFeatured: bool, isActive: bool)

  const TitleMessage := "Título deve ter pelo menos 3 caracteres"
  const DescriptionMessage := "Descrição deve ter pelo menos 10 caracteres"
  const CityMessage := "Cidade é obrigatória"
  const StateMessage := "Estado é obrigatório"

  /** zod's message for a value outside the job-type enum. */
  function JobTypeMessage(received: string): string {
    "Invalid enum value. Expected 'clt' | 'pj' | 'temporary' | 'internship' | 'remote' | 'hybrid', received '"
      + received + "'"
  }

  /** The rules of the job schema; every other field is optional. */
  ghost predicate JobSchemaAccepts(d: JobFormData) {
    |d.title| >= 3 && |d.description| >= 10 && ParseJobType(d.jobType).Some? && |d.city| >= 2 && |d.state| >= 2
  }

  /** The issues the job schema reports, in field order. */
  function JobSchemaIssues(d: JobFormData): (r: seq<Issue>)
    ensures r == [] <==> JobSchemaAccepts(d)
  {
    MinLength("title", d.title, 3, TitleMessage)
    + MinLength("description", d.description, 10, DescriptionMessage)
    + Check("job_type", ParseJobType(d.jobType).Some?, JobTypeMessage(d.jobType))
    + MinLength("city", d.city, 2, CityMessage)
    + MinLength("state", d.state, 2, StateMessage)
  }

  lemma FiveParts(t: seq<Issue>, ds: seq<Issue>, j: seq<Issue>, c: seq<Issue>, s: seq<Issue>, f: string)
    ensures HasIssueFor(t + ds + j + c + s, f) <==>
      HasIssueFor(t, f) || HasIssueFor(ds, f) || HasIssueFor(j, f) || HasIssueFor(c, f) || HasIssueFor(s, f)
  {
    HasIssueForAppend(t + ds + j + c, s, f);
    HasIssueForAppend(t + ds + j, c, f);
    HasIssueForAppend(t + ds, j, f);
    HasIssueForAppend(t, ds, f);
  }

  /** Issues for `f` come only from the check on field `f`. */
  lemma OnlyOwnCheck(d: JobFormData, f: string)
    ensures HasIssueFor(JobSchemaIssues(d), f) <==>
      (f == "title" && |d.title| < 3) || (f == "description" && |d.description| < 10)
      || (f == "job_type" && ParseJobType(d.jobType).None?) || (f == "city" && |d.city| < 2)
      || (f == "state" && |d.state| < 2)
  {
    var t := MinLength("title", d.title, 3, TitleMessage);
    var ds := MinLength("description", d.description, 10, DescriptionMessage);
    var j := Check("job_type", ParseJobType(d.jobType).Some?, JobTypeMessage(d.jobType));
    var c := MinLength("city", d.city, 2, CityMessage);
    var s := MinLength("state", d.state, 2, StateMessage);
    FiveParts(t, ds, j, c, s, f);
    HasIssueForSingle(t, "title", TitleMessage, f);
    HasIssueForSingle(ds, "description", DescriptionMessage, f);
    HasIssueForSingle(j, "job_type", JobTypeMessage(d.jobType), f);
    HasIssueForSingle(c, "city", CityMessage, f);
    HasIssueForSingle(s, "state", StateMessage, f);
  }

  /** Each field gets an issue exactly when its own rule fails. */
  lemma JobSchemaFieldIssues(d: JobFormData)
    ensures HasIssueFor(JobSchemaIssues(d), "title") <==> |d.title| < 3
    ensures HasIssueFor(JobSchemaIssues(d), "description") <==> |d.description| < 10
    ensures HasIssueFor(JobSchemaIssues(d), "job_type") <==> ParseJobType(d.jobType).None?
    ensures HasIssueFor(JobSchemaIssues(d), "city") <==> |d.city| < 2
    ensures HasIssueFor(JobSchemaIssues(d), "state") <==> |d.state| < 2
  {
    OnlyOwnCheck(d, "title");
    OnlyOwnCheck(d, "description");
    OnlyOwnCheck(d, "job_type");
    OnlyOwnCheck(d, "city");
    OnlyOwnCheck(d, "state");
  }

  /**
   * The form's default values: an existing job's values, with `''` for missing (or empty)
   * text,
   * null for a missing or zero salary and `clt` for the type; `is_remote` and `is_featured`
   * are false unless true, while `is_active` is true unless it is set.
   */
  function DefaultValues(job: Option<Job>): (r: JobFormData)
    ensures job.None? ==>
              (r.title == "" && r.description == "" && r.jobType == "clt"
               && r.salaryMin.None? && r.salaryMax.None? && r.city == "" && r.state == ""
               && !r.isRemote && !r.isFeatured && r.isActive)
    ensures job.None? ==>
              (r.responsibilities == "" && r.requirements == "" && r.educationRequired == ""
               && r.experienceRequired == "" && r.benefits == "" && r.workSchedule == ""
               && r.street == "" && r.number == "" && r.neighborhood == "" && r.zipCode == "")
    ensures job.Some? ==>
              (r.title == job.value.title && r.description == job.value.description
               && r.city == job.value.city && r.state == job.value.state
               && ParseJobType(r.jobType) == Some(job.value.jobType))
    ensures job.Some? ==>
              (r.salaryMin == NonZeroOrNull(job.value.salaryMin) && r.salaryMax == NonZeroOrNull(job.value.salaryMax))
    ensures job.Some? ==>
              (FilledFrom(r.responsibilities, job.value.responsibilities) && FilledFrom(r.requirements, job.value.requirements)
               && FilledFrom(r.educationRequired, job.value.educationRequired)
               && FilledFrom(r.experienceRequired, job.value.experienceRequired)
               && FilledFrom(r.benefits, job.value.benefits) && FilledFrom(r.workSchedule, job.value.workSchedule)
               && FilledFrom(r.street, job.value.street) && FilledFrom(r.number, job.value.number)
               && FilledFrom(r.neighborhood, job.value.neighborhood) && FilledFrom(r.zipCode, job.value.zipCode))
    ensures job.Some? ==>
              ((r.isRemote <==> job.value.isRemote == Some(true))
               && (r.isFeatured <==> job.value.isFeatured == Some(true))
               && (r.isActive <==> job.value.isActive != Some(false)))
  {
    match job
    case None =>
      JobFormData("", "", "", "", "", "", "", None, None, "clt", "", "", "", "", "", "", "", false, false, true)
    case Some(j) =>
      ParseJobTypeRoundTrip(j.jobType);
      JobFormData(
        j.title, j.description, OrEmpty(j.responsibilities), OrEmpty(j.requirements),
        OrEmpty(j.educationRequired), OrEmpty(j.experienceRequired), OrEmpty(j.benefits),
        NonZeroOrNull(j.salaryMin), NonZeroOrNull(j.salaryMax), JobTypeName(j.jobType),
        OrEmpty(j.workSchedule), OrEmpty(j.street), OrEmpty(j.number), OrEmpty(j.neighborhood),
        j.city, j.state, OrEmpty(j.zipCode),
        j.isRemote == Some(true), j.isFeatured == Some(true), j.isActive.GetOr(true))
  }

  /** Editing a job that met the schema and submitting it unchanged passes the schema. */
  lemma DefaultsOfValidJobPass(job: Job)
    requires |job.title| >= 3 && |job.description| >= 10 && |job.city| >= 2 && |job.state| >= 2
    ensures JobSchemaIssues(DefaultValues(Some(job))) == []
  {
  }

  /** What `onSubmit` receives: the form data, the selected tags and the company. */
  datatype JobPayload = JobPayload(data: JobFormData, skillsRequired: seq<string>, companyId: Option<string>)

  /** `tags?.find(t => t.name.toLowerCase() === input.toLowerCase())`. */
  function FindTagIgnoringCase(tags: seq<TagRow>, input: string): (r: Option<TagRow>)
    ensures r.Some? ==> r.value in tags && EqualsIgnoreCase(r.value.name, input)
    ensures r.None? <==> forall t :: t in tags ==> !EqualsIgnoreCase(t.name, input)
  {
    if tags == [] then None
    else if EqualsIgnoreCase(tags[0].name, input) then Some(tags[0])
    else FindTagIgnoringCase(tags[1..], input)
  }

  /** The state of the tag picker and the company selector. */
  class JobFormState {
    var selectedTags: seq<string>
    var newTag: string
    var selectedCompanyId: string

    /** The job's skills, or none; the job's company, else the prop's, else `''`. */
    constructor (job: Option<Job>, companyId: Option<string>)
      ensures selectedTags == if job.Some? && job.value.skillsRequired.Some? then job.value.skillsRequired.value else []
      ensures newTag == ""
      ensures job.Some? && job.value.companyId != "" ==> selectedCompanyId == job.value.companyId
      ensures (job.None? || job.value.companyId == "") && companyId.Some? ==> selectedCompanyId == companyId.value
      ensures (job.None? || job.value.companyId == "") && companyId.None? ==> selectedCompanyId == ""
    {
      selectedTags := if job.Some? && job.value.skillsRequired.Some? then job.value.skillsRequired.value else [];
      newTag := "";
      selectedCompanyId :=
        if job.Some? && job.value.companyId != "" then job.value.companyId
        else if companyId.Some? then companyId.value
        else "";
    }

    /**
     * `handleAddTag`: the trimmed input is appended when it is non-empty and not selected,
     * then the input box is cleared; a new local tag is requested only in that case and only
     * when no known tag has the (untrimmed) input as its name, ignoring case. Otherwise
     * nothing changes.
     */
    method HandleAddTag(knownTags: Option<seq<TagRow>>) returns (request: Option<TagRequest>)
      modifies this
      ensures Trim(old(newTag)) != "" && Trim(old(newTag)) !in old(selectedTags) ==>
                selectedTags == old(selectedTags) + [Trim(old(newTag))] && newTag == ""
                && (request.Some? <==> knownTags.None? || FindTagIgnoringCase(knownTags.value, old(newTag)).None?)
                && (request.Some? ==> request.value == TagRequest(Trim(old(newTag)), None, Some(Local)))
      ensures Trim(old(newTag)) == "" || Trim(old(newTag)) in old(selectedTags) ==>
                selectedTags == old(selectedTags) && newTag == old(newTag) && request.None?
      ensures selectedCompanyId == old(selectedCompanyId)
      ensures NoDup(old(selectedTags)) ==> NoDup(selectedTags)
    {
      request := None;
      var t := Trim(newTag);
      if t != "" && t !in selectedTags {
        request := AddTrimmedTag(t, knownTags);
      }
    }

    /** The body of `handleAddTag` once the trimmed input `t` is known to be new. */
    method AddTrimmedTag(t: string, knownTags: Option<seq<TagRow>>) returns (request: Option<TagRequest>)
      requires t !in selectedTags
      modifies this
      ensures selectedTags == old(selectedTags) + [t] && newTag == ""
      ensures NoDup(old(selectedTags)) ==> NoDup(selectedTags)
      ensures request.Some? <==> knownTags.None? || FindTagIgnoringCase(knownTags.value, old(newTag)).None?
      ensures request.Some? ==> request.value == TagRequest(t, None, Some(Local))
      ensures selectedCompanyId == old(selectedCompanyId)
    {
      selectedTags := AddIfAbsent(selectedTags, t);
      request := None;
      if knownTags.None? || FindTagIgnoringCase(knownTags.value, newTag).None? {
        request := Some(TagRequest(t, None, Some(Local)));
      }
      newTag := "";
    }

    /** `handleSelectTag`: appends a known tag when it is not selected yet. */
    method HandleSelectTag(tagName: string)
      modifies this
      ensures selectedTags == AddIfAbsent(old(selectedTags), tagName)
      ensures newTag == old(newTag) && selectedCompanyId == old(selectedCompanyId)
    {
      if tagName !in selectedTags {
        selectedTags := selectedTags + [tagName];
      }
    }

    /** `handleRemoveTag`: drops the tag, keeping the others in order. */
    method HandleRemoveTag(tagName: string)
      modifies this
      ensures selectedTags == Removed(old(selectedTags), tagName)
      ensures newTag == old(newTag) && selectedCompanyId == old(selectedCompanyId)
    {
      selectedTags := Removed(selectedTags, tagName);
    }

    /**
     * The submit handler: the schema runs first and `onSubmit` is reached only when it
     * reports nothing; the payload carries the selected tags and the selected company,
     * falling back to the prop.
     */
    method Submit(data: JobFormData, companyIdProp: Option<string>) returns (issues: seq<Issue>, payload: Option<JobPayload>)
      ensures issues == JobSchemaIssues(data)
      ensures payload.Some? <==> JobSchemaAccepts(data)
      ensures payload.Some? ==> payload.value.data == data && payload.value.skillsRequired == selectedTags
      ensures payload.Some? && selectedCompanyId != "" ==> payload.value.companyId == Some(selectedCompanyId)
      ensures payload.Some? && selectedCompanyId == "" ==> payload.value.companyId == companyIdProp
    {
      issues := JobSchemaIssues(data);
      if issues != [] {
        return issues, None;
      }
      var company := if selectedCompanyId != "" then Some(selectedCompanyId) else companyIdProp;
      payload := Some(JobPayload(data, selectedTags, company));
    }
  }

  /** The tags the form asks to create are stored as approved local tags. */
  lemma FormTagRequestsApproved(userId: string, name: string)
    ensures var row := NewTagRow(Some(userId), TagRequest(name, None, Some(Local)));
            row.Ok? && row.value.approved && row.value.tagType == Local && row.value.description.None?
  {
  }
}
