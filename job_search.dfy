/** The job search page: the client-side tag filter, salary labels and the apply flow. */
module JobSearch {
  import opened Wrappers
  import opened Schema
  import opened Text
  import opened Lists
  import opened Tags

  /** `skill.toLowerCase().includes(tag.toLowerCase())`. */
  predicate SkillMatchesTag(skill: string, tag: string) {
    Contains(ToLower(skill), ToLower(tag))
  }

  /** A skill matches a tag exactly when the tag, lower-cased, occurs somewhere in it. */
  lemma SkillMatchesTagIff(skill: string, tag: string)
    ensures SkillMatchesTag(skill, tag) <==> exists i :: OccursAt(ToLower(skill), ToLower(tag), i)
    ensures EqualsIgnoreCase(skill, tag) ==> SkillMatchesTag(skill, tag)
  {
    ContainsIff(ToLower(skill), ToLower(tag));
    ContainsSelf(ToLower(skill));
  }

  /** `tags.some(tag => ...)` for one skill. */
  function SomeTagMatches(skill: string, tags: seq<string>): (r: bool)
    ensures r <==> exists t :: t in tags && SkillMatchesTag(skill, t)
  {
    if tags == [] then false
    else SkillMatchesTag(skill, tags[0]) || SomeTagMatches(skill, tags[1..])
  }

  /** `skills.some(skill => tags.some(...))`. */
  function SomeSkillMatches(skills: seq<string>, tags: seq<string>): (r: bool)
    ensures r <==> exists s, t :: s in skills && t in tags && SkillMatchesTag(s, t)
  {
    if skills == [] then false
    else SomeTagMatches(skills[0], tags) || SomeSkillMatches(skills[1..], tags)
  }

  /** Whether the tag filter keeps a job: always with no tags, never with null skills. */
  predicate KeepsJob(job: Job, tags: seq<string>) {
    |tags| == 0 || (job.skillsRequired.Some? && SomeSkillMatches(job.skillsRequired.value, tags))
  }

  /**
   * `jobs?.filter(...)`: undefined while the jobs are, otherwise the jobs the tag filter
   * keeps, in their order.
   */
  function FilteredJobs(jobs: Option<seq<Job>>, tags: seq<string>): (r: Option<seq<Job>>)
    ensures r.Some? <==> jobs.Some?
    ensures r.Some? ==> IsSubsequence(r.value, jobs.value)
    ensures r.Some? ==> forall j :: j in r.value <==>
              j in jobs.value && (|tags| == 0 ||
                (j.skillsRequired.Some? &&
                 exists s, t :: s in j.skillsRequired.value && t in tags && SkillMatchesTag(s, t)))
    ensures r.Some? && |tags| == 0 ==> r == jobs
  {
    if jobs.None? then None
    else
      var keep := (j: Job) => KeepsJob(j, tags);
      if |tags| == 0 then
        FilterKeepsAll(jobs.value, keep);
        Some(Filter(jobs.value, keep))
      else
        Some(Filter(jobs.value, keep))
  }

  /** The salary line: none, a range, a lower bound or an upper bound. */
  datatype SalaryLabel = Range(min: int, max: int) | From(min: int) | UpTo(max: int)

  /** `formatSalary`: a bound counts only when it is present and non-zero. */
  function FormatSalary(min: Option<int>, max: Option<int>): (r: Option<SalaryLabel>)
    ensures r.None? <==> !Truthy(min) && !Truthy(max)
    ensures r.Some? && r.value.Range? <==> Truthy(min) && Truthy(max)
    ensures r.Some? && r.value.From? <==> Truthy(min) && !Truthy(max)
    ensures r.Some? && r.value.UpTo? <==> !Truthy(min) && Truthy(max)
    ensures r.Some? && (r.value.Range? || r.value.From?) ==> r.value.min == min.value
    ensures r.Some? && (r.value.Range? || r.value.UpTo?) ==> r.value.max == max.value
  {
    if !Truthy(min) && !Truthy(max) then None
    else if Truthy(min) && Truthy(max) then Some(Range(min.value, max.value))
    else if Truthy(min) then Some(From(min.value))
    else Some(UpTo(max.value))
  }

  /** The job ids of the signed-in user's applications, as the page's own query selects them. */
  function MyApplicationJobIds(rows: seq<(string, string)>, userId: Option<string>): (ids: seq<string>)
    ensures userId.None? ==> ids == []
    ensures userId.Some? ==> forall j :: j in ids <==> (userId.value, j) in rows
  {
    if userId.None? || rows == [] then []
    else
      var rest := MyApplicationJobIds(rows[1..], userId);
      if rows[0].0 == userId.value then [rows[0].1] + rest else rest
  }

  /** `myApplications?.includes(jobId)`: false while the list is not loaded. */
  function HasApplied(myApplications: Option<seq<string>>, jobId: string): (r: bool)
    ensures r ==> myApplications.Some?
  {
    myApplications.Some? && jobId in myApplications.value
  }

  /**
   * Once the list is loaded, a job shows as applied exactly when an application row pairs
   * the user with that job.
   */
  lemma HasAppliedIff(rows: seq<(string, string)>, userId: string, jobId: string)
    ensures HasApplied(Some(MyApplicationJobIds(rows, Some(userId))), jobId) <==> (userId, jobId) in rows
  {
  }

  /** The filter `t => !selectedTags.includes(t.name)`. */
  function Unselected(selected: seq<string>): TagRow -> bool {
    (t: TagRow) => t.name !in selected
  }

  /**
   * The tags offered as suggestions: the first 12 tags not yet selected, in the order of the
   * tag list (all of them when there are at most 12).
   */
  function TagSuggestions(tags: seq<TagRow>, selected: seq<string>): (r: seq<TagRow>)
    ensures |r| == if |Filter(tags, Unselected(selected))| < 12 then |Filter(tags, Unselected(selected))| else 12
    ensures forall k :: 0 <= k < |r| ==> r[k] == Filter(tags, Unselected(selected))[k]
    ensures forall t :: t in r ==> t in tags && t.name !in selected
    ensures IsSubsequence(r, tags)
    ensures |Filter(tags, Unselected(selected))| <= 12 ==>
              forall t :: t in tags && t.name !in selected ==> t in r
  {
    var unselected := Filter(tags, Unselected(selected));
    var r := Take(unselected, 12);
    SubsequenceMembers(r, unselected);
    SubsequenceTrans(r, unselected, tags);
    r
  }

  /** The application the apply mutation inserts. */
  datatype ApplicationInsert = ApplicationInsert(jobId: string, userId: string, coverLetter: Option<string>)

  /** The row for applying to `jobId`; an empty cover letter is stored as null. */
  function NewApplication(userId: Option<string>, jobId: string, coverLetter: string): (r: Result<ApplicationInsert>)
    ensures r.Err? <==> userId.None?
    ensures r.Err? ==> r.message == "Not authenticated"
    ensures r.Ok? ==> r.value.jobId == jobId && r.value.userId == userId.value
    ensures r.Ok? ==> (r.value.coverLetter.None? <==> coverLetter == "")
    ensures r.Ok? && r.value.coverLetter.Some? ==> r.value.coverLetter.value == coverLetter
  {
    if userId.None? then Err("Not authenticated")
    else Ok(ApplicationInsert(jobId, userId.value, if coverLetter == "" then None else Some(coverLetter)))
  }

  /** The error toast after a failed application: a duplicate means the user already applied. */
  function ApplyErrorText(message: string): (r: string)
    ensures Contains(message, "duplicate") ==> r == "Você já se candidatou a esta vaga"
    ensures !Contains(message, "duplicate") ==> r == "Erro ao enviar candidatura"
  {
    if Contains(message, "duplicate") then "Você já se candidatou a esta vaga" else "Erro ao enviar candidatura"
  }

  /** The page's state: the search box, the selected tags and the apply dialog. */
  class SearchPage {
    var searchQuery: string
    var selectedTags: seq<string>
    var selectedJob: Option<Job>
    var applyDialogOpen: bool
    var coverLetter: string

    /** The selected tags never repeat. */
    ghost predicate Valid()
      reads this
    {
      NoDup(selectedTags)
    }

    constructor ()
      ensures Valid()
      ensures searchQuery == "" && selectedTags == [] && selectedJob.None?
      ensures !applyDialogOpen && coverLetter == ""
    {
      searchQuery := "";
      selectedTags := [];
      selectedJob := None;
      applyDialogOpen := false;
      coverLetter := "";
    }

    /** `handleAddTag`: appends the tag when it is not selected yet. */
    method AddTag(tag: string)
      requires Valid()
      modifies this
      ensures Valid()
      ensures selectedTags == AddIfAbsent(old(selectedTags), tag)
      ensures searchQuery == old(searchQuery) && selectedJob == old(selectedJob)
      ensures applyDialogOpen == old(applyDialogOpen) && coverLetter == old(coverLetter)
    {
      if tag !in selectedTags {
        selectedTags := selectedTags + [tag];
      }
    }

    /** `handleRemoveTag`: drops the tag and keeps the others in order. */
    method RemoveTag(tag: string)
      requires Valid()
      modifies this
      ensures Valid()
      ensures selectedTags == Removed(old(selectedTags), tag)
      ensures searchQuery == old(searchQuery) && selectedJob == old(selectedJob)
      ensures applyDialogOpen == old(applyDialogOpen) && coverLetter == old(coverLetter)
    {
      RemovedNoDup(selectedTags, tag);
      selectedTags := Removed(selectedTags, tag);
    }

    /** "Limpar todos": clears the search text and every tag. */
    method ClearFilters()
      modifies this
      ensures Valid()
      ensures searchQuery == "" && selectedTags == []
      ensures selectedJob == old(selectedJob) && applyDialogOpen == old(applyDialogOpen)
      ensures coverLetter == old(coverLetter)
    {
      searchQuery := "";
      selectedTags := [];
    }

    /** `handleApply`: remembers the job and opens the apply dialog. */
    method StartApply(job: Job)
      modifies this
      ensures selectedJob == Some(job) && applyDialogOpen
      ensures searchQuery == old(searchQuery) && selectedTags == old(selectedTags)
      ensures coverLetter == old(coverLetter)
    {
      selectedJob := Some(job);
      applyDialogOpen := true;
    }

    /**
     * The dialog's submit button: with no selected job nothing happens; otherwise the
     * application is inserted (its outcome, `insertError`, is a parameter). Success closes the
     * dialog and clears the letter and the job; failure keeps them and yields the toast text.
     */
    method SubmitApplication(userId: Option<string>, insertError: Option<string>)
      returns (inserted: Option<ApplicationInsert>, errorToast: Option<string>)
      modifies this
      ensures old(selectedJob).None? ==> inserted.None? && errorToast.None? && selectedJob.None?
      ensures old(selectedJob).None? ==> applyDialogOpen == old(applyDialogOpen) && coverLetter == old(coverLetter)
      ensures old(selectedJob).Some? && userId.None? ==> inserted.None? && errorToast == Some(ApplyErrorText("Not authenticated"))
      ensures old(selectedJob).Some? && userId.Some? ==>
                inserted == Some(NewApplication(userId, old(selectedJob).value.id, old(coverLetter)).value)
      ensures old(selectedJob).Some? && userId.Some? && insertError.None? ==>
                errorToast.None? && !applyDialogOpen && coverLetter == "" && selectedJob.None?
      ensures old(selectedJob).Some? && (userId.None? || insertError.Some?) ==>
                selectedJob == old(selectedJob) && applyDialogOpen == old(applyDialogOpen) && coverLetter == old(coverLetter)
      ensures old(selectedJob).Some? && userId.Some? && insertError.Some? ==>
                errorToast == Some(ApplyErrorText(insertError.value))
      ensures searchQuery == old(searchQuery) && selectedTags == old(selectedTags)
    {
      inserted := None;
      errorToast := None;
      if selectedJob.None? {
        return;
      }
      var row := NewApplication(userId, selectedJob.value.id, coverLetter);
      if row.Err? {
        errorToast := Some(ApplyErrorText(row.message));
        return;
      }
      inserted := Some(row.value);
      if insertError.Some? {
        errorToast := Some(ApplyErrorText(insertError.value));
        return;
      }
      applyDialogOpen := false;
      coverLetter := "";
      selectedJob := None;
    }
  }
}
