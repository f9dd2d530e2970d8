/** The recruiter's job list: tag filter, application counts, job creation and the form handlers. */
module JobsManagement {
  import opened Wrappers
  import opened Schema
  import opened Lists
  import opened JobSearch
  import opened JobForm

  /**
   * The client-side step of the jobs query: `let filteredJobs = data`, narrowed by the
   * tag rule only when some tag is selected. It is the same filter as the search page's.
   */
  method TagFilteredJobs(data: seq<Job>, selectedTags: seq<string>) returns (filtered: seq<Job>)
    ensures Some(filtered) == FilteredJobs(Some(data), selectedTags)
    ensures |selectedTags| == 0 ==> filtered == data
    ensures IsSubsequence(filtered, data)
  {
    filtered := data;
    if |selectedTags| > 0 {
      filtered := Filter(filtered, (j: Job) => KeepsJob(j, selectedTags));
    }
  }

  /** `counts` maps each job id that occurs in `jobIds` to its number of occurrences. */
  ghost predicate CountsApplications(counts: map<string, nat>, jobIds: seq<string>) {
    && (forall j :: j in counts <==> j in jobIds)
    && (forall j :: j in counts ==> counts[j] == Count(jobIds, j))
  }

  /** The `forEach` that fills the dictionary: `counts[id] = (counts[id] || 0) + 1`. */
  method CountByJob(jobIds: seq<string>) returns (counts: map<string, nat>)
    ensures CountsApplications(counts, jobIds)
  {
    counts := map[];
    var i := 0;
    while i < |jobIds|
      invariant 0 <= i <= |jobIds|
      invariant CountsApplications(counts, jobIds[..i])
    {
      var id := jobIds[i];
      var previous := if id in counts then counts[id] else 0;
      assert jobIds[..i + 1] == jobIds[..i] + [id];
      forall j ensures Count(jobIds[..i + 1], j) == Count(jobIds[..i], j) + (if id == j then 1 else 0) {
        CountSnoc(jobIds[..i], id, j);
      }
      counts := counts[id := previous + 1];
      i := i + 1;
    }
    assert jobIds[..i] == jobIds;
  }

  /**
   * The application-count query: no jobs gives `{}`; a failed fetch of the applications'
   * job ids throws; otherwise the dictionary of counts.
   */
  method ApplicationCounts(jobs: Option<seq<Job>>, fetched: Result<seq<string>>) returns (r: Result<map<string, nat>>)
    ensures jobs.None? || jobs == Some([]) ==> r == Ok(map[])
    ensures jobs.Some? && jobs.value != [] && fetched.Err? ==> r == Err(fetched.message)
    ensures jobs.Some? && jobs.value != [] && fetched.Ok? ==> r.Ok? && CountsApplications(r.value, fetched.value)
  {
    if jobs.None? || jobs.value == [] {
      return Ok(map[]);
    }
    if fetched.Err? {
      return Err(fetched.message);
    }
    var counts := CountByJob(fetched.value);
    r := Ok(counts);
  }

  /** The count shown for a job: its entry, or 0 when absent. */
  function CountFor(counts: map<string, nat>, jobId: string): nat {
    if jobId in counts then counts[jobId] else 0
  }

  /** The counts of the listed keys added up. */
  function SumOver(counts: map<string, nat>, keys: seq<string>): nat {
    if keys == [] then 0 else CountFor(counts, keys[0]) + SumOver(counts, keys[1..])
  }

  /** An absent key is shown as 0, which is the number of applications it has. */
  lemma AbsentMeansZero(counts: map<string, nat>, jobIds: seq<string>, jobId: string)
    requires CountsApplications(counts, jobIds)
    ensures CountFor(counts, jobId) == Count(jobIds, jobId)
  {
  }

  lemma {:induction false} SumOverIsCountAll(counts: map<string, nat>, jobIds: seq<string>, keys: seq<string>)
    requires CountsApplications(counts, jobIds)
    ensures SumOver(counts, keys) == CountAll(keys, jobIds)
  {
    if keys != [] {
      SumOverIsCountAll(counts, jobIds, keys[1..]);
    }
  }

  /**
   * Listing every key of the dictionary once, the counts add up to the number of fetched
   * applications.
   */
  lemma CountsSumToTotal(counts: map<string, nat>, jobIds: seq<string>, keys: seq<string>)
    requires CountsApplications(counts, jobIds)
    requires NoDup(keys) && forall j :: j in counts ==> j in keys
    ensures SumOver(counts, keys) == |jobIds|
  {
    SumOverIsCountAll(counts, jobIds, keys);
    CountAllCovers(keys, jobIds);
  }

  /** The membership row the page loads; `companyId` may be empty. */
  datatype Membership = Membership(companyId: string, isAdmin: bool)

  /**
   * `!!companyMembership?.company_id`: an absent membership is `undefined` and an empty company
   * id is falsy, so the page may create jobs exactly when a membership with a non-empty
   * company id is loaded.
   */
  predicate CanCreateJobs(membership: Option<Membership>): (r: bool)
    ensures membership.None? ==> !r
    ensures membership.Some? ==> (r <==> |membership.value.companyId| > 0)
  {
    membership.Some? && membership.value.companyId != ""
  }

  /** The row `createJob` inserts: the payload, with the company and creator overridden. */
  datatype JobInsert = JobInsert(data: JobFormData, skillsRequired: seq<string>, companyId: string, createdBy: Option<string>)

  const NoCompanyMessage := "Você precisa estar vinculado a uma empresa para criar vagas"

  /**
   * `createJob`: without a company membership it throws and inserts nothing; otherwise the
   * row takes its company from the membership and its creator from the user, whatever the
   * payload carried.
   */
  function NewJobRow(membership: Option<Membership>, userId: Option<string>, payload: JobPayload): (r: Result<JobInsert>)
    ensures r.Err? <==> !CanCreateJobs(membership)
    ensures r.Err? ==> r.message == NoCompanyMessage
    ensures r.Ok? ==> r.value.companyId == membership.value.companyId && r.value.createdBy == userId
    ensures r.Ok? ==> r.value.data == payload.data && r.value.skillsRequired == payload.skillsRequired
  {
    if !CanCreateJobs(membership) then Err(NoCompanyMessage)
    else Ok(JobInsert(payload.data, payload.skillsRequired, membership.value.companyId, userId))
  }

  /** The mutation `handleSubmit` starts. */
  datatype JobMutation = UpdateJob(id: string, payload: JobPayload) | CreateJob(payload: JobPayload)

  /** The page state the handlers change. */
  class JobsPage {
    var searchQuery: string
    var selectedTags: seq<string>
    var isFormOpen: bool
    var editingJob: Option<Job>

    constructor ()
      ensures searchQuery == "" && selectedTags == [] && !isFormOpen && editingJob.None?
    {
      searchQuery := "";
      selectedTags := [];
      isFormOpen := false;
      editingJob := None;
    }

    /** `handleSubmit`: an update of the edited job, or a creation when none is edited. */
    method HandleSubmit(payload: JobPayload) returns (m: JobMutation)
      ensures editingJob.Some? <==> m.UpdateJob?
      ensures m.UpdateJob? ==> m.id == editingJob.value.id
      ensures m.payload == payload
    {
      if editingJob.Some? {
        m := UpdateJob(editingJob.value.id, payload);
      } else {
        m := CreateJob(payload);
      }
    }

    /** `handleEdit`: opens the form on the job. */
    method HandleEdit(job: Job)
      modifies this
      ensures editingJob == Some(job) && isFormOpen
      ensures searchQuery == old(searchQuery) && selectedTags == old(selectedTags)
    {
      editingJob := Some(job);
      isFormOpen := true;
    }

    /** "Nova Vaga": opens an empty form. */
    method NewJob()
      modifies this
      ensures editingJob.None? && isFormOpen
      ensures searchQuery == old(searchQuery) && selectedTags == old(selectedTags)
    {
      editingJob := None;
      isFormOpen := true;
    }

    /** After a successful creation the form closes. */
    method CreateSucceeded()
      modifies this
      ensures !isFormOpen && editingJob == old(editingJob)
      ensures searchQuery == old(searchQuery) && selectedTags == old(selectedTags)
    {
      isFormOpen := false;
    }

    /** After a successful update the form closes and nothing is being edited. */
    method UpdateSucceeded()
      modifies this
      ensures !isFormOpen && editingJob.None?
      ensures searchQuery == old(searchQuery) && selectedTags == old(selectedTags)
    {
      isFormOpen := false;
      editingJob := None;
    }

    /** `handleAddTagFilter`: appends the tag when it is not selected yet. */
    method AddTagFilter(tagName: string)
      modifies this
      ensures selectedTags == AddIfAbsent(old(selectedTags), tagName)
      ensures searchQuery == old(searchQuery) && isFormOpen == old(isFormOpen) && editingJob == old(editingJob)
    {
      if tagName !in selectedTags {
        selectedTags := selectedTags + [tagName];
      }
    }

    /** `handleRemoveTag`: drops only that tag. */
    method RemoveTag(tagName: string)
      modifies this
      ensures selectedTags == Removed(old(selectedTags), tagName)
      ensures searchQuery == old(searchQuery) && isFormOpen == old(isFormOpen) && editingJob == old(editingJob)
    {
      selectedTags := Removed(selectedTags, tagName);
    }
  }
}
