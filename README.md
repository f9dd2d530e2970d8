# job-navigator — a verified model of the client-side logic

job-navigator is a Brazilian job board. Candidates search jobs, filter them by skill tags and
apply with a cover letter. Recruiters register a company, publish and edit jobs, select
candidates and message or email them in bulk. Users exchange direct messages. A company dashboard
shows application analytics, and an admin page lists users, companies and jobs.
The application is a React front end over a hosted database. The logic that lives in the
client is sequential, works on strings and integers, and can be stated exactly. This project
models that logic in Dafny:

- the analytics rollup: counts per status, conversion rates, mean response time and the 30-day trend;
- the charts the dashboard derives from the rollup;
- the tag, skill and candidate selection lists, the case-insensitive skill filter and the
  per-job application counts;
- the validation rules of the login, signup, job and profile forms, and the field-error map;
- find-or-create conversation, send message, and the conversation and message listings;
- company creation with its admin membership and the role change that may fail;
- construction of tag rows, and the admin page's access and display rules.

Each source file of that core has its own module:

| module | models |
|---|---|
| `Analytics` (analytics.dfy) | `src/hooks/useAnalytics.ts` |
| `AnalyticsDashboard` (analytics_dashboard.dfy) | `src/components/analytics/AnalyticsDashboard.tsx` |
| `JobSearch` (job_search.dfy) | `src/components/jobs/JobSearch.tsx` |
| `JobsManagement` (jobs_management.dfy) | `src/components/jobs/JobsManagement.tsx` |
| `CandidatesList` (candidates_list.dfy) | `src/components/jobs/CandidatesList.tsx` |
| `JobForm` (job_form.dfy) | `src/components/jobs/JobForm.tsx` |
| `ProfileEdit` (profile_edit.dfy) | `src/components/profile/ProfileEdit.tsx` |
| `Auth` (auth.dfy) | `src/pages/Auth.tsx` |
| `Messaging` (messaging.dfy) | `src/hooks/useMessages.ts` |
| `MessagesPanel` (messages_panel.dfy) | `src/components/messages/MessagesPanel.tsx` |
| `CompanyRegistration` (company_registration.dfy) | `src/components/company/CompanyRegistration.tsx` |
| `Companies` (company.dfy) | `src/hooks/useCompany.ts` |
| `Tags` (tags.dfy) | `src/hooks/useTags.ts` |
| `Admin` (admin.dfy) | `src/pages/Admin.tsx` |

Several shared modules support them:

- `Schema` holds the enums of `src/integrations/supabase/types.ts` and the row types.
- `Text` holds JavaScript's `trim`, ASCII `toLowerCase`, `includes` and the non-digit strip.
- `Lists` holds filter, add-if-absent, remove, toggle, counting and sort-by-key, each with its
  own contract.
- `Validation` holds zod-style issues: a path and a message.
- `Wrappers` holds `Option` and `Result`.

Component state the source updates through its handlers is a class with those fields, and
each handler is a method. For example:

- `JobSearch.SearchPage`, `JobForm.JobFormState`, `ProfileEdit.ProfileEditor`,
  `CandidatesList.CandidateSelection`, `JobsManagement.JobsPage`, `Auth.AuthPage`,
  `MessagesPanel.PanelState` and `CompanyRegistration.RegistrationForm`.
- The database tables the client writes are also classes: `Messaging.MessageTables` and
  `Companies.CompanyTables`, each holding rows in sequences. Ids are positions in the table,
  so a new row's id is the table's length.
- Loops in the source are methods proved against a specification function:
  - the average-response reduce, the 30-day trend loop and the per-job `map`;
  - the `counts` `forEach` and the field-error `forEach`;
  - the sequential bulk send.
- Pure derivations are functions.

Modelling conventions:

- Every `await` is one step.
- A failed database call is a boolean parameter, so each error path is stated.
- Timestamps are integer milliseconds since the epoch, and a day is `ms / 86400000`.
- Rates and means are `real`.
- zod's email check is an uninterpreted parameter `isEmail: string -> bool`.

## Model

| member | source | states |
|---|---|---|
| Analytics.StatusPartition | src/hooks/useAnalytics.ts:98-106 | the five status counts add up to the number of applications, because a status takes exactly five values |
| Analytics.StatusCountsOf | src/hooks/useAnalytics.ts:98-104 | each count is the number of applications with that status; the counts partition the list, so their total is its length and hired never exceeds it |
| Analytics.ConversionRate | src/hooks/useAnalytics.ts:106-107 | the rate is 0 without applications and otherwise satisfies rate·total = hired·100; it is never negative and at most 100 when hired ≤ total |
| Analytics.ForJob | src/hooks/useAnalytics.ts:97 | an application is in a job's list exactly when it belongs to that job |
| Analytics.Responded | src/hooks/useAnalytics.ts:110 | exactly the non-pending applications are kept, so their number is the total minus the pending count |
| Analytics.RespondedCount | src/hooks/useAnalytics.ts:110 | the responded list is as long as the total minus the pending count |
| Analytics.AverageResponseTime | src/hooks/useAnalytics.ts:110-119 | the loop computes the mean response time in hours of the non-pending applications, 0 when all are pending |
| Analytics.TimesIsProduct | src/hooks/useAnalytics.ts:113-118 | adding a value k times is multiplying it by k, which links the left-to-right sum to the mean |
| Analytics.TotalHoursBounds | src/hooks/useAnalytics.ts:113-117 | a sum of response times bounded by lo and hi lies between k·lo and k·hi |
| Analytics.DivBounds | src/hooks/useAnalytics.ts:118 | dividing such a sum by its count gives a value between the bounds |
| Analytics.MeanResponseBounds | src/hooks/useAnalytics.ts:110-119 | the mean response time lies between the smallest and the largest response time of the non-pending applications |
| Analytics.TrendOf | src/hooks/useAnalytics.ts:157-165 | the trend has exactly 30 entries; entry k is day today−29+k and counts the applications created that day |
| Analytics.Trend | src/hooks/useAnalytics.ts:157-165 | the `for` loop builds exactly the 30-day trend ending on the day of `now`, oldest first |
| Analytics.TrendDaysConsecutive | src/hooks/useAnalytics.ts:159-162 | the trend ends today and each entry's day is the day after the previous entry's |
| Analytics.CountInWindow | src/hooks/useAnalytics.ts:163 | the applications created within a window of days never exceed the total |
| Analytics.WindowEmpty | src/hooks/useAnalytics.ts:163 | an empty window counts nothing |
| Analytics.WindowGrows | src/hooks/useAnalytics.ts:163 | widening a window by one day adds exactly that day's count |
| Analytics.TrendCountsWindow | src/hooks/useAnalytics.ts:157-165 | each application of the last 30 days is counted exactly once: the trend counts add up to the window count, and never to more than the total |
| Analytics.JobStats | src/hooks/useAnalytics.ts:96-128 | a job's entry copies its id and title; its total is the number of its applications and equals the sum of its status counts; its status counts are those of its own applications; its rate is hired·100/total, or 0 without applications, and lies in [0,100]; its mean is the mean over its applications |
| Analytics.AllJobStats | src/hooks/useAnalytics.ts:96-129 | exactly one entry per job, in the jobs' order |
| Analytics.PerJobAnalytics | src/hooks/useAnalytics.ts:96-129 | the loop yields one statistics entry per job, in order |
| Analytics.Zeroed | src/hooks/useAnalytics.ts:48-59 | the zeroed result has no jobs, zero counters and an empty trend, not a 30-entry one |
| Analytics.Rollup | src/hooks/useAnalytics.ts:132-177 | the overview counts every job and application; its status counts are those of all applications and sum to their total; the overall rate is hired·100/total, or 0 without applications, and lies in [0,100]; the mean and the 30-day trend are taken over all applications |
| Analytics.CompanyAnalytics | src/hooks/useAnalytics.ts:41-93 | not signed in throws 'Not authenticated'; no company, or no jobs, gives the zeroed result; a failed query throws its error; otherwise it returns the rollup of the fetched rows |
| Analytics.ComputeRollup | src/hooks/useAnalytics.ts:96-177 | the per-job loop followed by the overview builds the rollup |
| Analytics.JobIdsOf | src/hooks/useAnalytics.ts:85 | one job id per application, in order |
| Analytics.ForJobIsCount | src/hooks/useAnalytics.ts:97 | a job's application total is the number of occurrences of its id among the applications' job ids |
| Analytics.IdsOf | src/hooks/useAnalytics.ts:85 | one id per job, in order |
| Analytics.SumTotalsIsCountAll | src/hooks/useAnalytics.ts:96-129 | the per-job totals add up to the number of applications whose job is among the jobs, counted with multiplicity |
| Analytics.JobTotalsCoverApplications | src/hooks/useAnalytics.ts:86-89 | when job ids are distinct and every application was fetched for one of the jobs, the per-job totals add up to the overview total |
| AnalyticsDashboard.Render | src/components/analytics/AnalyticsDashboard.tsx:43-72 | a spinner exactly while loading; otherwise an error card exactly on error, with its 'Erro ao carregar analytics: ' text; otherwise the empty state exactly when data is absent or has no jobs; otherwise the charts of the data |
| AnalyticsDashboard.EmptyStateExactlyWhenNoJobs | src/components/analytics/AnalyticsDashboard.tsx:61-72 | the zeroed rollup shows the empty state, and a rollup with at least one job shows the charts |
| AnalyticsDashboard.PieData | src/components/analytics/AnalyticsDashboard.tsx:76-80 | one slice per status in key order, with that status's label, count and colour |
| AnalyticsDashboard.PieCoversEveryStatus | src/components/analytics/AnalyticsDashboard.tsx:24-80 | the slices add up to the status total, every status has a slice, and no two slices share a status or a label |
| AnalyticsDashboard.BarLabel | src/components/analytics/AnalyticsDashboard.tsx:83 | a title of up to 20 characters is kept; a longer one becomes its first 20 characters followed by '...' |
| AnalyticsDashboard.BarData | src/components/analytics/AnalyticsDashboard.tsx:82-86 | at most 10 bars, taken in order from the first jobs, each with the job's label, total and hires |
| AnalyticsDashboard.BarHiresWithinTotals | src/components/analytics/AnalyticsDashboard.tsx:82-86 | for a rollup, no bar shows more hires than applications |
| AnalyticsDashboard.LineData | src/components/analytics/AnalyticsDashboard.tsx:88-91 | exactly one point per trend entry, in order, with that day's count |
| AnalyticsDashboard.ResponseTimeDisplay | src/components/analytics/AnalyticsDashboard.tsx:149-151 | hours exactly when the mean is below 24, and otherwise days equal to the mean divided by 24 (so at least 1) |
| JobSearch.SkillMatchesTagIff | src/components/jobs/JobSearch.tsx:68 | a skill matches a tag exactly when the lower-cased tag occurs in the lower-cased skill at some position; equal ignoring case implies a match |
| JobSearch.SomeTagMatches | src/components/jobs/JobSearch.tsx:68 | true exactly when some selected tag matches the skill |
| JobSearch.SomeSkillMatches | src/components/jobs/JobSearch.tsx:67-69 | true exactly when some skill matches some selected tag |
| JobSearch.FilteredJobs | src/components/jobs/JobSearch.tsx:65-70 | no tags keeps every job; otherwise a job is kept exactly when it has skills and one of them matches a tag; the result is an order-preserving subsequence, undefined when the jobs are |
| JobSearch.FormatSalary | src/components/jobs/JobSearch.tsx:117-124 | null when both bounds are falsy (0 included), a range when both are set, 'from' with only min, 'up to' with only max, each carrying the given bounds |
| JobSearch.MyApplicationJobIds | src/components/jobs/JobSearch.tsx:49-62 | no user gives no ids; otherwise a job id is listed exactly when the user has an application row for it |
| JobSearch.HasApplied | src/components/jobs/JobSearch.tsx:126 | never true while the applications are not loaded |
| JobSearch.HasAppliedIff | src/components/jobs/JobSearch.tsx:49-126 | hasApplied holds exactly when the user has an application row for that job |
| JobSearch.TagSuggestions | src/components/jobs/JobSearch.tsx:182 | the suggestions are the first 12 unselected tags in the tag list's order, or all of them when there are fewer |
| JobSearch.NewApplication | src/components/jobs/JobSearch.tsx:73-82 | fails with 'Not authenticated' exactly without a user; otherwise the row carries the job, the user and the cover letter, null when it is empty |
| JobSearch.ApplyErrorText | src/components/jobs/JobSearch.tsx:93-99 | an error containing 'duplicate' shows the already-applied text, and any other error the generic one |
| JobSearch.SearchPage.constructor | src/components/jobs/JobSearch.tsx:32-36 | the page starts with no query, no tags, no selected job and a closed, empty apply dialog |
| JobSearch.SearchPage.AddTag | src/components/jobs/JobSearch.tsx:106-110 | the tag is appended only when absent, so the list stays duplicate-free; nothing else changes |
| JobSearch.SearchPage.RemoveTag | src/components/jobs/JobSearch.tsx:102-104 | only that tag is removed and the others keep their order |
| JobSearch.SearchPage.ClearFilters | src/components/jobs/JobSearch.tsx:171 | the query and the tag list are cleared, and nothing else |
| JobSearch.SearchPage.StartApply | src/components/jobs/JobSearch.tsx:112-115 | the job is selected and the dialog opened |
| JobSearch.SearchPage.SubmitApplication | src/components/jobs/JobSearch.tsx:72-100 | without a selected job nothing happens; without a user the generic 'Erro ao enviar candidatura' toast is shown; otherwise the row is inserted, and success closes and clears the dialog while failure keeps it and shows the classified error |
| Lists.AddIfAbsentIdempotent | src/components/jobs/JobSearch.tsx:106-110 | adding the same tag twice equals adding it once (the same handler in JobsManagement and JobForm) |
| Lists.RemovedNoDup | src/components/jobs/JobsManagement.tsx:204-206 | removing a tag keeps a duplicate-free list duplicate-free |
| Lists.ToggleTwice | src/components/jobs/CandidatesList.tsx:114-120 | two toggles of the same candidate restore the selection as a set, and the exact list when the candidate was not selected |
| JobsManagement.TagFilteredJobs | src/components/jobs/JobsManagement.tsx:84-94 | the reassigned `filteredJobs` equals the JobSearch tag filter: all jobs with no tags, otherwise an order-preserving subsequence |
| JobsManagement.CountByJob | src/components/jobs/JobsManagement.tsx:112-116 | after the `forEach`, each key's count is its number of occurrences among the fetched job ids, and only fetched ids are keys |
| JobsManagement.ApplicationCounts | src/components/jobs/JobsManagement.tsx:102-116 | no jobs gives an empty dictionary; a failed fetch throws its error; otherwise the counts of the fetched rows |
| JobsManagement.AbsentMeansZero | src/components/jobs/JobsManagement.tsx:339 | `count \|\| 0` is the number of applications of that job, including 0 for an absent key |
| JobsManagement.SumOverIsCountAll | src/components/jobs/JobsManagement.tsx:112-116 | summing the counts over any key list gives the number of fetched rows whose job is in that list |
| JobsManagement.CountsSumToTotal | src/components/jobs/JobsManagement.tsx:112-116 | the counts over all keys add up to the number of fetched applications |
| JobsManagement.CanCreateJobs | src/components/jobs/JobsManagement.tsx:215 | JavaScript truthiness of the optional company id: false without a membership, and otherwise true exactly when the company id is non-empty |
| JobsManagement.NewJobRow | src/components/jobs/JobsManagement.tsx:121-138 | fails with the company-required message exactly when the user has no membership with a company; otherwise the row takes the form data and skills, with company_id and created_by overridden by the membership and the user |
| JobsManagement.JobsPage.constructor | src/components/jobs/JobsManagement.tsx:31-34 | no query, no tags, the form closed and nothing being edited |
| JobsManagement.JobsPage.HandleSubmit | src/components/jobs/JobsManagement.tsx:191-197 | an update of the edited job exactly when one is being edited, otherwise a create, with the submitted payload |
| JobsManagement.JobsPage.HandleEdit | src/components/jobs/JobsManagement.tsx:199-202 | the job is being edited and the form is open |
| JobsManagement.JobsPage.NewJob | src/components/jobs/JobsManagement.tsx:227 | 'Nova Vaga' opens the form with nothing being edited |
| JobsManagement.JobsPage.CreateSucceeded | src/components/jobs/JobsManagement.tsx:140-144 | a successful create closes the form |
| JobsManagement.JobsPage.UpdateSucceeded | src/components/jobs/JobsManagement.tsx:162-167 | a successful update closes the form and clears the edited job |
| JobsManagement.JobsPage.AddTagFilter | src/components/jobs/JobsManagement.tsx:208-212 | the tag is appended only when absent |
| JobsManagement.JobsPage.RemoveTag | src/components/jobs/JobsManagement.tsx:204-206 | only that tag is removed, and the order is kept |
| CandidatesList.UserIds | src/components/jobs/CandidatesList.tsx:110 | one user id per application, in order, and none when the applications are not loaded |
| CandidatesList.SelectAll | src/components/jobs/CandidatesList.tsx:106-112 | a selection as long as the application list is cleared; otherwise every applicant is selected in list order |
| CandidatesList.SelectAllFlipsCheckbox | src/components/jobs/CandidatesList.tsx:106-192 | after select-all the checkbox is checked exactly when there are applications and they were not all selected |
| CandidatesList.EmailRecipients | src/components/jobs/CandidatesList.tsx:150-153 | one recipient per selected applicant with a non-empty email, in application order, each being that applicant's email; an address is a recipient exactly when it is such an email |
| CandidatesList.NoSelectionNoRecipients | src/components/jobs/CandidatesList.tsx:150-153 | with nobody selected there are no recipients |
| CandidatesList.EmailSubject | src/components/jobs/CandidatesList.tsx:158 | a given subject is used as is; an empty one becomes 'Atualização sobre a vaga: ' followed by the job title |
| CandidatesList.MessageContent | src/components/jobs/CandidatesList.tsx:131 | the content is '[', the job title, ']', two line feeds, then the message |
| Messaging.KeepsParticipation | src/hooks/useMessages.ts:237-247 | later participant inserts never remove a participation |
| CandidatesList.DeliveredStill | src/components/jobs/CandidatesList.tsx:127-133 | a delivered message stays delivered when later participant rows are added |
| CandidatesList.ParticipatedExists | src/components/jobs/CandidatesList.tsx:128 | a conversation someone participates in exists in the table |
| CandidatesList.SendToAll | src/components/jobs/CandidatesList.tsx:127-133 | the loop appends exactly one message per selected candidate, in order, from the sender, in a conversation both take part in, and keeps the earlier messages |
| CandidatesList.SendOne | src/components/jobs/CandidatesList.tsx:128-132 | one iteration: find or create the conversation and send, extending the delivered prefix by one |
| CandidatesList.CandidateSelection.constructor | src/components/jobs/CandidatesList.tsx:52-59 | nothing selected, dialogs closed, texts empty, no send running |
| CandidatesList.CandidateSelection.SelectCandidate | src/components/jobs/CandidatesList.tsx:114-120 | the candidate is selected afterwards exactly when it was not before; the others are unchanged |
| CandidatesList.CandidateSelection.SelectAllCandidates | src/components/jobs/CandidatesList.tsx:106-112 | the selection becomes the select-all result |
| CandidatesList.CandidateSelection.OpenMessageDialog | src/components/jobs/CandidatesList.tsx:53-55 | the message dialog is open with the typed text; the selection is kept |
| CandidatesList.CandidateSelection.OpenEmailDialog | src/components/jobs/CandidatesList.tsx:54-57 | the email dialog is open with the subject and text; the selection is kept |
| CandidatesList.CandidateSelection.SendMessages | src/components/jobs/CandidatesList.tsx:122-143 | a blank message or an empty selection does nothing; not signed in fails with 'Erro ao enviar mensagens' and keeps everything; otherwise one delivered message per candidate, then the selection, text and dialog are cleared |
| CandidatesList.CandidateSelection.SendToSelected | src/components/jobs/CandidatesList.tsx:125-142 | past the guard: the failure keeps the state, and success delivers one message per candidate and clears the selection, text and dialog; the sending flag is reset either way |
| CandidatesList.CandidateSelection.SendEmails | src/components/jobs/CandidatesList.tsx:145-177 | a blank text or an empty selection does nothing; otherwise the request carries the subject (or its fallback), the text and the recipients; success clears the selection and fields, and failure keeps them with 'Erro ao enviar emails' |
| CandidatesList.CandidateSelection.EmailSelected | src/components/jobs/CandidatesList.tsx:148-176 | past the guard: the request and its outcome as above, with the sending flag reset |
| JobForm.JobSchemaIssues | src/components/jobs/JobForm.tsx:19-43 | no issue exactly when title ≥ 3, description ≥ 10, job type one of the six values, city ≥ 2 and state ≥ 2 characters |
| JobForm.FiveParts | src/components/jobs/JobForm.tsx:19-43 | a field has an issue in the concatenated checks exactly when one of the five checks reports it |
| JobForm.OnlyOwnCheck | src/components/jobs/JobForm.tsx:19-43 | a field's issue comes from its own rule only |
| JobForm.JobSchemaFieldIssues | src/components/jobs/JobForm.tsx:20-35 | each of title, description, job_type, city and state has an issue exactly when its own rule fails |
| JobForm.DefaultValues | src/components/jobs/JobForm.tsx:94-115 | a new job starts empty as 'clt', active and neither remote nor featured; an edited job copies title, description, city and state, its type, and each of its ten optional text fields, with '' for null; a salary of 0 becomes null; is_active stays true unless it was false, while remote and featured need true |
| JobForm.DefaultsOfValidJobPass | src/components/jobs/JobForm.tsx:19-115 | the defaults of a stored job with valid lengths pass the schema |
| JobForm.FindTagIgnoringCase | src/components/jobs/JobForm.tsx:146 | the found tag is a known tag equal to the input ignoring case; nothing is found exactly when no known tag is |
| JobForm.FormTagRequestsApproved | src/hooks/useTags.ts:43-49 | a tag created from the form is an approved local tag without description |
| JobForm.JobFormState.constructor | src/components/jobs/JobForm.tsx:71-73 | the tags start as the job's skills or empty, and the company is the job's, else the prop, else '' |
| JobForm.JobFormState.HandleAddTag | src/components/jobs/JobForm.tsx:142-151 | a non-blank trimmed tag that is not yet selected is appended and the input cleared; a new local tag is requested exactly when no known tag equals the untrimmed input ignoring case; otherwise nothing changes |
| JobForm.JobFormState.AddTrimmedTag | src/components/jobs/JobForm.tsx:144-149 | the append-and-request step of the handler, keeping the list duplicate-free |
| JobForm.JobFormState.HandleSelectTag | src/components/jobs/JobForm.tsx:153-157 | the tag is appended only when absent |
| JobForm.JobFormState.HandleRemoveTag | src/components/jobs/JobForm.tsx:159-161 | only that tag is removed |
| JobForm.JobFormState.Submit | src/components/jobs/JobForm.tsx:163-165 | a payload exactly when the schema accepts; it carries the data and the selected tags, and the selected company, falling back to the prop |
| Schema.ParseJobType | src/integrations/supabase/types.ts:477 | a parsed job type is the one whose name is the text |
| Schema.ParseJobTypeRoundTrip | src/integrations/supabase/types.ts:477 | every job type's name parses back to it |
| Schema.OrEmpty | src/components/profile/ProfileEdit.tsx:70 | `x \|\| ''` on a nullable text: the text, or '' for null |
| Schema.NonZeroOrNull | src/components/jobs/JobForm.tsx:102-103 | `x \|\| null` on a number: null for null or 0, otherwise the value |
| Text.Trim | src/components/jobs/JobForm.tsx:143 | the trimmed text is no longer than the input, starts and ends with a non-space, and is empty exactly when the input is all white space |
| Text.TrimIsSlice | src/components/jobs/JobForm.tsx:143 | the trimmed text is the slice of the input that starts right after its leading white space |
| Text.TrimDropsOnlySpace | src/components/profile/ProfileEdit.tsx:109 | every character of the input before and after the trimmed slice is white space |
| Text.TrimFacts | src/components/profile/ProfileEdit.tsx:109 | the facts about trimming that the blank-input guards rely on |
| Text.ToLower | src/components/jobs/JobSearch.tsx:68 | lower-casing keeps the length and maps each character |
| Text.ContainsIff | src/components/jobs/JobSearch.tsx:68 | `includes` holds exactly when the needle occurs at some position |
| Text.ContainsSelf | src/components/jobs/JobSearch.tsx:68 | every text contains the empty text and itself |
| Text.DigitsOf | src/components/jobs/JobForm.tsx:123 | the stripped text holds only digits, is no longer, and an all-digit text is unchanged |
| Text.DigitsOfAppend | src/components/jobs/JobForm.tsx:123 | stripping distributes over appending a character |
| Text.ShortCepNeverFires | src/components/jobs/JobForm.tsx:123-124 | a zip code shorter than 8 characters never triggers the lookup |
| Text.DigitsSkipSeparator | src/components/profile/ProfileEdit.tsx:89 | a non-digit inside the zip code is stripped away |
| Text.CepSeparatorIrrelevant | src/components/profile/ProfileEdit.tsx:89-90 | inserting a separator such as '-' does not change whether the lookup fires |
| Text.EightDigitsFire | src/components/jobs/JobForm.tsx:123-124 | eight digits trigger the lookup |
| ProfileEdit.ProfileIssues | src/components/profile/ProfileEdit.tsx:17-30 | no issue exactly when the name has 3 characters and the email is valid; each of the two fields has an issue exactly when its own rule fails; no other field is ever reported |
| ProfileEdit.FormOf | src/components/profile/ProfileEdit.tsx:66-79 | name and email are copied; each of the ten nullable text columns becomes its text, or '' when null |
| ProfileEdit.SkillsOf | src/components/profile/ProfileEdit.tsx:80 | the stored skills, or [] when null |
| ProfileEdit.LoadThenSubmitUnchanged | src/components/profile/ProfileEdit.tsx:64-124 | loading a profile into an editor and submitting it unchanged goes through exactly when the stored name and email pass the schema, and then writes back every stored value, with '' for a null text and [] for null skills |
| ProfileEdit.ProfileEditor.constructor | src/components/profile/ProfileEdit.tsx:43-62 | empty form defaults, no skills, empty input |
| ProfileEdit.ProfileEditor.Load | src/components/profile/ProfileEdit.tsx:64-82 | the form is reset from the profile and the skills taken over |
| ProfileEdit.ProfileEditor.Edit | src/components/profile/ProfileEdit.tsx:46 | a form edit changes only the form |
| ProfileEdit.ProfileEditor.TypeSkill | src/components/profile/ProfileEdit.tsx:44 | typing changes only the input |
| ProfileEdit.ProfileEditor.AddSkill | src/components/profile/ProfileEdit.tsx:108-113 | a non-blank trimmed skill not yet listed is appended and the input cleared; otherwise nothing changes; no skill is lost and the list stays duplicate-free |
| ProfileEdit.ProfileEditor.RemoveSkill | src/components/profile/ProfileEdit.tsx:115-117 | only that skill is removed, the rest keep their order |
| ProfileEdit.ProfileEditor.Submit | src/components/profile/ProfileEdit.tsx:119-124 | an update exactly when the schema passes, carrying the form's values and the current skills |
| ProfileEdit.AddSkillTwice | src/components/profile/ProfileEdit.tsx:108-113 | adding the same skill twice in a row adds it once |
| Auth.LoginIssues | src/pages/Auth.tsx:13-16 | login passes exactly with a valid email and a password of at least 6 characters; each field has an issue exactly when its rule fails |
| Auth.SignupIssues | src/pages/Auth.tsx:18-26 | signup passes exactly with a name of 2..100 characters, a valid email, a password of at least 6 and a matching confirmation; the mismatch is reported on confirmPassword |
| Auth.NameIssues | src/pages/Auth.tsx:19 | the name issues are empty exactly for lengths 2..100 and concern only fullName |
| Auth.FourParts | src/pages/Auth.tsx:18-26 | a field has an issue in the four concatenated checks exactly when one of them reports it |
| Auth.ErrorMapLastWins | src/pages/Auth.tsx:88-93 | a field has an entry exactly when it is a non-empty first path segment of some issue, and its message is that of the last such issue |
| Auth.FieldErrors | src/pages/Auth.tsx:88-93 | the `forEach` builds exactly that error map |
| Auth.MismatchShown | src/pages/Auth.tsx:23-93 | differing passwords always show 'Senhas não conferem' on confirmPassword |
| Auth.InitialTab | src/pages/Auth.tsx:35 | the signup tab exactly when the mode parameter is 'signup' |
| Auth.LoginToast | src/pages/Auth.tsx:66-85 | destructive exactly on error; an error containing 'Invalid login credentials' shows the wrong-credentials text, any other its own message |
| Auth.SignupToast | src/pages/Auth.tsx:116-134 | destructive exactly on error; 'already registered' shows the email-in-use toast, any other error its own message |
| Auth.CredentialsClassified | src/pages/Auth.tsx:67-72 | any message containing 'Invalid login credentials' is classified as wrong credentials |
| Auth.AuthPage.constructor | src/pages/Auth.tsx:34-48 | no errors, not submitting, and the tab chosen from the mode |
| Auth.AuthPage.HandleLogin | src/pages/Auth.tsx:56-99 | the errors are cleared and then become the error map of the login issues; sign-in is called exactly when there are none, and its toast shown; submitting ends false |
| Auth.AuthPage.HandleSignup | src/pages/Auth.tsx:101-149 | the same for signup |
| Messaging.ConversationIdsOf | src/hooks/useMessages.ts:43-50 | a conversation id is listed exactly when the user participates in it |
| Messaging.FindShared | src/hooks/useMessages.ts:209-226 | a found conversation has both users as participants; nothing is found only when no conversation has both |
| Messaging.SharedIsKept | src/hooks/useMessages.ts:215-220 | a shared conversation survives the query for the other user's rows in my conversations |
| Messaging.FoundAfterCreate | src/hooks/useMessages.ts:208-245 | after a creation the next lookup finds the new conversation |
| Messaging.StillParticipates | src/hooks/useMessages.ts:238-245 | rows added for another conversation do not create a participation |
| Messaging.Touched | src/hooks/useMessages.ts:186-189 | only the conversation with that id gets updated_at = now; the others are unchanged |
| Messaging.MessageTables.constructor | src/hooks/useMessages.ts:35-247 | empty tables |
| Messaging.MessageTables.StartConversation | src/hooks/useMessages.ts:205-247 | not signed in throws before any write; a shared conversation found by the lookup is returned without writing; a failed lookup read finds nothing; otherwise one conversation and exactly two participant rows, mine and the other user's, are inserted, aborting on a failed insert |
| Messaging.MessageTables.SendMessage | src/hooks/useMessages.ts:170-192 | not signed in, a failed insert or a missing conversation writes nothing; otherwise one message from me is appended, then the conversation's updated_at is set to now |
| Messaging.StartTwice | src/hooks/useMessages.ts:208-226 | starting a conversation with the same user twice, the reads succeeding, returns the same id |
| Messaging.StartTwiceLookupFails | src/hooks/useMessages.ts:208-226 | when the second call's lookup read fails, it creates a second conversation, newer than the first, that both users take part in beside the first |
| Messaging.FindProfile | src/hooks/useMessages.ts:126-129 | the found profile belongs to that user; none exactly when no profile does |
| Messaging.Newest | src/hooks/useMessages.ts:78-94 | no message gives null; otherwise the message with the latest creation time |
| Messaging.ViewOf | src/hooks/useMessages.ts:85-95 | a conversation carries its own participant rows in table order, each with its user, its lastReadAt and that user's profile, and its newest message, or null |
| Messaging.ByRecentUpdate | src/hooks/useMessages.ts:54-58 | the selected conversations, each as often as in the table, ordered by updated_at descending |
| Messaging.SameMembers | src/hooks/useMessages.ts:54-58 | reordering keeps the same conversations |
| Messaging.ConversationList | src/hooks/useMessages.ts:35-103 | no user or no participation gives an empty list; otherwise my conversations, each as often as in the table, each with its own view |
| Messaging.NoIdsNoConversations | src/hooks/useMessages.ts:52 | with no conversation id, the conversation filter keeps nothing |
| Messaging.ListedViews | src/hooks/useMessages.ts:54-99 | the views of the listed conversations cover exactly my conversations, each once per table row |
| Messaging.Listed | src/hooks/useMessages.ts:54-58 | my conversations, each as often as in the table, newest update first |
| Messaging.ConversationListNewestFirst | src/hooks/useMessages.ts:54-58 | the listing is ordered by updated_at descending |
| Messaging.Views | src/hooks/useMessages.ts:76-97 | one view per conversation, in order |
| Messaging.ByCreation | src/hooks/useMessages.ts:111-115 | exactly the conversation's messages, ordered by created_at ascending |
| Messaging.WithSenders | src/hooks/useMessages.ts:126-129 | each message is paired with its sender's profile, keeping the order |
| Messaging.MessagesOf | src/hooks/useMessages.ts:105-134 | every message of the conversation appears, and only those, in ascending creation order, with its sender |
| MessagesPanel.FormatMessageTime | src/components/messages/MessagesPanel.tsx:45-60 | whole elapsed days 0 give the clock time, 1 'Ontem', under 7 (a future time included) the weekday, otherwise day and month |
| MessagesPanel.BucketsFollowAge | src/components/messages/MessagesPanel.tsx:45-60 | an older past message never gets a more recent bucket than a newer one |
| MessagesPanel.FirstOtherFrom | src/components/messages/MessagesPanel.tsx:42 | the index of the first participant who is not me, or none |
| MessagesPanel.OtherParticipant | src/components/messages/MessagesPanel.tsx:41-43 | the profile of the first participant who is not me, or undefined when all are me |
| MessagesPanel.OtherOfPair | src/components/messages/MessagesPanel.tsx:41-43 | in a two-person conversation the other participant is the other user, in either order |
| MessagesPanel.DisplayName | src/components/messages/MessagesPanel.tsx:106 | the other user's name, or 'Usuário' when absent or empty |
| MessagesPanel.Initial | src/components/messages/MessagesPanel.tsx:102 | the first letter of the name, or 'U' |
| MessagesPanel.ShouldSend | src/components/messages/MessagesPanel.tsx:28 | sending starts exactly when a conversation is selected and the input has a non-space character |
| MessagesPanel.PanelState.constructor | src/components/messages/MessagesPanel.tsx:14-15 | no conversation selected and an empty input |
| MessagesPanel.PanelState.Select | src/components/messages/MessagesPanel.tsx:98 | the conversation is selected |
| MessagesPanel.PanelState.Back | src/components/messages/MessagesPanel.tsx:140 | the selection is cleared |
| MessagesPanel.PanelState.Type | src/components/messages/MessagesPanel.tsx:15 | typing changes only the input |
| MessagesPanel.PanelState.HandleSendMessage | src/components/messages/MessagesPanel.tsx:27-39 | nothing happens unless sending is due; a successful send appends my message (rendered as own) with the next id, the selected conversation, the untrimmed input and the current time, bumps that conversation's updated_at when that write succeeds, and clears the input; a failure keeps the input, the messages and the conversations |
| CompanyRegistration.InsertedFields | src/components/company/CompanyRegistration.tsx:43-55 | the insert sends exactly the eleven form fields with their values |
| CompanyRegistration.FailureText | src/components/company/CompanyRegistration.tsx:91 | the error's message, or 'Erro ao cadastrar empresa' when it is empty |
| CompanyRegistration.CreateCompany | src/components/company/CompanyRegistration.tsx:37-83 | not signed in throws before any write; a failed company insert writes nothing; a failed membership insert leaves the roles untouched; either insert failure raises the database error; otherwise company and admin membership are inserted and every existing role row of the user becomes recruiter, a user without a row getting none, a failure there being ignored |
| CompanyRegistration.RegistrationForm.constructor | src/components/company/CompanyRegistration.tsx:22-34 | the eleven fields start empty |
| CompanyRegistration.RegistrationForm.HandleChange | src/components/company/CompanyRegistration.tsx:104-106 | only the named field changes |
| CompanyRegistration.RegistrationForm.HandleSubmit | src/components/company/CompanyRegistration.tsx:84-102 | a blank name is refused with its message and writes nothing; signed out, the not-authenticated toast and no write; a failed company insert writes nothing and a failed membership insert leaves only the company, both toasting `error.message` or the fallback text; success reports the new company with its admin membership and the user's role rows set to recruiter when that update succeeds |
| Companies.MembershipsOf | src/hooks/useCompany.ts:32-36 | exactly the user's membership rows |
| Companies.CompanyTables.constructor | src/hooks/useCompany.ts:24-112 | empty tables |
| Companies.CompanyTables.MyCompany | src/hooks/useCompany.ts:29-48 | null without a user, when the membership read fails, or without exactly one membership; a failed company read throws; otherwise the member's company merged with its admin flag |
| Companies.CompanyTables.AddCompanyWithAdmin | src/hooks/useCompany.ts:79-96 | the company insert and then the admin membership, aborting on either failure |
| Companies.CompanyTables.CreateCompany | src/hooks/useCompany.ts:76-107 | not signed in throws before any write; company and admin membership are inserted, aborting on failure; then a recruiter row is added beside the user's role rows, a failed write being ignored, and the company returned |
| Companies.CreateThenLookUp | src/hooks/useCompany.ts:29-107 | a user without a company who creates one then finds it as its admin, when the membership and company reads succeed |
| Tags.NewTagRow | src/hooks/useTags.ts:38-49 | fails without a user; the type defaults to local; approved exactly when local was passed explicitly; an empty description becomes null |
| Admin.RedirectsToAuth | src/pages/Admin.tsx:42-46 | a redirect to /auth only for a signed-out user once loading ends |
| Admin.DeniesAccess | src/pages/Admin.tsx:48-53 | access is denied only for a loaded, non-null role other than root or company_admin |
| Admin.QueriesEnabled | src/pages/Admin.tsx:75-109 | the lists are fetched exactly for root and company_admin |
| Admin.ShowsSpinner | src/pages/Admin.tsx:150-156 | the spinner shows exactly while either loading flag is set |
| Admin.DeniedNeverFetches | src/pages/Admin.tsx:48-75 | a denied viewer never fetches, and a fetching viewer is neither denied nor redirected |
| Admin.SettledCases | src/pages/Admin.tsx:42-75 | once loaded, signed out redirects, a non-admin role is denied, an admin role fetches, and a signed-in user without a role gets none of these |
| Admin.LabelsDistinct | src/pages/Admin.tsx:158-170 | each role has its own label and its own badge |
| Admin.ShownLabel | src/pages/Admin.tsx:261 | the first role's label, or 'Candidato' without one |
| Admin.ShownBadge | src/pages/Admin.tsx:260 | the first role's badge, or 'secondary' without one |
| Admin.SelectorValue | src/pages/Admin.tsx:267 | the first role, or candidate without one |
| Admin.DisplayAgreesWithSelector | src/pages/Admin.tsx:260-267 | label and badge always match the selector's value, and a missing role shows as candidate |
| Admin.SelectorOffersEveryRole | src/pages/Admin.tsx:273-278 | the selector offers every role once, with its label |
| Admin.ShowsRoleSelector | src/pages/Admin.tsx:265 | the selector shows exactly for a root viewer on another user's row |
| Admin.NoSelfOrCompanyAdminEdit | src/pages/Admin.tsx:265 | nobody edits their own role, and only root edits any |
| Companies.RolesOf | src/pages/Admin.tsx:260 | exactly the user's role rows |
| Companies.UpdatedRoles | src/pages/Admin.tsx:115-118 | every row of the user takes the new role; the other rows are unchanged |
| Admin.FirstRoleOf | src/pages/Admin.tsx:260 | none exactly when the user has no role row, otherwise one of its roles |
| Admin.UpdatedRolesOf | src/pages/Admin.tsx:115-118 | the update keeps the number of the user's rows, sets them all to the role, and leaves every other user's rows alone |
| Admin.RoleChangeIsShown | src/pages/Admin.tsx:113-129 | after an update the user's displayed role is the new one if the user had a row, and other users' displays are unchanged |
| Admin.UpsertedRoleShown | src/hooks/useCompany.ts:99-104 | the row company creation upserts adds one role row for the user, so the page keeps showing an existing first role and shows recruiter only for a user who had none |
| Admin.UpdateRoleTwice | src/pages/Admin.tsx:113-121 | applying the same role update twice equals applying it once |
| Admin.ChangeRole | src/pages/Admin.tsx:113-129 | success rewrites the rows and shows 'Role atualizado com sucesso'; failure keeps them and shows the error |
| Admin.DeleteCompany | src/pages/Admin.tsx:131-148 | success keeps every other company, in order, and shows 'Empresa excluída'; failure keeps all and shows the error |
| Admin.DeleteTwice | src/pages/Admin.tsx:131-140 | deleting a company twice equals deleting it once |

## Left out

- Database, realtime and HTTP I/O are not modelled as I/O: query builders, the `get_user_company` RPC, cache invalidation, toasts' rendering and navigation. The tables the client writes are in-memory classes. A failed write is a boolean parameter, and so is a failed read where the code branches on it.
- The reads of `useConversations` and `useMessages` are taken to succeed. Their failures are not modelled: the participation and conversation reads that throw (`src/hooks/useMessages.ts:48`, `60`, `117`), and the participant, profile and last-message reads whose errors are dropped (63-73, 78-83, 121-124).
- The realtime subscription in `src/hooks/useMessages.ts:137-160` is concurrency. The `Promise.all` fan-out (76-97) is modelled as a sequential map, whose result is the same.
- The ViaCEP fetch and its address fill-in (`src/components/jobs/JobForm.tsx:126-133`, `src/components/profile/ProfileEdit.tsx:92-99`) are network calls. Only the 8-digit trigger is modelled.
- The email edge function `supabase/functions/send-candidate-email/index.ts` is an HTTP handler with a third-party mail API and HTML templating. Only the request the client builds is modelled.
- `src/hooks/useJobs.ts`, `src/hooks/useApplications.ts` and `src/hooks/useProfile.ts` are thin query wrappers, and so is the profile update mutation behind `ProfileEdit`'s submit. The model stops at the update payload and leaves out its toasts.
- `src/pages/Landing.tsx` and `src/pages/Dashboard.tsx` are static or routing UI.
- Server-side search and scoping strings run inside the database and are not modelled: `src/pages/Admin.tsx:67-71`, `src/components/jobs/JobsManagement.tsx:61-79`, the `limit(100)` of the admin lists, and `order` clauses other than the conversation and message orderings.
- The order of rows returned by a query without `order` is unknown: the model uses table order.
- Duplicate-application prevention is a database uniqueness constraint, seen only through the error text, which is modelled in `ApplyErrorText`. Row-level security is also left out.
- Enum constraints are types here.
- The latitude, longitude and location_name fields of the job schema are left out. They are optional and checked by no rule.
- The remaining optional text fields of the job form are carried unvalidated.
- The salary inputs of the job form (`src/components/jobs/JobForm.tsx:27-28`, registered with `valueAsNumber`) are integers or null here. A cleared number input gives `NaN`, which zod rejects with no message rendered for the salary, so the submit silently does nothing. Fractional salaries, which zod accepts, are not modelled either.
- `JobsManagement`'s `deleteJob` mutation and `CandidatesList`'s `updateStatus` mutation are single writes with a toast and no client-side decision. They are not modelled.
- Locale and number formatting is left out: `toLocaleTimeString`, `toLocaleDateString`, `Intl.NumberFormat` and `toFixed`. Only the branch or bucket chosen is modelled (`FormatMessageTime`, `FormatSalary`, `ResponseTimeDisplay`, `LineData`).
- Time zones and daylight saving: a day is the UTC day `ms / 86400000`, the date part of `toISOString`. `setDate(getDate() - i)` in a zone with a daylight-saving shift is not modelled.
- `Analytics.ConversionRate`, `Analytics.MeanResponseHours` and the other means use exact `real` arithmetic, not IEEE doubles, so rounding is not modelled.
- `Text.ToLower` folds ASCII letters only; JavaScript's Unicode case mapping is not modelled.
- Strings are sequences of Unicode characters, but JavaScript's `length`, `substring` and `charAt`, and zod's `.min` and `.max`, count UTF-16 code units. Text outside the Basic Multilingual Plane (emoji, for instance) is therefore measured differently. `AnalyticsDashboard.BarLabel` keeps a title of 15 emoji that the source truncates. `MessagesPanel.Initial` returns a whole character where `charAt(0)` returns half a surrogate pair. The length rules of the schemas reject a one-emoji name that zod's `.min(2)` accepts.
- zod's email regular expression (`src/pages/Auth.tsx:14`, `src/components/profile/ProfileEdit.tsx:19`) is the uninterpreted parameter `isEmail`.
- Ids are natural numbers: a new conversation, message or company gets the table's length, in place of a generated uuid.
- `user_roles` is a sequence of rows. The upsert in `src/hooks/useCompany.ts:99-104` names no conflict column and sends no primary key, so it is modelled as an insert of a new row. A database constraint on `user_id`, which the client code does not show, would make it fail; that is the ignored failed write. `CompanyRegistration.CreateCompany` instead updates the user's existing rows, so a user without a role row gets none.
- `CandidatesList.CandidateSelection.SendMessages`: a database failure inside the loop, after some messages were sent, is not modelled. The inserts succeed and only the unauthenticated failure is stated; the partial-send state is not.
- `CandidatesList.CandidateSelection.SendEmails`: when the applications are not loaded, the request carries no recipient list and the call is modelled as failing.
- The disabled states of buttons (`isPending`, `sendingMessages` while a send runs) and the spinners are not modelled, except the Admin spinner and the dashboard's loading view.
- `Admin.tsx`'s counts (`users?.length || 0`) and its search box are display-only.
- Google sign-in (`src/pages/Auth.tsx:151-161`) and the redirect of a signed-in user to the dashboard (50-54) are calls into the auth provider and the router.
