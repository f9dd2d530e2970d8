/**
 * The profile editor: the profile schema, the form loaded from a stored profile, the skills
 * list with its trim-then-add and remove handlers, and the update sent on submit.
 */
module ProfileEdit {
  import opened Wrappers
  import opened Text
  import opened Lists
  import opened Schema
  import opened Validation

  const NameTooShort: string := "Nome deve ter pelo menos 3 caracteres"
  const InvalidEmail: string := "Email inválido"

  /** The form's text fields; every one holds a string once the form is loaded. */
  datatype ProfileForm = ProfileForm(
    fullName: string,
    email: string,
    phone: string,
    bio: string,
    street: string,
    number: string,
    neighborhood: string,
    city: string,
    state: string,
    zipCode: string,
    experience: string,
    education: string)

  /** What submit sends: the form's values together with the skills list. */
  datatype ProfileUpdate = ProfileUpdate(form: ProfileForm, skills: seq<string>)

  /** The form's default values before a profile is loaded. */
  const EmptyForm: ProfileForm := ProfileForm("", "", "", "", "", "", "", "", "", "", "", "")

  /**
   * `profileSchema`: the full name needs three characters and the email must be an address
   * (`isEmail` stands for zod's email check); every other field is optional.
   */
  function ProfileIssues(f: ProfileForm, isEmail: string -> bool): (r: seq<Issue>)
    ensures r == [] <==> |f.fullName| >= 3 && isEmail(f.email)
    ensures HasIssueFor(r, "full_name") <==> |f.fullName| < 3
    ensures HasIssueFor(r, "email") <==> !isEmail(f.email)
    ensures forall i :: i in r ==> i.path == ["full_name"] || i.path == ["email"]
  {
    var a := MinLength("full_name", f.fullName, 3, NameTooShort);
    var b := Check("email", isEmail(f.email), InvalidEmail);
    HasIssueForSingle(a, "full_name", NameTooShort, "email");
    HasIssueForSingle(b, "email", InvalidEmail, "full_name");
    HasIssueForAppend(a, b, "full_name");
    HasIssueForAppend(a, b, "email");
    a + b
  }

  /**
   * The reset mapping: name and email are copied, and each of the ten nullable text columns
   * becomes its stored text, or '' when it is null.
   */
  function FormOf(p: Profile): (f: ProfileForm)
    ensures f.fullName == p.fullName && f.email == p.email
    ensures FilledFrom(f.phone, p.phone) && FilledFrom(f.bio, p.bio)
    ensures FilledFrom(f.street, p.street) && FilledFrom(f.number, p.number)
    ensures FilledFrom(f.neighborhood, p.neighborhood) && FilledFrom(f.city, p.city)
    ensures FilledFrom(f.state, p.state) && FilledFrom(f.zipCode, p.zipCode)
    ensures FilledFrom(f.experience, p.experience) && FilledFrom(f.education, p.education)
  {
    ProfileForm(p.fullName, p.email, OrEmpty(p.phone), OrEmpty(p.bio), OrEmpty(p.street), OrEmpty(p.number),
                OrEmpty(p.neighborhood), OrEmpty(p.city), OrEmpty(p.state), OrEmpty(p.zipCode),
                OrEmpty(p.experience), OrEmpty(p.education))
  }

  /** `profile.skills || []`. */
  function SkillsOf(p: Profile): (r: seq<string>)
    ensures p.skills.Some? ==> r == p.skills.value
    ensures p.skills.None? ==> r == []
  {
    p.skills.GetOr([])
  }

  /** The update writes back every stored text value, with null text as '' and null skills as []. */
  predicate WritesBack(p: Profile, u: ProfileUpdate) {
    && u.form.fullName == p.fullName && u.form.email == p.email
    && FilledFrom(u.form.phone, p.phone) && FilledFrom(u.form.bio, p.bio)
    && FilledFrom(u.form.street, p.street) && FilledFrom(u.form.number, p.number)
    && FilledFrom(u.form.neighborhood, p.neighborhood) && FilledFrom(u.form.city, p.city)
    && FilledFrom(u.form.state, p.state) && FilledFrom(u.form.zipCode, p.zipCode)
    && FilledFrom(u.form.experience, p.experience) && FilledFrom(u.form.education, p.education)
    && (p.skills.Some? ==> u.skills == p.skills.value) && (p.skills.None? ==> u.skills == [])
  }

  /**
   * Loading a profile into a fresh editor and submitting it unchanged: the submit goes
   * through exactly when the stored name and email pass the schema, and then writes back
   * every stored value.
   */
  method LoadThenSubmitUnchanged(p: Profile, isEmail: string -> bool) returns (update: Option<ProfileUpdate>)
    ensures update.Some? <==> |p.fullName| >= 3 && isEmail(p.email)
    ensures update.Some? ==> WritesBack(p, update.value)
  {
    var e := new ProfileEditor();
    e.Load(p);
    var issues;
    issues, update := e.Submit(isEmail);
  }

  /** The editor's state: the form values, the skills list and the new-skill input box. */
  class ProfileEditor {
    var form: ProfileForm
    var skills: seq<string>
    var newSkill: string

    constructor ()
      ensures form == EmptyForm && skills == [] && newSkill == ""
    {
      form := EmptyForm;
      skills := [];
      newSkill := "";
    }

    /** The effect run when the profile arrives: the form is reset from it and the skills taken over. */
    method Load(p: Profile)
      modifies this
      ensures form == FormOf(p) && skills == SkillsOf(p) && newSkill == old(newSkill)
    {
      form := FormOf(p);
      skills := SkillsOf(p);
    }

    /** An edit of one form field, through the form library. */
    method Edit(f: ProfileForm)
      modifies this
      ensures form == f && skills == old(skills) && newSkill == old(newSkill)
    {
      form := f;
    }

    method TypeSkill(text: string)
      modifies this
      ensures newSkill == text && form == old(form) && skills == old(skills)
    {
      newSkill := text;
    }

    /**
     * `handleAddSkill`: the trimmed input is appended when it is not blank and not yet in the
     * list, and only then is the input box cleared; otherwise nothing changes.
     */
    method AddSkill()
      modifies this
      ensures var t := Trim(old(newSkill));
              if t != "" && t !in old(skills) then skills == old(skills) + [t] && newSkill == ""
              else skills == old(skills) && newSkill == old(newSkill)
      ensures form == old(form)
      ensures NoDup(old(skills)) ==> NoDup(skills)
      ensures forall s :: s in old(skills) ==> s in skills
    {
      var t := Trim(newSkill);
      if t != "" && t !in skills {
        skills := skills + [t];
        newSkill := "";
      }
    }

    /** `handleRemoveSkill`: drops the skill, keeping the others in order. */
    method RemoveSkill(skill: string)
      modifies this
      ensures skills == Removed(old(skills), skill)
      ensures skill !in skills && IsSubsequence(skills, old(skills))
      ensures forall s :: s in old(skills) && s != skill ==> s in skills
      ensures form == old(form) && newSkill == old(newSkill)
    {
      skills := Removed(skills, skill);
    }

    /**
     * `onSubmit`: the form library calls it only when the schema passes; the update carries
     * the form's values and the current skills list.
     */
    method Submit(isEmail: string -> bool) returns (issues: seq<Issue>, update: Option<ProfileUpdate>)
      ensures issues == ProfileIssues(form, isEmail)
      ensures update.Some? <==> |form.fullName| >= 3 && isEmail(form.email)
      ensures update.Some? ==> update.value.form == form && update.value.skills == skills
    {
      issues := ProfileIssues(form, isEmail);
      update := if issues == [] then Some(ProfileUpdate(form, skills)) else None;
    }
  }

  /** Adding a skill twice in a row adds it once: the second call finds it present. */
  method AddSkillTwice(e: ProfileEditor, text: string)
    modifies e
    ensures Trim(text) != "" && Trim(text) !in old(e.skills) ==> e.skills == old(e.skills) + [Trim(text)]
    ensures Trim(text) == "" || Trim(text) in old(e.skills) ==> e.skills == old(e.skills)
  {
    e.TypeSkill(text);
    e.AddSkill();
    e.TypeSkill(text);
    e.AddSkill();
  }
}
