/**
 * The company registration form: eleven text fields edited one at a time, a submit guard on
 * the company name, and the create sequence that inserts the company, adds the user as its
 * admin and then tries to make the user a recruiter.
 */
module CompanyRegistration {
  import opened Wrappers
  import opened Text
  import opened Schema
  import opened Companies

  /** The keys of the form, all starting out empty. */
  const FormFields: set<string> := {"name", "description", "industry", "size", "website", "city", "state",
                                    "street", "number", "neighborhood", "zip_code"}

  const NameRequired: string := "Nome da empresa é obrigatório"
  const Registered: string := "Empresa cadastrada com sucesso!"
  const RegistrationFailed: string := "Erro ao cadastrar empresa"
  const NotSignedIn: string := "Usuário não autenticado"

  datatype Toast = Success(text: string) | Failure(text: string)

  /** The column values the insert sends: exactly the eleven form fields. */
  function InsertedFields(formData: map<string, string>): (r: map<string, string>)
    requires FormFields <= formData.Keys
    ensures r.Keys == FormFields
    ensures forall k :: k in FormFields ==> r[k] == formData[k]
  {
    map k | k in FormFields :: formData[k]
  }

  /** `error.message || 'Erro ao cadastrar empresa'`. */
  function FailureText(message: string): (r: string)
    ensures message != "" ==> r == message
    ensures message == "" ==> r == RegistrationFailed
  {
    if message == "" then RegistrationFailed else message
  }

  /**
   * The mutation of the form: not signed in, it fails before any write; otherwise the company
   * and the admin membership are inserted, aborting on either failure with the database's
   * error `dbError`; then the user's existing role rows are set to recruiter; a failure there
   * is only logged and the company is still returned. A user with no role row gets none.
   */
  method CreateCompany(tables: CompanyTables, me: Option<string>, data: map<string, string>,
                       companyInsertOk: bool, memberInsertOk: bool, roleUpdateOk: bool, dbError: string)
    returns (r: Result<CompanyRow>)
    requires tables.Valid()
    modifies tables
    ensures tables.Valid()
    ensures me.None? ==> r == Err(NotSignedIn)
    ensures me.None? || !companyInsertOk ==>
              r.Err? && tables.companies == old(tables.companies) && tables.members == old(tables.members)
              && tables.roles == old(tables.roles)
    ensures me.Some? && !(companyInsertOk && memberInsertOk) ==> r == Err(dbError)
    ensures me.Some? && companyInsertOk ==>
              tables.companies == old(tables.companies) + [CompanyRow(|old(tables.companies)|, data)]
    ensures me.Some? && companyInsertOk && !memberInsertOk ==>
              r.Err? && tables.members == old(tables.members) && tables.roles == old(tables.roles)
    ensures me.Some? && companyInsertOk && memberInsertOk ==>
              r == Ok(CompanyRow(|old(tables.companies)|, data))
              && tables.members == old(tables.members) + [MemberRow(|old(tables.companies)|, me.value, true)]
              && tables.roles == (if roleUpdateOk then UpdatedRoles(old(tables.roles), me.value, Recruiter)
                                  else old(tables.roles))
  {
    if me.None? {
      return Err(NotSignedIn);
    }
    r := tables.AddCompanyWithAdmin(me.value, data, companyInsertOk, memberInsertOk);
    if r.Err? {
      return Err(dbError);
    }
    if roleUpdateOk {
      tables.roles := UpdatedRoles(tables.roles, me.value, Recruiter);
    }
  }

  /** The form's state: one text value per field. */
  class RegistrationForm {
    var formData: map<string, string>

    ghost predicate Valid()
      reads this
    {
      FormFields <= formData.Keys
    }

    constructor ()
      ensures Valid()
      ensures formData.Keys == FormFields && forall k :: k in formData ==> formData[k] == ""
    {
      formData := map k | k in FormFields :: "";
    }

    /** `handleChange(field, value)`: the named field takes the value and no other field changes. */
    method HandleChange(field: string, value: string)
      requires Valid()
      modifies this
      ensures Valid()
      ensures formData.Keys == old(formData).Keys + {field}
      ensures formData[field] == value
      ensures forall k :: k in old(formData) && k != field ==> formData[k] == old(formData)[k]
    {
      formData := formData[field := value];
    }

    /**
     * `handleSubmit`: a name that is blank after trimming is refused with a message and starts
     * nothing; otherwise the eleven fields are sent to the create sequence and its outcome is
     * reported, a failure as `error.message || 'Erro ao cadastrar empresa'`. The form keeps its
     * values either way.
     */
    method HandleSubmit(tables: CompanyTables, me: Option<string>,
                        companyInsertOk: bool, memberInsertOk: bool, roleUpdateOk: bool, dbError: string)
      returns (toast: Toast, created: Option<CompanyRow>)
      requires Valid() && tables.Valid()
      modifies tables
      ensures Valid() && tables.Valid()
      ensures IsBlank(formData["name"]) ==>
                toast == Failure(NameRequired) && created.None?
                && tables.companies == old(tables.companies) && tables.members == old(tables.members)
                && tables.roles == old(tables.roles)
      ensures !IsBlank(formData["name"]) && me.None? ==>
                toast == Failure(NotSignedIn) && created.None?
                && tables.companies == old(tables.companies) && tables.members == old(tables.members)
                && tables.roles == old(tables.roles)
      ensures !IsBlank(formData["name"]) && me.Some? && !companyInsertOk ==>
                toast == Failure(FailureText(dbError)) && created.None?
                && tables.companies == old(tables.companies) && tables.members == old(tables.members)
                && tables.roles == old(tables.roles)
      ensures !IsBlank(formData["name"]) && me.Some? && companyInsertOk && !memberInsertOk ==>
                toast == Failure(FailureText(dbError)) && created.None?
                && tables.companies
                   == old(tables.companies) + [CompanyRow(|old(tables.companies)|, InsertedFields(formData))]
                && tables.members == old(tables.members) && tables.roles == old(tables.roles)
      ensures !IsBlank(formData["name"]) && me.Some? && companyInsertOk && memberInsertOk ==>
                toast == Success(Registered)
                && created == Some(CompanyRow(|old(tables.companies)|, InsertedFields(formData)))
                && tables.companies == old(tables.companies) + [created.value]
                && tables.members == old(tables.members) + [MemberRow(created.value.id, me.value, true)]
                && tables.roles == (if roleUpdateOk then UpdatedRoles(old(tables.roles), me.value, Recruiter)
                                    else old(tables.roles))
      ensures created.None? <==> toast.Failure?
    {
      if IsBlank(formData["name"]) {
        return Failure(NameRequired), None;
      }
      var r := CreateCompany(tables, me, InsertedFields(formData), companyInsertOk, memberInsertOk,
                             roleUpdateOk, dbError);
      if r.Ok? {
        toast, created := Success(Registered), Some(r.value);
      } else {
        toast, created := Failure(FailureText(r.message)), None;
      }
    }
  }
}
