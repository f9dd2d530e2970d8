/**
 * The sign-in page: the login and signup schemas, the map from field to error message built
 * from a failed validation, the tab chosen from the query string, and the texts shown when
 * the authentication service refuses a request.
 */
module Auth {
  import opened Wrappers
  import opened Text
  import opened Validation

  const InvalidEmail: string := "Email inválido"
  const PasswordTooShort: string := "Senha deve ter pelo menos 6 caracteres"
  const NameTooShort: string := "Nome deve ter pelo menos 2 caracteres"
  const NameTooLong: string := "Nome muito longo"
  const PasswordsDiffer: string := "Senhas não conferem"

  /**
   * `loginSchema`: an email address (`isEmail` stands for zod's email check) and a password
   * of at least six characters.
   */
  function LoginIssues(email: string, password: string, isEmail: string -> bool): (r: seq<Issue>)
    ensures r == [] <==> isEmail(email) && |password| >= 6
    ensures HasIssueFor(r, "email") <==> !isEmail(email)
    ensures HasIssueFor(r, "password") <==> |password| < 6
  {
    var a := Check("email", isEmail(email), InvalidEmail);
    var b := MinLength("password", password, 6, PasswordTooShort);
    HasIssueForSingle(a, "email", InvalidEmail, "password");
    HasIssueForSingle(b, "password", PasswordTooShort, "email");
    HasIssueForAppend(a, b, "email");
    HasIssueForAppend(a, b, "password");
    a + b
  }

  /**
   * `signupSchema`: a name of 2 to 100 characters, an email address, a password of at least
   * six characters, and a confirmation equal to the password. The equality check belongs to
   * the whole object; it still runs when a field check has failed, because those failures do
   * not abort the object, and its issue is filed under `confirmPassword`.
   */
  function SignupIssues(fullName: string, email: string, password: string, confirmPassword: string,
                        isEmail: string -> bool): (r: seq<Issue>)
    ensures r == [] <==> 2 <= |fullName| <= 100 && isEmail(email) && |password| >= 6 && password == confirmPassword
    ensures HasIssueFor(r, "fullName") <==> |fullName| < 2 || |fullName| > 100
    ensures HasIssueFor(r, "email") <==> !isEmail(email)
    ensures HasIssueFor(r, "password") <==> |password| < 6
    ensures HasIssueFor(r, "confirmPassword") <==> password != confirmPassword
  {
    var name := MinLength("fullName", fullName, 2, NameTooShort) + MaxLength("fullName", fullName, 100, NameTooLong);
    var mail := Check("email", isEmail(email), InvalidEmail);
    var pass := MinLength("password", password, 6, PasswordTooShort);
    var same := Check("confirmPassword", password == confirmPassword, PasswordsDiffer);
    NameIssues(fullName);
    HasIssueForSingle(mail, "email", InvalidEmail, "fullName");
    HasIssueForSingle(mail, "email", InvalidEmail, "password");
    HasIssueForSingle(mail, "email", InvalidEmail, "confirmPassword");
    HasIssueForSingle(pass, "password", PasswordTooShort, "fullName");
    HasIssueForSingle(pass, "password", PasswordTooShort, "email");
    HasIssueForSingle(pass, "password", PasswordTooShort, "confirmPassword");
    HasIssueForSingle(same, "confirmPassword", PasswordsDiffer, "fullName");
    HasIssueForSingle(same, "confirmPassword", PasswordsDiffer, "email");
    HasIssueForSingle(same, "confirmPassword", PasswordsDiffer, "password");
    FourParts(name, mail, pass, same, "fullName");
    FourParts(name, mail, pass, same, "email");
    FourParts(name, mail, pass, same, "password");
    FourParts(name, mail, pass, same, "confirmPassword");
    name + mail + pass + same
  }

  /** The two length checks on the name only ever report on `fullName`. */
  lemma NameIssues(fullName: string)
    ensures var name := MinLength("fullName", fullName, 2, NameTooShort) + MaxLength("fullName", fullName, 100, NameTooLong);
            && (name == [] <==> 2 <= |fullName| <= 100)
            && (HasIssueFor(name, "fullName") <==> |fullName| < 2 || |fullName| > 100)
            && !HasIssueFor(name, "email") && !HasIssueFor(name, "password") && !HasIssueFor(name, "confirmPassword")
  {
    var a := MinLength("fullName", fullName, 2, NameTooShort);
    var b := MaxLength("fullName", fullName, 100, NameTooLong);
    HasIssueForSingle(a, "fullName", NameTooShort, "email");
    HasIssueForSingle(a, "fullName", NameTooShort, "password");
    HasIssueForSingle(a, "fullName", NameTooShort, "confirmPassword");
    HasIssueForSingle(b, "fullName", NameTooLong, "email");
    HasIssueForSingle(b, "fullName", NameTooLong, "password");
    HasIssueForSingle(b, "fullName", NameTooLong, "confirmPassword");
    HasIssueForAppend(a, b, "fullName");
    HasIssueForAppend(a, b, "email");
    HasIssueForAppend(a, b, "password");
    HasIssueForAppend(a, b, "confirmPassword");
  }

  /** A field has an issue in four concatenated lists exactly when it has one in some part. */
  lemma FourParts(a: seq<Issue>, b: seq<Issue>, c: seq<Issue>, d: seq<Issue>, field: string)
    ensures HasIssueFor(a + b + c + d, field) <==>
              HasIssueFor(a, field) || HasIssueFor(b, field) || HasIssueFor(c, field) || HasIssueFor(d, field)
  {
    HasIssueForAppend(a, b, field);
    HasIssueForAppend(a + b, c, field);
    HasIssueForAppend(a + b + c, d, field);
  }

  /** The issue is filed under `field`: its path starts with that non-empty name. */
  predicate NamesField(i: Issue, field: string) {
    |i.path| > 0 && i.path[0] == field
  }

  /**
   * The error map: for each issue whose path starts with a non-empty name, that name is bound
   * to the issue's message, later issues overwriting earlier ones.
   */
  function ErrorMap(issues: seq<Issue>): map<string, string> {
    if issues == [] then map[]
    else
      var last := issues[|issues| - 1];
      var m := ErrorMap(issues[..|issues| - 1]);
      if |last.path| > 0 && last.path[0] != "" then m[last.path[0] := last.message] else m
  }

  /**
   * The map has one entry per non-empty field name some issue is filed under, and the entry
   * holds the message of the last such issue.
   */
  lemma {:induction false} ErrorMapLastWins(issues: seq<Issue>)
    ensures forall f :: f in ErrorMap(issues) <==> f != "" && exists i :: 0 <= i < |issues| && NamesField(issues[i], f)
    ensures forall f :: f in ErrorMap(issues) ==>
              exists i :: 0 <= i < |issues| && NamesField(issues[i], f) && ErrorMap(issues)[f] == issues[i].message
                          && forall j :: i < j < |issues| ==> !NamesField(issues[j], f)
  {
    if issues != [] {
      var n := |issues| - 1;
      var init := issues[..n];
      var last := issues[n];
      ErrorMapLastWins(init);
      var m := ErrorMap(init);
      var r := ErrorMap(issues);
      assert r == if |last.path| > 0 && last.path[0] != "" then m[last.path[0] := last.message] else m;
      assert forall i :: 0 <= i < n ==> init[i] == issues[i];
      forall f | f != "" && exists i :: 0 <= i < |issues| && NamesField(issues[i], f)
        ensures f in r
      {
        var i :| 0 <= i < |issues| && NamesField(issues[i], f);
        if i < n {
          assert NamesField(init[i], f);
        }
      }
      forall f | f in r
        ensures f != "" && exists i :: (0 <= i < |issues| && NamesField(issues[i], f)
                                        && r[f] == issues[i].message
                                        && forall j :: i < j < |issues| ==> !NamesField(issues[j], f))
      {
        if NamesField(last, f) && f != "" {
          assert NamesField(issues[n], f) && r[f] == issues[n].message;
        } else {
          assert f in m && r[f] == m[f];
          var i :| 0 <= i < n && NamesField(init[i], f) && m[f] == init[i].message
                   && forall j :: i < j < n ==> !NamesField(init[j], f);
          assert NamesField(issues[i], f) && r[f] == issues[i].message;
          assert forall j :: i < j < |issues| ==> !NamesField(issues[j], f);
        }
      }
    }
  }

  /** The loop of the catch block that fills the error map, issue by issue. */
  method FieldErrors(issues: seq<Issue>) returns (fieldErrors: map<string, string>)
    ensures fieldErrors == ErrorMap(issues)
  {
    fieldErrors := map[];
    for i := 0 to |issues|
      invariant fieldErrors == ErrorMap(issues[..i])
    {
      assert issues[..i + 1][..i] == issues[..i];
      assert issues[..i + 1][i] == issues[i];
      var issue := issues[i];
      if |issue.path| > 0 && issue.path[0] != "" {
        fieldErrors := fieldErrors[issue.path[0] := issue.message];
      }
    }
    assert issues[..|issues|] == issues;
  }

  /** A mismatched confirmation shows its message under `confirmPassword`, whatever else fails. */
  lemma MismatchShown(fullName: string, email: string, password: string, confirmPassword: string, isEmail: string -> bool)
    requires password != confirmPassword
    ensures var m := ErrorMap(SignupIssues(fullName, email, password, confirmPassword, isEmail));
            "confirmPassword" in m && m["confirmPassword"] == PasswordsDiffer
  {
    var r := SignupIssues(fullName, email, password, confirmPassword, isEmail);
    var front := MinLength("fullName", fullName, 2, NameTooShort) + MaxLength("fullName", fullName, 100, NameTooLong)
                 + Check("email", isEmail(email), InvalidEmail) + MinLength("password", password, 6, PasswordTooShort);
    assert r == front + [Issue(["confirmPassword"], PasswordsDiffer)];
    assert r[..|r| - 1] == front;
    assert r[|r| - 1] == Issue(["confirmPassword"], PasswordsDiffer);
  }

  datatype Tab = Login | Signup

  /** The first tab: signup exactly when the `mode` query parameter is 'signup'. */
  function InitialTab(mode: Option<string>): (t: Tab)
    ensures t == Signup <==> mode == Some("signup")
  {
    if mode == Some("signup") then Signup else Login
  }

  datatype Toast = Toast(title: string, description: string, destructive: bool)

  /** The toast after a sign-in attempt: the service's error classified, or the welcome. */
  function LoginToast(error: Option<string>): (t: Toast)
    ensures t.destructive <==> error.Some?
    ensures error.Some? && Contains(error.value, "Invalid login credentials") ==> t.description == "Email ou senha incorretos"
    ensures error.Some? && !Contains(error.value, "Invalid login credentials") ==> t.description == error.value
  {
    match error
    case None => Toast("Bem-vindo de volta!", "Login realizado com sucesso", false)
    case Some(message) =>
      if Contains(message, "Invalid login credentials") then Toast("Erro ao entrar", "Email ou senha incorretos", true)
      else Toast("Erro ao entrar", message, true)
  }

  /** The toast after a sign-up attempt: an address already in use, another error, or success. */
  function SignupToast(error: Option<string>): (t: Toast)
    ensures t.destructive <==> error.Some?
    ensures error.Some? && Contains(error.value, "already registered") ==>
              t == Toast("Email já cadastrado", "Este email já está em uso. Tente fazer login.", true)
    ensures error.Some? && !Contains(error.value, "already registered") ==>
              t == Toast("Erro ao criar conta", error.value, true)
  {
    match error
    case None => Toast("Conta criada!", "Sua conta foi criada com sucesso", false)
    case Some(message) =>
      if Contains(message, "already registered") then
        Toast("Email já cadastrado", "Este email já está em uso. Tente fazer login.", true)
      else Toast("Erro ao criar conta", message, true)
  }

  /** An error text that names the bad credentials is always classified as such. */
  lemma CredentialsClassified(before: string, after: string)
    ensures LoginToast(Some(before + "Invalid login credentials" + after)).description == "Email ou senha incorretos"
  {
    var needle := "Invalid login credentials";
    var hay := before + needle + after;
    assert OccursAt(hay, needle, |before|) by {
      assert hay[|before|..|before| + |needle|] == needle;
    }
    ContainsIff(hay, needle);
  }

  /** The page's state: the field errors, the busy flag and the open tab. */
  class AuthPage {
    var errors: map<string, string>
    var isSubmitting: bool
    var activeTab: Tab

    constructor (mode: Option<string>)
      ensures errors == map[] && !isSubmitting && activeTab == InitialTab(mode)
    {
      errors := map[];
      isSubmitting := false;
      activeTab := InitialTab(mode);
    }

    /**
     * `handleLogin`: the errors are cleared; a form the schema refuses fills the error map and
     * calls nothing; otherwise the service is asked (`signInError` is its answer) and its
     * answer shown. The busy flag is off at the end either way.
     */
    method HandleLogin(email: string, password: string, isEmail: string -> bool, signInError: Option<string>)
      returns (called: bool, toast: Option<Toast>)
      modifies this
      ensures errors == ErrorMap(LoginIssues(email, password, isEmail))
      ensures called <==> LoginIssues(email, password, isEmail) == []
      ensures called ==> errors == map[] && toast == Some(LoginToast(signInError))
      ensures !called ==> toast.None?
      ensures !isSubmitting && activeTab == old(activeTab)
    {
      errors := map[];
      var issues := LoginIssues(email, password, isEmail);
      if issues != [] {
        errors := FieldErrors(issues);
        called, toast := false, None;
      } else {
        isSubmitting := true;
        called, toast := true, Some(LoginToast(signInError));
      }
      isSubmitting := false;
    }

    /** `handleSignup`: as `handleLogin`, with the signup schema and the sign-up texts. */
    method HandleSignup(fullName: string, email: string, password: string, confirmPassword: string,
                        isEmail: string -> bool, signUpError: Option<string>)
      returns (called: bool, toast: Option<Toast>)
      modifies this
      ensures errors == ErrorMap(SignupIssues(fullName, email, password, confirmPassword, isEmail))
      ensures called <==> SignupIssues(fullName, email, password, confirmPassword, isEmail) == []
      ensures called ==> errors == map[] && toast == Some(SignupToast(signUpError))
      ensures !called ==> toast.None?
      ensures !isSubmitting && activeTab == old(activeTab)
    {
      errors := map[];
      var issues := SignupIssues(fullName, email, password, confirmPassword, isEmail);
      if issues != [] {
        errors := FieldErrors(issues);
        called, toast := false, None;
      } else {
        isSubmitting := true;
        called, toast := true, Some(SignupToast(signUpError));
      }
      isSubmitting := false;
    }
  }
}
