/**
 * The administration page: who is sent away, who is refused, when the user, company and job
 * lists are fetched, how each user's role is displayed, who may change it, and the two
 * mutations the page offers (changing a user's role, deleting a company).
 */
module Admin {
  import opened Wrappers
  import opened Lists
  import opened Schema
  import opened Companies

  const AccessDenied: string := "Acesso negado"
  const RoleUpdated: string := "Role atualizado com sucesso"
  const RoleUpdateFailed: string := "Erro ao atualizar role"
  const CompanyDeleted: string := "Empresa excluída"
  const CompanyDeleteFailed: string := "Erro ao excluir empresa"

  /**
   * What the page knows while deciding access: whether the session is still loading, whether
   * someone is signed in, whether the viewer's role is still loading, and the role read from
   * `user_roles` (none when there is no row, and none while nobody is signed in, since the
   * role query is then disabled).
   */
  datatype Access = Access(loading: bool, signedIn: bool, roleLoading: bool, role: Option<AppRole>)

  /** The roles the page is meant for. */
  predicate IsAdminRole(r: AppRole) {
    r == Root || r == CompanyAdmin
  }

  /** The first effect: once the session has loaded without a user, go to /auth. */
  function RedirectsToAuth(a: Access): (r: bool)
    ensures r ==> !a.signedIn
    ensures a.signedIn || a.loading ==> !r
  {
    !a.loading && !a.signedIn
  }

  /**
   * The second effect: once the role has loaded, a role that is present but neither root nor
   * company admin is refused with a toast and sent to /dashboard. A missing role is not refused.
   */
  function DeniesAccess(a: Access): (r: bool)
    ensures r ==> a.role.Some? && !IsAdminRole(a.role.value)
    ensures a.role.None? || a.roleLoading ==> !r
  {
    !a.roleLoading && a.role.Some? && a.role.value != Root && a.role.value != CompanyAdmin
  }

  /** The `enabled` flag of the three list queries. */
  function QueriesEnabled(role: Option<AppRole>): (r: bool)
    ensures r ==> role.Some? && IsAdminRole(role.value)
    ensures role == Some(Root) || role == Some(CompanyAdmin) ==> r
  {
    role == Some(Root) || role == Some(CompanyAdmin)
  }

  /**
   * The spinner replaces the page while either the session or the role is loading, and only
   * then.
   */
  function ShowsSpinner(a: Access): (r: bool)
    ensures !r ==> !a.loading && !a.roleLoading
    ensures r ==> a.loading || a.roleLoading
  {
    a.loading || a.roleLoading
  }

  /** The page never both refuses a viewer and fetches the lists for them. */
  lemma DeniedNeverFetches(a: Access)
    requires !a.signedIn ==> a.role.None?
    ensures DeniesAccess(a) ==> !QueriesEnabled(a.role)
    ensures QueriesEnabled(a.role) ==> !DeniesAccess(a) && !RedirectsToAuth(a)
  {
  }

  /**
   * Once both loads have settled, a viewer lands in exactly one case: sent to /auth (nobody
   * signed in), refused (a role other than the admin roles), shown the lists (an admin role),
   * or shown the page with no lists fetched and no refusal (signed in without a role row).
   */
  lemma SettledCases(a: Access)
    requires !a.loading && !a.roleLoading
    requires !a.signedIn ==> a.role.None?
    ensures !a.signedIn <==> RedirectsToAuth(a)
    ensures a.signedIn && a.role.Some? && !IsAdminRole(a.role.value) <==> DeniesAccess(a)
    ensures a.signedIn && a.role.Some? && IsAdminRole(a.role.value) <==> QueriesEnabled(a.role)
    ensures a.signedIn && a.role.None? <==>
              !RedirectsToAuth(a) && !DeniesAccess(a) && !QueriesEnabled(a.role) && !ShowsSpinner(a)
  {
  }

  /** `roleLabels`. */
  function RoleLabel(r: AppRole): string {
    match r
    case Candidate => "Candidato"
    case Recruiter => "Recrutador"
    case CompanyAdmin => "Admin Empresa"
    case Root => "Root"
  }

  datatype Badge = Default | Secondary | Destructive | Outline

  /** `roleBadgeVariants`. */
  function RoleBadge(r: AppRole): Badge {
    match r
    case Candidate => Secondary
    case Recruiter => Default
    case CompanyAdmin => Outline
    case Root => Destructive
  }

  /** The labels tell the roles apart. */
  lemma LabelsDistinct(a: AppRole, b: AppRole)
    ensures RoleLabel(a) == RoleLabel(b) <==> a == b
    ensures RoleBadge(a) == RoleBadge(b) <==> a == b
  {
  }

  /** The role cell's text: the label of the first role, or 'Candidato' when there is none. */
  function ShownLabel(first: Option<AppRole>): (r: string)
    ensures first.Some? ==> r == RoleLabel(first.value)
    ensures first.None? ==> r == "Candidato"
  {
    if first.Some? then RoleLabel(first.value) else "Candidato"
  }

  /** The role cell's badge: the variant of the first role, or 'secondary' when there is none. */
  function ShownBadge(first: Option<AppRole>): (r: Badge)
    ensures first.Some? ==> r == RoleBadge(first.value)
    ensures first.None? ==> r == Secondary
  {
    if first.Some? then RoleBadge(first.value) else Secondary
  }

  /** The selector's value: the first role, or 'candidate' when there is none. */
  function SelectorValue(first: Option<AppRole>): (r: AppRole)
    ensures first.Some? ==> r == first.value
    ensures first.None? ==> r == Candidate
  {
    first.GetOr(Candidate)
  }

  /**
   * The three fallbacks agree: a user without a role is labelled, badged and preselected
   * exactly as a candidate, so the cell and the selector always show the same role.
   */
  lemma DisplayAgreesWithSelector(first: Option<AppRole>)
    ensures ShownLabel(first) == RoleLabel(SelectorValue(first))
    ensures ShownBadge(first) == RoleBadge(SelectorValue(first))
    ensures first.None? ==> ShownLabel(first) == ShownLabel(Some(Candidate))
                            && ShownBadge(first) == ShownBadge(Some(Candidate))
  {
  }

  /** The options of the role selector, each with the text it shows. */
  const SelectorItems: seq<(AppRole, string)> :=
    [(Candidate, "Candidato"), (Recruiter, "Recrutador"), (CompanyAdmin, "Admin Empresa"), (Root, "Root")]

  /** Every role is offered exactly once, under the same text the role cell uses. */
  lemma SelectorOffersEveryRole()
    ensures forall r: AppRole :: (r, RoleLabel(r)) in SelectorItems
    ensures forall i, j :: 0 <= i < j < |SelectorItems| ==> SelectorItems[i].0 != SelectorItems[j].0
  {
    forall r: AppRole
      ensures (r, RoleLabel(r)) in SelectorItems
    {
      match r
      case Candidate => assert SelectorItems[0] == (r, RoleLabel(r));
      case Recruiter => assert SelectorItems[1] == (r, RoleLabel(r));
      case CompanyAdmin => assert SelectorItems[2] == (r, RoleLabel(r));
      case Root => assert SelectorItems[3] == (r, RoleLabel(r));
    }
  }

  /**
   * The selector is rendered on a row when the viewer is root and the row is someone else's;
   * with no signed-in user the row's id never equals the missing id.
   */
  function ShowsRoleSelector(viewerRole: Option<AppRole>, viewer: Option<string>, rowUser: string): (r: bool)
    ensures r ==> viewerRole == Some(Root)
    ensures r ==> viewer != Some(rowUser)
    ensures viewerRole == Some(Root) && viewer != Some(rowUser) ==> r
  {
    viewerRole == Some(Root) && (viewer.None? || viewer.value != rowUser)
  }

  /** No viewer can change their own role, and a company admin can change nobody's. */
  lemma NoSelfOrCompanyAdminEdit(viewerRole: Option<AppRole>, me: string, rowUser: string)
    ensures !ShowsRoleSelector(viewerRole, Some(me), me)
    ensures viewerRole != Some(Root) ==> !ShowsRoleSelector(viewerRole, Some(me), rowUser)
  {
  }

  /**
   * `u.user_roles?.[0]?.role` for the row of `user`: the role of the user's first role row,
   * or none when the user has no row.
   */
  function FirstRoleOf(rows: seq<RoleRow>, user: string): (r: Option<AppRole>)
    ensures r.None? <==> forall x :: x in rows ==> x.userId != user
    ensures r.Some? ==> RoleRow(user, r.value) in rows
  {
    var mine := RolesOf(rows, user);
    if mine == [] then None
    else
      assert mine[0] in mine;
      Some(mine[0].role)
  }

  /** Updating one user's role filters, for every user, to the rows the update leaves them. */
  lemma {:induction false} UpdatedRolesOf(rows: seq<RoleRow>, user: string, role: AppRole, other: string)
    ensures other != user ==> RolesOf(UpdatedRoles(rows, user, role), other) == RolesOf(rows, other)
    ensures |RolesOf(UpdatedRoles(rows, user, role), user)| == |RolesOf(rows, user)|
    ensures forall x :: x in RolesOf(UpdatedRoles(rows, user, role), user) ==> x == RoleRow(user, role)
  {
    if rows != [] {
      UpdatedRolesOf(rows[1..], user, role, other);
      var u := UpdatedRoles(rows, user, role);
      assert u[1..] == UpdatedRoles(rows[1..], user, role);
    }
  }

  /**
   * After a successful role change the user's row shows the new role, if the user had a role
   * row at all; every other user's row shows what it showed before.
   */
  lemma RoleChangeIsShown(rows: seq<RoleRow>, user: string, role: AppRole, other: string)
    ensures FirstRoleOf(UpdatedRoles(rows, user, role), user)
            == (if FirstRoleOf(rows, user).Some? then Some(role) else None)
    ensures other != user ==> FirstRoleOf(UpdatedRoles(rows, user, role), other) == FirstRoleOf(rows, other)
  {
    UpdatedRolesOf(rows, user, role, other);
    var mine := RolesOf(UpdatedRoles(rows, user, role), user);
    if mine != [] {
      assert mine[0] in mine;
    }
    if RolesOf(rows, user) != [] {
      assert RolesOf(rows, user)[0] in RolesOf(rows, user);
    }
  }

  /**
   * The recruiter row that company creation upserts is added beside the user's rows: a user
   * who already had a role row now has one more, and the page still shows the old first
   * role; only a user without a row is shown as recruiter.
   */
  lemma UpsertedRoleShown(rows: seq<RoleRow>, user: string)
    ensures |RolesOf(rows + [RoleRow(user, Recruiter)], user)| == |RolesOf(rows, user)| + 1
    ensures FirstRoleOf(rows + [RoleRow(user, Recruiter)], user)
            == (if FirstRoleOf(rows, user).Some? then FirstRoleOf(rows, user) else Some(Recruiter))
  {
    FilterAppend(rows, [RoleRow(user, Recruiter)], RoleOfUser(user));
    assert Filter([RoleRow(user, Recruiter)], RoleOfUser(user)) == [RoleRow(user, Recruiter)];
    var before := RolesOf(rows, user);
    if before != [] {
      assert before[0] in before;
    }
  }

  /** Changing a user's role to the same role twice is the same as once. */
  lemma {:induction false} UpdateRoleTwice(rows: seq<RoleRow>, user: string, role: AppRole)
    ensures UpdatedRoles(UpdatedRoles(rows, user, role), user, role) == UpdatedRoles(rows, user, role)
  {
    if rows != [] {
      UpdateRoleTwice(rows[1..], user, role);
    }
  }

  /**
   * The role mutation as the page runs it: on success the rows are rewritten and a success
   * toast shown; on failure nothing changes and an error toast is shown.
   */
  function ChangeRole(rows: seq<RoleRow>, user: string, role: AppRole, writeOk: bool): (r: (seq<RoleRow>, string))
    ensures writeOk ==> r == (UpdatedRoles(rows, user, role), RoleUpdated)
    ensures !writeOk ==> r == (rows, RoleUpdateFailed)
  {
    if writeOk then (UpdatedRoles(rows, user, role), RoleUpdated) else (rows, RoleUpdateFailed)
  }

  /** The filter `.eq('id', companyId)` negated: the companies a delete leaves. */
  function NotCompany(id: nat): CompanyRow -> bool {
    (c: CompanyRow) => c.id != id
  }

  /**
   * `deleteCompany`: every company with that id is removed, the others stay in order; on
   * failure nothing changes. The toast reports which happened.
   */
  function DeleteCompany(companies: seq<CompanyRow>, id: nat, deleteOk: bool): (r: (seq<CompanyRow>, string))
    ensures deleteOk ==> r.1 == CompanyDeleted && IsSubsequence(r.0, companies)
                         && forall c :: c in r.0 <==> c in companies && c.id != id
    ensures !deleteOk ==> r == (companies, CompanyDeleteFailed)
  {
    if deleteOk then (Filter(companies, NotCompany(id)), CompanyDeleted) else (companies, CompanyDeleteFailed)
  }

  /** Deleting a company that has already been deleted changes nothing. */
  lemma DeleteTwice(companies: seq<CompanyRow>, id: nat)
    ensures DeleteCompany(DeleteCompany(companies, id, true).0, id, true).0 == DeleteCompany(companies, id, true).0
  {
    var once := Filter(companies, NotCompany(id));
    FilterKeepsAll(once, NotCompany(id));
  }
}
