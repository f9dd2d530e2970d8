/**
 * Companies and their members: the lookup of the signed-in user's company and the creation of
 * a company together with an admin membership and a role change. The three tables are held in
 * memory; company ids are positions, so a new company's id is the table's length.
 * `user_roles` is a sequence of rows, one user possibly holding several.
 */
module Companies {
  import opened Wrappers
  import opened Lists
  import opened Schema

  /** A company row: its id and the column values it was inserted with. */
  datatype CompanyRow = CompanyRow(id: nat, fields: map<string, string>)
  datatype MemberRow = MemberRow(companyId: nat, userId: string, isAdmin: bool)

  /** The company merged with the membership's `is_admin` flag. */
  datatype MyCompanyView = MyCompanyView(company: CompanyRow, isAdmin: bool)

  /** The filter `.eq('user_id', user)` on company_members. */
  function OfUser(user: string): MemberRow -> bool {
    (m: MemberRow) => m.userId == user
  }

  /** The membership rows of `user`, in table order. */
  function MembershipsOf(members: seq<MemberRow>, user: string): (r: seq<MemberRow>)
    ensures forall m :: m in r <==> m in members && m.userId == user
  {
    Filter(members, OfUser(user))
  }

  /** A row of `user_roles`. */
  datatype RoleRow = RoleRow(userId: string, role: AppRole)

  /** The filter `.eq('user_id', user)` on user_roles. */
  function RoleOfUser(user: string): RoleRow -> bool {
    (row: RoleRow) => row.userId == user
  }

  /** The role rows of `user`, in table order. */
  function RolesOf(rows: seq<RoleRow>, user: string): (r: seq<RoleRow>)
    ensures forall x :: x in r <==> x in rows && x.userId == user
  {
    Filter(rows, RoleOfUser(user))
  }

  /**
   * `.update({ role }).eq('user_id', user)` on user_roles: every row of that user is
   * rewritten and no other; a user with no row gets none, since an update inserts nothing.
   */
  function UpdatedRoles(rows: seq<RoleRow>, user: string, role: AppRole): (r: seq<RoleRow>)
    ensures |r| == |rows|
    ensures forall k :: 0 <= k < |rows| && rows[k].userId == user ==> r[k] == RoleRow(user, role)
    ensures forall k :: 0 <= k < |rows| && rows[k].userId != user ==> r[k] == rows[k]
  {
    if rows == [] then []
    else [if rows[0].userId == user then RoleRow(user, role) else rows[0]] + UpdatedRoles(rows[1..], user, role)
  }

  class CompanyTables {
    var companies: seq<CompanyRow>
    var members: seq<MemberRow>
    var roles: seq<RoleRow>

    /** Ids are positions, and every membership belongs to an existing company. */
    ghost predicate Valid()
      reads this
    {
      && (forall k :: 0 <= k < |companies| ==> companies[k].id == k)
      && (forall m :: m in members ==> m.companyId < |companies|)
    }

    constructor ()
      ensures Valid() && companies == [] && members == [] && roles == []
    {
      companies := [];
      members := [];
      roles := [];
    }

    /**
     * `useMyCompany`: nothing without a user; nothing when the membership read fails or the
     * user does not have exactly one membership (`.single()` fails otherwise, and both failures
     * are swallowed); a failed company read is raised; otherwise the member's company with the
     * member's admin flag.
     */
    method MyCompany(me: Option<string>, membershipReadOk: bool, companyReadOk: bool)
      returns (r: Result<Option<MyCompanyView>>)
      requires Valid()
      ensures me.None? ==> r == Ok(None)
      ensures me.Some? && !membershipReadOk ==> r == Ok(None)
      ensures me.Some? && |MembershipsOf(members, me.value)| != 1 ==> r == Ok(None)
      ensures me.Some? && membershipReadOk && |MembershipsOf(members, me.value)| == 1 && !companyReadOk ==> r.Err?
      ensures r.Ok? && r.value.Some? ==>
                membershipReadOk
                && MembershipsOf(members, me.value) == [MemberRow(r.value.value.company.id, me.value, r.value.value.isAdmin)]
                && r.value.value.company.id < |companies|
                && r.value.value.company == companies[r.value.value.company.id]
      ensures me.Some? && membershipReadOk && |MembershipsOf(members, me.value)| == 1 && companyReadOk ==>
                r.Ok? && r.value.Some?
    {
      if me.None? || !membershipReadOk {
        return Ok(None);
      }
      var mine := MembershipsOf(members, me.value);
      if |mine| != 1 {
        return Ok(None);
      }
      var membership := mine[0];
      assert membership in mine;
      if !companyReadOk {
        return Err("company read failed");
      }
      r := Ok(Some(MyCompanyView(companies[membership.companyId], membership.isAdmin)));
    }

    /**
     * The two inserts both creation paths share: the company, then an admin membership for
     * `user` in it. A failed company insert writes nothing; a failed membership insert leaves
     * the company without members. Roles are untouched.
     */
    method AddCompanyWithAdmin(user: string, data: map<string, string>, companyInsertOk: bool, memberInsertOk: bool)
      returns (r: Result<CompanyRow>)
      requires Valid()
      modifies this
      ensures Valid()
      ensures roles == old(roles)
      ensures !companyInsertOk ==> r.Err? && companies == old(companies) && members == old(members)
      ensures companyInsertOk ==> companies == old(companies) + [CompanyRow(|old(companies)|, data)]
      ensures companyInsertOk && !memberInsertOk ==> r.Err? && members == old(members)
      ensures companyInsertOk && memberInsertOk ==>
                r == Ok(CompanyRow(|old(companies)|, data))
                && members == old(members) + [MemberRow(|old(companies)|, user, true)]
    {
      if !companyInsertOk {
        return Err("company insert failed");
      }
      var company := CompanyRow(|companies|, data);
      companies := companies + [company];
      if !memberInsertOk {
        return Err("member insert failed");
      }
      members := members + [MemberRow(company.id, user, true)];
      r := Ok(company);
    }

    /**
     * `useCreateCompany`: not signed in, it throws before any write; otherwise the company and
     * its admin membership are inserted, aborting on either failure, and then a recruiter row
     * is upserted for the user. The upsert names no conflict column and the row carries no
     * primary key, so a write that succeeds adds a row beside any the user already has; a
     * failed write (a unique-constraint violation included) is ignored.
     */
    method CreateCompany(me: Option<string>, data: map<string, string>,
                         companyInsertOk: bool, memberInsertOk: bool, roleWriteOk: bool)
      returns (r: Result<CompanyRow>)
      requires Valid()
      modifies this
      ensures Valid()
      ensures me.None? ==> r == Err("Not authenticated")
      ensures me.None? || !companyInsertOk ==>
                r.Err? && companies == old(companies) && members == old(members) && roles == old(roles)
      ensures me.Some? && companyInsertOk ==> companies == old(companies) + [CompanyRow(|old(companies)|, data)]
      ensures me.Some? && companyInsertOk && !memberInsertOk ==>
                r.Err? && members == old(members) && roles == old(roles)
      ensures me.Some? && companyInsertOk && memberInsertOk ==>
                r == Ok(CompanyRow(|old(companies)|, data))
                && members == old(members) + [MemberRow(|old(companies)|, me.value, true)]
                && roles == (if roleWriteOk then old(roles) + [RoleRow(me.value, Recruiter)] else old(roles))
    {
      if me.None? {
        return Err("Not authenticated");
      }
      r := AddCompanyWithAdmin(me.value, data, companyInsertOk, memberInsertOk);
      if r.Ok? && roleWriteOk {
        roles := roles + [RoleRow(me.value, Recruiter)];
      }
    }
  }

  /**
   * A user without a membership who creates a company then finds it as their company, as its
   * admin, when the membership and company reads succeed.
   */
  method CreateThenLookUp(t: CompanyTables, me: string, data: map<string, string>, roleWriteOk: bool)
    returns (created: Result<CompanyRow>, found: Result<Option<MyCompanyView>>)
    requires t.Valid()
    requires MembershipsOf(t.members, me) == []
    modifies t
    ensures created.Ok? && found == Ok(Some(MyCompanyView(created.value, true)))
  {
    created := t.CreateCompany(Some(me), data, true, true, roleWriteOk);
    FilterAppend(old(t.members), [MemberRow(created.value.id, me, true)], OfUser(me));
    found := t.MyCompany(Some(me), true, true);
  }
}
