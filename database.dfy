/** The organisation and user tables behind `DatabaseQueries`, and the error
    translation `handleDatabaseError`. Each table is a map keyed on the Clerk
    id (both `clerk_id` columns are unique). Columns the queries never write
    (business details, timestamps, row ids) are not part of the rows.

    The ORM leaves a column alone when the value given for it is `undefined`;
    an absent optional input (`None`) therefore means "unchanged" on update
    and "column default" on insert. The column defaults are those of the
    schema: tier `free`, status `trial`, 5 seats, active, role `viewer`, no
    permissions, onboarding not completed. */
module Database {
  import opened Common

  /** What the error-translation helper throws, or a value. */
  datatype Result<T> = Ok(value: T) | Err(message: string)

  /** A driver error: an optional SQLSTATE code and an optional message. */
  datatype DbError = DbError(code: Option<string>, message: Option<string>)

  const UNIQUE_VIOLATION := "23505"
  const FOREIGN_KEY_VIOLATION := "23503"
  const NOT_NULL_VIOLATION := "23502"
  const UNDEFINED_TABLE := "42P01"

  /** `handleDatabaseError`: it never returns a value; it throws an error whose
      message depends on the code. A missing or empty code is "unknown"; an
      unlisted code carries the driver's message (JavaScript renders a missing
      one as `undefined`). */
  function HandleDatabaseError<T>(e: DbError): (r: Result<T>)
    ensures r.Err?
    ensures r.message == "Record already exists" <==> e.code == Some(UNIQUE_VIOLATION)
    ensures r.message == "Referenced record does not exist" <==> e.code == Some(FOREIGN_KEY_VIOLATION)
    ensures r.message == "Required field is missing" <==> e.code == Some(NOT_NULL_VIOLATION)
    ensures r.message == "Database table does not exist" <==> e.code == Some(UNDEFINED_TABLE)
    ensures r.message == "Unknown database error occurred" <==> !Truthy(e.code)
    ensures StartsWith(r.message, "Database error: ") <==>
      Truthy(e.code) && e.code.value !in [UNIQUE_VIOLATION, FOREIGN_KEY_VIOLATION, NOT_NULL_VIOLATION, UNDEFINED_TABLE]
    ensures Truthy(e.code) && e.code.value !in [UNIQUE_VIOLATION, FOREIGN_KEY_VIOLATION, NOT_NULL_VIOLATION, UNDEFINED_TABLE] ==>
      r.message == "Database error: " + (if e.message.Some? then e.message.value else "undefined")
  {
    if Truthy(e.code) then
      var c := e.code.value;
      if c == UNIQUE_VIOLATION then
        assert "Record already exists"[..16][0] == 'R';
        Err("Record already exists")
      else if c == FOREIGN_KEY_VIOLATION then
        assert "Referenced record does not exist"[..16][0] == 'R';
        Err("Referenced record does not exist")
      else if c == NOT_NULL_VIOLATION then
        assert "Required field is missing"[..16][0] == 'R';
        Err("Required field is missing")
      else if c == UNDEFINED_TABLE then
        assert "Database table does not exist"[..16][9] == 't';
        Err("Database table does not exist")
      else
        var m := "Database error: " + (if e.message.Some? then e.message.value else "undefined");
        assert m[..16] == "Database error: " && m[0] == 'D' && m[9] == 'e';
        Err(m)
    else
      assert "Unknown database error occurred"[..16][0] == 'U';
      Err("Unknown database error occurred")
  }

  datatype OrgRow = OrgRow(
    clerkId: string, name: string, slug: string,
    subscriptionTier: string, subscriptionStatus: string, maxUsers: int,
    billingEmail: Option<string>,
    /** `None` is the schema's default settings document. */
    settings: Option<string>,
    isActive: bool)

  /** The optional `metadata` argument of `upsertOrganization`. */
  datatype OrgMetadata = OrgMetadata(
    subscriptionTier: Option<string>, subscriptionStatus: Option<string>,
    maxUsers: Option<int>, billingEmail: Option<string>, settings: Option<string>)

  datatype OrgInput = OrgInput(clerkId: string, name: string, slug: string, metadata: Option<OrgMetadata>)

  datatype UserRow = UserRow(
    clerkId: string, organizationId: string, email: string,
    firstName: Option<string>, lastName: Option<string>, profileImage: Option<string>,
    role: string, permissions: seq<string>, isActive: bool, onboardingCompleted: bool)

  /** The argument of `upsertUser`; `None` is a key left `undefined`. */
  datatype UserInput = UserInput(
    clerkId: string, organizationId: string, email: string,
    firstName: Option<string>, lastName: Option<string>, profileImage: Option<string>,
    role: Option<string>, permissions: Option<seq<string>>,
    isActive: Option<bool>, onboardingCompleted: Option<bool>)

  function Keep<T>(given: Option<T>, current: T): T
  {
    if given.Some? then given.value else current
  }

  /** `x || 5` for an optional number. */
  function NumberOrElse(o: Option<int>, d: int): int
  {
    if o.Some? && o.value != 0 then o.value else d
  }

  /** The row `upsertOrganization` inserts for an unknown Clerk id. */
  function InsertedOrg(d: OrgInput): OrgRow
  {
    match d.metadata
    case None => OrgRow(d.clerkId, d.name, d.slug, "free", "trial", 5, None, None, true)
    case Some(m) =>
      OrgRow(d.clerkId, d.name, d.slug,
        OrElse(m.subscriptionTier, "free"), OrElse(m.subscriptionStatus, "trial"),
        NumberOrElse(m.maxUsers, 5), m.billingEmail, m.settings, true)
  }

  /** The row `upsertOrganization` leaves after updating `row`. */
  function UpdatedOrg(row: OrgRow, d: OrgInput): OrgRow
  {
    match d.metadata
    case None => row.(name := d.name, slug := d.slug)
    case Some(m) =>
      row.(name := d.name, slug := d.slug,
        subscriptionTier := Keep(m.subscriptionTier, row.subscriptionTier),
        subscriptionStatus := Keep(m.subscriptionStatus, row.subscriptionStatus),
        maxUsers := Keep(m.maxUsers, row.maxUsers),
        billingEmail := if m.billingEmail.Some? then m.billingEmail else row.billingEmail,
        settings := if m.settings.Some? then m.settings else row.settings)
  }

  function UpsertedOrg(orgs: map<string, OrgRow>, d: OrgInput): OrgRow
  {
    if d.clerkId in orgs then UpdatedOrg(orgs[d.clerkId], d) else InsertedOrg(d)
  }

  /** Another organisation already uses `slug` (the `slug` column is unique). */
  predicate SlugTaken(orgs: map<string, OrgRow>, clerkId: string, slug: string)
  {
    exists k | k in orgs :: k != clerkId && orgs[k].slug == slug
  }

  /** The row `upsertUser` inserts for an unknown Clerk id. */
  function InsertedUser(d: UserInput): UserRow
  {
    UserRow(d.clerkId, d.organizationId, d.email, d.firstName, d.lastName, d.profileImage,
      OrElse(d.role, "viewer"), Keep(d.permissions, []),
      Keep(d.isActive, true), Keep(d.onboardingCompleted, false))
  }

  /** The row `upsertUser` leaves after updating `row`: the e-mail is always
      written, the other columns only when given (the role only when
      non-empty), and the organisation never. */
  function UpdatedUser(row: UserRow, d: UserInput): UserRow
  {
    row.(email := d.email,
      firstName := if d.firstName.Some? then d.firstName else row.firstName,
      lastName := if d.lastName.Some? then d.lastName else row.lastName,
      profileImage := if d.profileImage.Some? then d.profileImage else row.profileImage,
      role := if Truthy(d.role) then d.role.value else row.role,
      permissions := Keep(d.permissions, row.permissions),
      isActive := Keep(d.isActive, row.isActive),
      onboardingCompleted := Keep(d.onboardingCompleted, row.onboardingCompleted))
  }

  function UpsertedUser(users: map<string, UserRow>, d: UserInput): UserRow
  {
    if d.clerkId in users then UpdatedUser(users[d.clerkId], d) else InsertedUser(d)
  }

  /** Every row is stored under its own Clerk id. */
  predicate OrgsKeyed(orgs: map<string, OrgRow>)
  {
    forall k | k in orgs :: orgs[k].clerkId == k
  }

  predicate UsersKeyed(users: map<string, UserRow>)
  {
    forall k | k in users :: users[k].clerkId == k
  }

  /** No two organisations share a slug. */
  predicate SlugsUnique(orgs: map<string, OrgRow>)
  {
    forall a, b | a in orgs && b in orgs && a != b :: orgs[a].slug != orgs[b].slug
  }

  /** `DatabaseQueries` over an in-memory copy of the two tables. */
  class DatabaseQueries {
    var organizations: map<string, OrgRow>
    var users: map<string, UserRow>

    ghost predicate Valid()
      reads this
    {
      OrgsKeyed(organizations) && UsersKeyed(users) && SlugsUnique(organizations)
    }

    constructor ()
      ensures Valid() && organizations == map[] && users == map[]
    {
      organizations := map[];
      users := map[];
    }

    /** `getOrganizationByClerkId`: the row, or null when none matches. */
    method GetOrganizationByClerkId(clerkId: string) returns (r: Option<OrgRow>)
      requires Valid()
      ensures r.Some? <==> clerkId in organizations
      ensures r.Some? ==> r.value == organizations[clerkId] && r.value.clerkId == clerkId
    {
      if clerkId in organizations {
        r := Some(organizations[clerkId]);
      } else {
        r := None;
      }
    }

    /** `getUserByClerkId`: the row, or null when none matches. */
    method GetUserByClerkId(clerkId: string) returns (r: Option<UserRow>)
      requires Valid()
      ensures r.Some? <==> clerkId in users
      ensures r.Some? ==> r.value == users[clerkId] && r.value.clerkId == clerkId
    {
      if clerkId in users {
        r := Some(users[clerkId]);
      } else {
        r := None;
      }
    }

    /** `upsertOrganization`: update the row with this Clerk id, or insert one.
        A slug already used by another organisation makes the database raise
        a unique violation, which is translated and thrown; nothing changes. */
    method UpsertOrganization(d: OrgInput) returns (r: Result<OrgRow>)
      requires Valid()
      modifies this
      ensures Valid()
      ensures users == old(users)
      ensures r.Err? <==> SlugTaken(old(organizations), d.clerkId, d.slug)
      ensures r.Err? ==> r.message == "Record already exists" && organizations == old(organizations)
      ensures r.Ok? ==>
        && r.value == UpsertedOrg(old(organizations), d)
        && organizations == old(organizations)[d.clerkId := r.value]
    {
      var existing := GetOrganizationByClerkId(d.clerkId);
      if SlugTaken(organizations, d.clerkId, d.slug) {
        r := HandleDatabaseError(DbError(Some(UNIQUE_VIOLATION), None));
        return;
      }
      var row;
      if existing.Some? {
        row := UpdatedOrg(existing.value, d);
      } else {
        row := InsertedOrg(d);
      }
      organizations := organizations[d.clerkId := row];
      r := Ok(row);
    }

    /** `upsertUser`: update the row with this Clerk id, or insert one. */
    method UpsertUser(d: UserInput) returns (r: UserRow)
      requires Valid()
      modifies this
      ensures Valid()
      ensures organizations == old(organizations)
      ensures r == UpsertedUser(old(users), d)
      ensures users == old(users)[d.clerkId := r]
    {
      var existing := GetUserByClerkId(d.clerkId);
      if existing.Some? {
        r := UpdatedUser(existing.value, d);
      } else {
        r := InsertedUser(d);
      }
      users := users[d.clerkId := r];
    }

    /** `deleteOrganization`: removes the matching row, if any. */
    method DeleteOrganization(clerkId: string)
      requires Valid()
      modifies this
      ensures Valid()
      ensures organizations == old(organizations) - {clerkId}
      ensures users == old(users)
    {
      organizations := organizations - {clerkId};
    }

    /** `deleteUser`: removes the matching row, if any. */
    method DeleteUser(clerkId: string)
      requires Valid()
      modifies this
      ensures Valid()
      ensures users == old(users) - {clerkId}
      ensures organizations == old(organizations)
    {
      users := users - {clerkId};
    }
  }

  // ---------------------------------------------------------------------
  // Properties of the row semantics.

  /** A new user gets the schema defaults for every column left undefined. */
  lemma InsertedUserDefaults(d: UserInput)
    ensures InsertedUser(d).clerkId == d.clerkId && InsertedUser(d).organizationId == d.organizationId
    ensures !Truthy(d.role) ==> InsertedUser(d).role == "viewer"
    ensures d.permissions.None? ==> InsertedUser(d).permissions == []
    ensures d.isActive.None? ==> InsertedUser(d).isActive
    ensures d.onboardingCompleted.None? ==> !InsertedUser(d).onboardingCompleted
    ensures Truthy(d.role) ==> InsertedUser(d).role == d.role.value
    ensures d.isActive.Some? ==> InsertedUser(d).isActive == d.isActive.value
  {
  }

  /** An update writes a column exactly when a value is given for it (the role
      only when non-empty), never moves the user to another organisation, and
      keeps the row's Clerk id. */
  lemma UpdatedUserConditional(row: UserRow, d: UserInput)
    ensures UpdatedUser(row, d).organizationId == row.organizationId
    ensures UpdatedUser(row, d).clerkId == row.clerkId
    ensures UpdatedUser(row, d).email == d.email
    ensures UpdatedUser(row, d).role == row.role <== !Truthy(d.role)
    ensures Truthy(d.role) ==> UpdatedUser(row, d).role == d.role.value
    ensures d.permissions.None? ==> UpdatedUser(row, d).permissions == row.permissions
    ensures d.isActive.None? ==> UpdatedUser(row, d).isActive == row.isActive
    ensures d.isActive.Some? ==> UpdatedUser(row, d).isActive == d.isActive.value
    ensures d.onboardingCompleted.None? ==> UpdatedUser(row, d).onboardingCompleted == row.onboardingCompleted
    ensures d.onboardingCompleted.Some? ==> UpdatedUser(row, d).onboardingCompleted == d.onboardingCompleted.value
    ensures d.firstName.None? && d.lastName.None? && d.profileImage.None? ==>
      UpdatedUser(row, d).firstName == row.firstName && UpdatedUser(row, d).lastName == row.lastName
      && UpdatedUser(row, d).profileImage == row.profileImage
  {
  }

  /** Upserting a user twice with the same input leaves the same row as once. */
  lemma UpsertUserIdempotent(users: map<string, UserRow>, d: UserInput)
    requires UsersKeyed(users)
    ensures UpsertedUser(users[d.clerkId := UpsertedUser(users, d)], d) == UpsertedUser(users, d)
  {
  }

  /** Upserting keeps every table keyed on its Clerk ids and changes no other row. */
  lemma UpsertUserFrame(users: map<string, UserRow>, d: UserInput, k: string)
    requires UsersKeyed(users)
    ensures UsersKeyed(users[d.clerkId := UpsertedUser(users, d)])
    ensures k != d.clerkId && k in users ==> users[d.clerkId := UpsertedUser(users, d)][k] == users[k]
    ensures users[d.clerkId := UpsertedUser(users, d)].Keys == users.Keys + {d.clerkId}
  {
  }

  /** A new organisation gets tier `free`, status `trial` and 5 seats unless the
      metadata gives a non-empty tier or status, or a non-zero seat count. */
  lemma InsertedOrgDefaults(d: OrgInput)
    ensures InsertedOrg(d).isActive
    ensures InsertedOrg(d).name == d.name && InsertedOrg(d).slug == d.slug
    ensures d.metadata.None? ==>
      InsertedOrg(d).subscriptionTier == "free" && InsertedOrg(d).subscriptionStatus == "trial"
      && InsertedOrg(d).maxUsers == 5
    ensures d.metadata.Some? && !Truthy(d.metadata.value.subscriptionTier) ==> InsertedOrg(d).subscriptionTier == "free"
    ensures d.metadata.Some? && !Truthy(d.metadata.value.subscriptionStatus) ==> InsertedOrg(d).subscriptionStatus == "trial"
    ensures d.metadata.Some? && d.metadata.value.maxUsers in {None, Some(0)} ==> InsertedOrg(d).maxUsers == 5
  {
  }

  /** An update without metadata changes only the name and the slug; in
      particular it never deactivates the organisation. */
  lemma UpdatedOrgWithoutMetadata(row: OrgRow, d: OrgInput)
    requires d.metadata.None?
    ensures UpdatedOrg(row, d) == OrgRow(row.clerkId, d.name, d.slug, row.subscriptionTier,
      row.subscriptionStatus, row.maxUsers, row.billingEmail, row.settings, row.isActive)
  {
  }

  /** No upsert of an organisation ever changes its `isActive` column: the
      column is not among those `upsertOrganization` writes. */
  lemma OrgActivityNeverWritten(orgs: map<string, OrgRow>, d: OrgInput)
    ensures d.clerkId in orgs ==> UpsertedOrg(orgs, d).isActive == orgs[d.clerkId].isActive
    ensures d.clerkId !in orgs ==> UpsertedOrg(orgs, d).isActive
  {
  }
}
