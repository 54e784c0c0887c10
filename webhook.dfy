/** The Clerk webhook handler: the slug normaliser, the gate on handled event
    types, and the record each event derives and upserts. The signature check,
    the rate limiter and the logging are not part of the model; the database
    is the `Database.DatabaseQueries` table model.

    The handler passes object literals to the upsert helpers, and those read
    only the keys they declare. The records below are the literals as
    written; `ToUserInput` and `ToOrgInput` are what the helpers then see. */
module Webhook {
  import opened Common
  import opened Database

  // ---------------------------------------------------------------------
  // generateSlug

  predicate SlugChar(c: char) { IsLowerAscii(c) || IsDigitAscii(c) }

  /** Only `a-z`, `0-9` and `-`. */
  predicate CleanAlphabet(s: string)
  {
    forall i | 0 <= i < |s| :: SlugChar(s[i]) || s[i] == '-'
  }

  predicate DashPairAt(s: string, i: int)
  {
    0 <= i < |s| - 1 && s[i] == '-' && s[i + 1] == '-'
  }

  /** Never two `-` in a row. */
  predicate NoDoubleDash(s: string)
  {
    forall i | 0 <= i < |s| - 1 :: !DashPairAt(s, i)
  }

  /** `.replace(/[^a-z0-9]+/g, '-')`: each maximal run of other characters
      becomes a single `-`. The output ends in `-` exactly when the input
      ends in a run, so a run continuing at the end adds nothing. */
  function CollapseRuns(s: string): (r: string)
    ensures |r| <= |s|
  {
    if s == [] then []
    else
      var t := CollapseRuns(s[..|s| - 1]);
      var c := s[|s| - 1];
      if SlugChar(c) then t + [c]
      else if t != [] && t[|t| - 1] == '-' then t
      else t + ['-']
  }

  /** `.replace(/(^-|-$)/g, '')`: drops one leading and one trailing `-`. */
  function StripEdgeDashes(s: string): (r: string)
    ensures |r| <= |s|
  {
    var a := if |s| > 0 && s[0] == '-' then s[1..] else s;
    if |a| > 0 && a[|a| - 1] == '-' then a[..|a| - 1] else a
  }

  /** `.substring(0, n)`. */
  function Prefix(s: string, n: nat): (r: string)
    ensures |r| <= n && |r| <= |s|
  {
    if |s| <= n then s else s[..n]
  }

  const SLUG_MAX_LENGTH: nat := 50

  /** `generateSlug`: a missing, non-string or empty name gives `org`. Case is
      folded over ASCII only. */
  function GenerateSlug(name: Option<string>): string
  {
    if name.None? || name.value == "" then "org"
    else
      var x := Prefix(StripEdgeDashes(CollapseRuns(ToLower(name.value))), SLUG_MAX_LENGTH);
      if x == "" then "org" else x
  }

  lemma {:induction false} CollapseShape(s: string)
    ensures CleanAlphabet(CollapseRuns(s)) && NoDoubleDash(CollapseRuns(s))
  {
    if s != [] {
      var t := CollapseRuns(s[..|s| - 1]);
      CollapseShape(s[..|s| - 1]);
      var r := CollapseRuns(s);
      forall i | 0 <= i < |r| - 1
        ensures !DashPairAt(r, i)
      {
        if i < |t| - 1 {
          assert !DashPairAt(t, i);
        }
      }
    }
  }

  lemma StripShape(s: string)
    requires CleanAlphabet(s) && NoDoubleDash(s)
    ensures var r := StripEdgeDashes(s);
      CleanAlphabet(r) && NoDoubleDash(r) && (r != [] ==> r[0] != '-')
  {
    var a := if |s| > 0 && s[0] == '-' then s[1..] else s;
    if |s| > 1 && s[0] == '-' {
      assert !DashPairAt(s, 0);
    }
    var r := StripEdgeDashes(s);
    assert forall i | 0 <= i < |a| - 1 :: !DashPairAt(a, i) by {
      forall i | 0 <= i < |a| - 1 ensures !DashPairAt(a, i) {
        if |s| > 0 && s[0] == '-' { assert !DashPairAt(s, i + 1); } else { assert !DashPairAt(s, i); }
      }
    }
    assert forall i | 0 <= i < |r| - 1 :: !DashPairAt(r, i) by {
      forall i | 0 <= i < |r| - 1 ensures !DashPairAt(r, i) {
        assert !DashPairAt(a, i);
      }
    }
  }

  /** The slug is never empty, has at most 50 characters, uses only `a-z`,
      `0-9` and `-`, never starts with `-` and never has two `-` in a row. */
  lemma SlugShape(name: Option<string>)
    ensures var r := GenerateSlug(name);
      && r != "" && |r| <= SLUG_MAX_LENGTH && r[0] != '-'
      && CleanAlphabet(r) && NoDoubleDash(r)
    ensures name.None? || name.value == "" ==> GenerateSlug(name) == "org"
  {
    if name.Some? && name.value != "" {
      var c := CollapseRuns(ToLower(name.value));
      CollapseShape(ToLower(name.value));
      StripShape(c);
      var s := StripEdgeDashes(c);
      var x := Prefix(s, SLUG_MAX_LENGTH);
      assert forall i | 0 <= i < |x| - 1 :: !DashPairAt(x, i) by {
        forall i | 0 <= i < |x| - 1 ensures !DashPairAt(x, i) { assert !DashPairAt(s, i); }
      }
    }
  }

  /** A lower-case slug without edge dashes or double dashes, of at most 50
      characters, is its own slug. */
  lemma CleanSlugIsFixed(s: string)
    requires s != "" && |s| <= SLUG_MAX_LENGTH && CleanAlphabet(s) && NoDoubleDash(s)
    requires s[0] != '-' && s[|s| - 1] != '-'
    ensures GenerateSlug(Some(s)) == s
  {
    ToLowerClean(s);
    CollapseFixed(s);
  }

  lemma ToLowerClean(s: string)
    requires CleanAlphabet(s)
    ensures ToLower(s) == s
  {
    assert forall i | 0 <= i < |s| :: ToLower(s)[i] == s[i];
  }

  lemma {:induction false} CollapseFixed(s: string)
    requires CleanAlphabet(s) && NoDoubleDash(s)
    ensures CollapseRuns(s) == s
  {
    if s != [] {
      var p := s[..|s| - 1];
      assert forall i | 0 <= i < |p| - 1 :: !DashPairAt(p, i) by {
        forall i | 0 <= i < |p| - 1 ensures !DashPairAt(p, i) { assert !DashPairAt(s, i); }
      }
      CollapseFixed(p);
      if |s| > 1 {
        assert !DashPairAt(s, |s| - 2);
      }
      assert s == p + [s[|s| - 1]];
    }
  }

  /** Truncation happens after the edge dashes are stripped, so a slug can end
      in `-`: 49 lower-case letters followed by " b" give those letters and a
      dash. */
  lemma SlugMayEndWithDash(a: string)
    requires |a| == SLUG_MAX_LENGTH - 1
    requires forall i | 0 <= i < |a| :: IsLowerAscii(a[i])
    ensures GenerateSlug(Some(a + " b")) == a + "-"
  {
    var n := a + " b";
    assert forall i | 0 <= i < |n| :: !IsUpperAscii(n[i]) by {
      forall i | 0 <= i < |n| ensures !IsUpperAscii(n[i]) { if i < |a| { assert n[i] == a[i]; } }
    }
    assert forall i | 0 <= i < |n| :: ToLower(n)[i] == n[i];
    assert ToLower(n) == n;
    assert NoDoubleDash(a) by {
      forall i | 0 <= i < |a| - 1 ensures !DashPairAt(a, i) { assert IsLowerAscii(a[i]); }
    }
    CollapseFixed(a);
    assert n[..|n| - 1] == a + " ";
    assert (a + " ")[..|a|] == a;
    assert CollapseRuns(a + " ") == a + "-";
    assert CollapseRuns(n) == a + "-b";
    assert (a + "-b")[0] == a[0];
    assert StripEdgeDashes(a + "-b") == a + "-b";
    assert (a + "-b")[..SLUG_MAX_LENGTH] == a + "-";
  }

  // ---------------------------------------------------------------------
  // Events

  /** The event types the handler accepts. */
  const HANDLED_EVENTS: seq<string> := [
    "user.created", "user.updated", "user.deleted",
    "organization.created", "organization.updated", "organization.deleted",
    "organizationMembership.created", "organizationMembership.updated", "organizationMembership.deleted",
    "organizationInvitation.created", "organizationInvitation.accepted", "organizationInvitation.revoked",
    "email.created",
    "session.created", "session.ended", "session.pending", "session.removed", "session.revoked",
    "permission.created", "permission.updated", "permission.deleted",
    "role.created", "role.updated", "role.deleted",
    "organizationDomain.created", "organizationDomain.updated", "organizationDomain.deleted"]

  const MEMBERSHIP_EVENTS: seq<string> :=
    ["organizationMembership.created", "organizationMembership.updated", "organizationMembership.deleted"]

  /** One of the user's organisation memberships: the organisation's id and the role. */
  datatype MembershipRef = MembershipRef(organizationId: Option<string>, role: Option<string>)

  /** The user's public metadata; a missing document has every key absent
      (`onboardingComplete` false). */
  datatype UserMetadata = UserMetadata(onboardingComplete: bool, organizationId: Option<string>, role: Option<string>)

  datatype UserData = UserData(
    id: string, publicMetadata: UserMetadata, memberships: seq<MembershipRef>,
    emails: seq<string>, firstName: Option<string>, lastName: Option<string>,
    profileImageUrl: Option<string>)

  datatype OrgPublicMetadata = OrgPublicMetadata(
    dotNumber: Option<string>, mcNumber: Option<string>, address: Option<string>,
    city: Option<string>, state: Option<string>, zip: Option<string>, phone: Option<string>,
    billingEmail: Option<string>, maxUsers: Option<int>)

  datatype OrgData = OrgData(id: string, name: Option<string>, slug: Option<string>, publicMetadata: OrgPublicMetadata)

  datatype PublicUserData = PublicUserData(
    userId: Option<string>, firstName: Option<string>, lastName: Option<string>, profileImageUrl: Option<string>)

  datatype MembershipData = MembershipData(
    userId: Option<string>, publicUserData: Option<PublicUserData>, organizationId: string)

  datatype EventData =
    | UserPayload(user: UserData)
    | OrgPayload(org: OrgData)
    | MembershipPayload(membership: MembershipData)
    | OtherPayload

  datatype Event = Event(eventType: string, data: EventData)

  /** The payload has the shape Clerk sends for the event's type. */
  predicate Shaped(e: Event)
  {
    && (e.eventType in ["user.created", "user.updated", "user.deleted"] ==> e.data.UserPayload?)
    && (e.eventType in ["organization.created", "organization.updated", "organization.deleted"] ==> e.data.OrgPayload?)
    && (e.eventType in MEMBERSHIP_EVENTS ==> e.data.MembershipPayload?)
  }

  /** The user literal the handler passes to `upsertUser`. Its last key is
      `onboardingComplete`, not the `onboardingCompleted` the helper reads. */
  datatype UserRecord = UserRecord(
    clerkId: string, organizationId: string, email: string,
    firstName: Option<string>, lastName: Option<string>, profileImage: Option<string>,
    isActive: bool, onboardingComplete: bool)

  /** The organisation literal the handler passes to `upsertOrganization`; the
      business fields, seats and activity are top-level keys, not `metadata`. */
  datatype OrgRecord = OrgRecord(
    clerkId: string, name: string, slug: string,
    dotNumber: Option<string>, mcNumber: Option<string>, address: Option<string>,
    city: Option<string>, state: Option<string>, zip: Option<string>, phone: Option<string>,
    email: Option<string>, maxUsers: int, billingEmail: Option<string>, isActive: Option<bool>)

  /** What `upsertUser` reads of the literal. */
  function ToUserInput(r: UserRecord): (d: UserInput)
    ensures d.clerkId == r.clerkId && d.organizationId == r.organizationId && d.email == r.email
    ensures d.isActive == Some(r.isActive)
    ensures d.role.None? && d.permissions.None? && d.onboardingCompleted.None?
  {
    UserInput(r.clerkId, r.organizationId, r.email, r.firstName, r.lastName, r.profileImage,
      None, None, Some(r.isActive), None)
  }

  /** What `upsertOrganization` reads of the literal. */
  function ToOrgInput(r: OrgRecord): (d: OrgInput)
    ensures d.clerkId == r.clerkId && d.name == r.name && d.slug == r.slug
    ensures d.metadata.None?
  {
    OrgInput(r.clerkId, r.name, r.slug, None)
  }

  /** `a || b` for optional strings whose result may stay undefined. */
  function OrOption(a: Option<string>, b: Option<string>): Option<string>
  {
    if Truthy(a) then a else b
  }

  function FirstEmail(emails: seq<string>): string
  {
    if |emails| > 0 then emails[0] else ""
  }

  /** The organisation of a user event: the metadata's, else the first
      membership's, else empty. */
  function UserOrgId(u: UserData): string
  {
    OrElse(u.publicMetadata.organizationId,
      if |u.memberships| > 0 then OrElse(u.memberships[0].organizationId, "") else "")
  }

  /** The role the handler computes for a user event; it is not passed on. */
  function UserRole(u: UserData): string
  {
    var first := if |u.memberships| > 0 then u.memberships[0].role else None;
    OrElse(OrOption(first, u.publicMetadata.role), "viewer")
  }

  /** `user.created`/`user.updated`: the literal upserted, or none when
      onboarding is incomplete, no organisation id is found, or that
      organisation is not in the table. */
  function UserSyncRecord(u: UserData, orgs: map<string, OrgRow>): Option<UserRecord>
  {
    var orgId := UserOrgId(u);
    if !u.publicMetadata.onboardingComplete || orgId == "" || orgId !in orgs then None
    else Some(UserRecord(u.id, orgId, FirstEmail(u.emails), Some(OrElse(u.firstName, "")),
      Some(OrElse(u.lastName, "")), u.profileImageUrl, true, u.publicMetadata.onboardingComplete))
  }

  /** `user.deleted`: deactivate a stored user that has an organisation. The
      stored row has no `onboardingComplete` property, so the flag is false. */
  function UserDeletedRecord(u: UserData, users: map<string, UserRow>): Option<UserRecord>
  {
    if u.id in users && users[u.id].organizationId != "" then
      Some(UserRecord(u.id, users[u.id].organizationId, FirstEmail(u.emails), None, None, None, false, false))
    else None
  }

  /** The organisation name: the given name, else the slug, else
      `Organization ` and the first 8 characters of the id. */
  function OrgName(o: OrgData): string
  {
    OrElse(o.name, OrElse(o.slug, "Organization " + Prefix(o.id, 8)))
  }

  function OrgSlug(o: OrgData): string
  {
    OrElse(o.slug, GenerateSlug(Some(OrgName(o))))
  }

  /** `organization.created`/`organization.updated`. */
  function OrgSyncRecord(o: OrgData): OrgRecord
  {
    var m := o.publicMetadata;
    OrgRecord(o.id, OrgName(o), OrgSlug(o),
      OrOption(m.dotNumber, None), OrOption(m.mcNumber, None), OrOption(m.address, None),
      OrOption(m.city, None), OrOption(m.state, None), OrOption(m.zip, None), OrOption(m.phone, None),
      OrOption(m.billingEmail, None), NumberOrElse(m.maxUsers, 5), OrOption(m.billingEmail, None), None)
  }

  /** `organization.deleted`: the soft-delete literal. */
  function OrgDeletedRecord(o: OrgData): OrgRecord
  {
    OrgRecord(o.id, OrElse(o.name, "Deleted Organization"), OrElse(o.slug, "deleted-" + o.id),
      None, None, None, None, None, None, None, None, 0, None, Some(false))
  }

  /** The membership's user: `user_id`, else `public_user_data.user_id`; none
      when both are missing or empty. */
  function MembershipUserId(m: MembershipData): (r: Option<string>)
    ensures r.Some? ==> r.value != ""
  {
    if Truthy(m.userId) then m.userId
    else if m.publicUserData.Some? && Truthy(m.publicUserData.value.userId) then m.publicUserData.value.userId
    else None
  }

  function PlaceholderEmail(userId: string): string
  {
    "user-" + userId + "@placeholder.com"
  }

  /** `organizationMembership.*`: a deleted membership deactivates a stored
      user; a created or updated one upserts the user as active, filling the
      names and image from the event or the stored row and the e-mail from
      the stored row or a placeholder. */
  function MembershipRecord(m: MembershipData, deleted: bool, users: map<string, UserRow>): Option<UserRecord>
  {
    var uid := MembershipUserId(m);
    if uid.None? then None
    else
      var id := uid.value;
      var existing := if id in users then Some(users[id]) else None;
      if deleted then
        if existing.Some? then
          var x := existing.value;
          Some(UserRecord(id, m.organizationId, x.email, x.firstName, x.lastName, x.profileImage, false, false))
        else None
      else
        var p := if m.publicUserData.Some? then m.publicUserData.value else PublicUserData(None, None, None, None);
        var email := if existing.Some? && existing.value.email != "" then existing.value.email else PlaceholderEmail(id);
        Some(UserRecord(id, m.organizationId, email,
          OrOption(p.firstName, if existing.Some? then existing.value.firstName else None),
          OrOption(p.lastName, if existing.Some? then existing.value.lastName else None),
          OrOption(p.profileImageUrl, if existing.Some? then existing.value.profileImage else None),
          true, false))
  }

  // ---------------------------------------------------------------------
  // The handler's effect on the tables

  datatype Snapshot = Snapshot(orgs: map<string, OrgRow>, users: map<string, UserRow>)

  datatype Response = Ignored | Acknowledged | ServerError

  function WriteUser(s: Snapshot, r: Option<UserRecord>): Snapshot
  {
    if r.None? then s
    else
      var d := ToUserInput(r.value);
      s.(users := s.users[d.clerkId := UpsertedUser(s.users, d)])
  }

  /** An upsert that hits a taken slug fails and writes nothing. */
  function WriteOrg(s: Snapshot, r: OrgRecord): Snapshot
  {
    var d := ToOrgInput(r);
    if SlugTaken(s.orgs, d.clerkId, d.slug) then s
    else s.(orgs := s.orgs[d.clerkId := UpsertedOrg(s.orgs, d)])
  }

  /** The tables after the handler has processed `e`. */
  function Effect(s: Snapshot, e: Event): Snapshot
    requires Shaped(e)
  {
    var t := e.eventType;
    if t !in HANDLED_EVENTS then s
    else if t == "user.created" || t == "user.updated" then WriteUser(s, UserSyncRecord(e.data.user, s.orgs))
    else if t == "user.deleted" then WriteUser(s, UserDeletedRecord(e.data.user, s.users))
    else if t == "organization.created" || t == "organization.updated" then WriteOrg(s, OrgSyncRecord(e.data.org))
    else if t == "organization.deleted" then WriteOrg(s, OrgDeletedRecord(e.data.org))
    else if t in MEMBERSHIP_EVENTS then
      WriteUser(s, MembershipRecord(e.data.membership, t == "organizationMembership.deleted", s.users))
    else s
  }

  /** `POST` after the signature check: runs the event's case against the
      tables and answers. An organisation upsert that fails with an
      "already exists" message is treated as done; any other failure would be
      answered with 500. */
  method Post(db: DatabaseQueries, e: Event) returns (resp: Response)
    requires db.Valid() && Shaped(e)
    modifies db
    ensures db.Valid()
    ensures Snapshot(db.organizations, db.users) == Effect(Snapshot(old(db.organizations), old(db.users)), e)
    ensures resp == if e.eventType in HANDLED_EVENTS then Acknowledged else Ignored
  {
    var t := e.eventType;
    if t !in HANDLED_EVENTS {
      return Ignored;
    }
    resp := Acknowledged;
    if t == "user.created" || t == "user.updated" {
      var u := e.data.user;
      if !u.publicMetadata.onboardingComplete {
        return;
      }
      var orgId := UserOrgId(u);
      if orgId == "" {
        return;
      }
      var org := db.GetOrganizationByClerkId(orgId);
      if org.None? {
        return;
      }
      var rec := UserSyncRecord(u, db.organizations);
      var _ := db.UpsertUser(ToUserInput(rec.value));
    } else if t == "user.deleted" {
      var u := e.data.user;
      var dbUser := db.GetUserByClerkId(u.id);
      if dbUser.Some? && dbUser.value.organizationId != "" {
        var rec := UserDeletedRecord(u, db.users);
        var _ := db.UpsertUser(ToUserInput(rec.value));
      }
    } else if t == "organization.created" || t == "organization.updated" || t == "organization.deleted" {
      var o := e.data.org;
      var rec := if t == "organization.deleted" then OrgDeletedRecord(o) else OrgSyncRecord(o);
      var r := db.UpsertOrganization(ToOrgInput(rec));
      if r.Err? && t != "organization.deleted" {
        AlreadyExistsMessage();
        if !Contains(r.message, "already exists") {
          return ServerError;
        }
      }
    } else if t in MEMBERSHIP_EVENTS {
      var m := e.data.membership;
      var uid := MembershipUserId(m);
      if uid.None? {
        return;
      }
      var existing := db.GetUserByClerkId(uid.value);
      var rec := MembershipRecord(m, t == "organizationMembership.deleted", db.users);
      if rec.Some? {
        var _ := db.UpsertUser(ToUserInput(rec.value));
      }
    }
  }

  lemma AlreadyExistsMessage()
    ensures Contains("Record already exists", "already exists")
  {
    assert OccursAt("Record already exists", "already exists", 7);
  }

  // ---------------------------------------------------------------------
  // Properties

  /** The derived organisation name and slug are never empty, so the two
      "missing" guards after them can never fire. */
  lemma OrgNameAndSlugNonEmpty(o: OrgData)
    ensures OrgName(o) != "" && OrgSlug(o) != ""
    ensures Truthy(o.name) ==> OrgName(o) == o.name.value
    ensures !Truthy(o.name) && Truthy(o.slug) ==> OrgName(o) == o.slug.value
    ensures !Truthy(o.name) && !Truthy(o.slug) ==> OrgName(o) == "Organization " + Prefix(o.id, 8)
    ensures !Truthy(o.slug) ==> OrgSlug(o) == GenerateSlug(Some(OrgName(o)))
  {
    SlugShape(Some(OrgName(o)));
  }

  /** Unhandled event types are ignored with no write. */
  lemma UnhandledEventsWriteNothing(s: Snapshot, e: Event)
    requires Shaped(e) && e.eventType !in HANDLED_EVENTS
    ensures Effect(s, e) == s
  {
  }

  /** The soft-delete literal: inactive, no seats, no business details, and the
      name and slug fall back to `Deleted Organization` and `deleted-<id>`. */
  lemma SoftDeleteRecord(o: OrgData)
    ensures var r := OrgDeletedRecord(o);
      && r.isActive == Some(false) && r.maxUsers == 0
      && r.dotNumber.None? && r.mcNumber.None? && r.address.None? && r.city.None?
      && r.state.None? && r.zip.None? && r.phone.None? && r.email.None? && r.billingEmail.None?
      && r.name == (if Truthy(o.name) then o.name.value else "Deleted Organization")
      && r.slug == (if Truthy(o.slug) then o.slug.value else "deleted-" + o.id)
  {
  }

  /** What the soft delete does to a stored organisation: since only the name
      and slug reach the table, the row stays active with its seats. */
  lemma SoftDeleteKeepsRowActive(s: Snapshot, o: OrgData)
    requires OrgsKeyed(s.orgs) && o.id in s.orgs
    ensures var s' := Effect(s, Event("organization.deleted", OrgPayload(o)));
      && o.id in s'.orgs
      && s'.orgs[o.id].isActive == s.orgs[o.id].isActive
      && s'.orgs[o.id].maxUsers == s.orgs[o.id].maxUsers
  {
    UpdatedOrgWithoutMetadata(s.orgs[o.id], ToOrgInput(OrgDeletedRecord(o)));
  }

  /** A user event writes exactly when onboarding is complete and the user's
      organisation id is found and stored. */
  lemma UserSyncWritesExactly(u: UserData, orgs: map<string, OrgRow>)
    ensures UserSyncRecord(u, orgs).Some? <==>
      u.publicMetadata.onboardingComplete && UserOrgId(u) != "" && UserOrgId(u) in orgs
    ensures UserSyncRecord(u, orgs).Some? ==>
      var r := UserSyncRecord(u, orgs).value;
      r.clerkId == u.id && r.organizationId == UserOrgId(u) && r.isActive
  {
  }

  /** The row a user event leaves: active, in its stored organisation (a new
      user in the event's), with not-completed onboarding for a new user and
      the stored flag otherwise, and the stored or default role, whatever the
      metadata says about onboarding or role. */
  lemma UserSyncStoredRow(s: Snapshot, u: UserData)
    requires UserSyncRecord(u, s.orgs).Some?
    ensures var s' := Effect(s, Event("user.created", UserPayload(u)));
      && u.id in s'.users && s'.users[u.id].isActive
      && (u.id !in s.users ==>
           s'.users[u.id].organizationId == UserOrgId(u) && !s'.users[u.id].onboardingCompleted
           && s'.users[u.id].role == "viewer")
      && (u.id in s.users ==>
           s'.users[u.id].organizationId == s.users[u.id].organizationId
           && s'.users[u.id].onboardingCompleted == s.users[u.id].onboardingCompleted
           && s'.users[u.id].role == s.users[u.id].role)
  {
  }

  /** `user.deleted` deactivates a stored user with an organisation and
      overwrites the e-mail with the event's first address or the empty
      string; otherwise nothing is written. */
  lemma UserDeletedEffect(s: Snapshot, u: UserData)
    ensures var s' := Effect(s, Event("user.deleted", UserPayload(u)));
      && (u.id in s.users && s.users[u.id].organizationId != "" ==>
            s'.users == s.users[u.id := s.users[u.id].(email := FirstEmail(u.emails), isActive := false)])
      && (!(u.id in s.users && s.users[u.id].organizationId != "") ==> s' == s)
  {
  }

  /** Membership events: the user is the event's `user_id`, else the public
      data's; a deleted membership writes only for a stored user and then
      deactivates it, leaving its organisation as stored; a new member with no
      stored row gets a placeholder e-mail. */
  lemma MembershipRules(s: Snapshot, m: MembershipData, deleted: bool)
    ensures Truthy(m.userId) ==> MembershipUserId(m) == m.userId
    ensures MembershipUserId(m).None? ==> MembershipRecord(m, deleted, s.users).None?
    ensures deleted && MembershipUserId(m).Some? ==>
      (MembershipRecord(m, deleted, s.users).Some? <==> MembershipUserId(m).value in s.users)
    ensures deleted && MembershipRecord(m, deleted, s.users).Some? ==>
      var id := MembershipUserId(m).value;
      var s' := WriteUser(s, MembershipRecord(m, deleted, s.users));
      !s'.users[id].isActive && s'.users[id].organizationId == s.users[id].organizationId
    ensures !deleted && MembershipUserId(m).Some? && MembershipUserId(m).value !in s.users ==>
      var id := MembershipUserId(m).value;
      var s' := WriteUser(s, MembershipRecord(m, deleted, s.users));
      && s'.users[id].email == PlaceholderEmail(id) && s'.users[id].isActive
      && s'.users[id].organizationId == m.organizationId
  {
  }

  /** Every write the handler makes changes at most one row, the one with the
      event's id, and keeps both tables keyed on their Clerk ids. */
  lemma EffectFrame(s: Snapshot, e: Event)
    requires Shaped(e) && OrgsKeyed(s.orgs) && UsersKeyed(s.users)
    ensures OrgsKeyed(Effect(s, e).orgs) && UsersKeyed(Effect(s, e).users)
    ensures Effect(s, e).orgs == s.orgs || Effect(s, e).users == s.users
  {
  }
}
