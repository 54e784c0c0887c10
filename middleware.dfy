/** The request guard that runs before every page and API route: an ordered
    chain of early returns over the session, then the response headers that
    carry the session downstream. The route matchers built from path patterns
    are taken as given booleans; signing in is the identity provider's and
    appears only as "a session with a user id". */
module Middleware {
  import opened Common

  datatype Request = Request(path: string, accept: Option<string>)

  /** The answers of the five route matchers for the request's path. */
  datatype RouteFlags = RouteFlags(
    isPublic: bool, isOnboarding: bool, isAdmin: bool, isDispatcher: bool, isDriver: bool)

  /** The `metadata` claim of the session token; each key may be missing. */
  datatype Metadata = Metadata(
    role: Option<string>, isActive: Option<bool>, onboardingCompleted: Option<bool>,
    permissions: Option<seq<string>>)

  datatype Session = Session(userId: Option<string>, orgId: Option<string>, metadata: Option<Metadata>)

  datatype Decision =
    | Redirect(location: string)
    /** 403 with a JSON body. */
    | Forbidden
    /** The identity provider's own sign-in redirect from `auth.protect()`. */
    | SignInRequired
    /** Passed on untouched (public routes). */
    | PassPublic
    /** Passed on with the session headers. */
    | Pass(role: string, userId: string, orgId: Option<string>, permissions: seq<string>)

  /** Paths under `/api/` and requests that accept JSON get a 403; the rest
      are redirected to the target, or to `/dashboard?error=forbidden`. */
  function ForbiddenOrRedirect(req: Request, target: Option<string>): (d: Decision)
    ensures d == Forbidden <==> StartsWith(req.path, "/api/") || (req.accept.Some? && Contains(req.accept.value, "application/json"))
    ensures d != Forbidden ==> d == Redirect(OrElse(target, "/dashboard?error=forbidden"))
  {
    if StartsWith(req.path, "/api/") || (req.accept.Some? && Contains(req.accept.value, "application/json")) then Forbidden
    else if Truthy(target) then Redirect(target.value)
    else Redirect("/dashboard?error=forbidden")
  }

  function Claims(s: Session): Metadata
  {
    if s.metadata.Some? then s.metadata.value else Metadata(None, None, None, None)
  }

  /** Session defaults: `viewer` when no role, active unless exactly false,
      onboarded only when exactly true, no permissions when none. */
  function RoleOf(s: Session): string { OrElse(Claims(s).role, "viewer") }
  predicate ActiveOf(s: Session) { Claims(s).isActive != Some(false) }
  predicate OnboardedOf(s: Session) { Claims(s).onboardingCompleted == Some(true) }
  function PermissionsOf(s: Session): seq<string>
  {
    if Claims(s).permissions.Some? then Claims(s).permissions.value else []
  }

  const INSUFFICIENT := "/dashboard?error=insufficient_permissions"

  predicate IsAuthPage(path: string)
  {
    StartsWith(path, "/sign-in") || StartsWith(path, "/sign-up")
  }

  /** The guard chain, in source order. */
  function Guard(req: Request, f: RouteFlags, s: Session): Decision
  {
    if Truthy(s.userId) && IsAuthPage(req.path) then Redirect("/dashboard")
    else if f.isPublic then PassPublic
    else if !Truthy(s.userId) then SignInRequired
    else
      var role := RoleOf(s);
      var permissions := PermissionsOf(s);
      if !ActiveOf(s) then ForbiddenOrRedirect(req, Some("/sign-in?error=account_disabled"))
      else if !OnboardedOf(s) && !f.isOnboarding then ForbiddenOrRedirect(req, Some("/onboarding"))
      else if OnboardedOf(s) && f.isOnboarding then Redirect("/dashboard")
      else if !f.isPublic && !f.isOnboarding && !Truthy(s.orgId) then ForbiddenOrRedirect(req, Some("/onboarding/organization"))
      else if f.isAdmin && role != "admin" then ForbiddenOrRedirect(req, Some(INSUFFICIENT))
      else if f.isDispatcher && role !in ["admin", "dispatcher"] then ForbiddenOrRedirect(req, Some(INSUFFICIENT))
      else if f.isDriver && role !in ["admin", "dispatcher", "driver"] then ForbiddenOrRedirect(req, Some(INSUFFICIENT))
      else if StartsWith(req.path, "/api/") && StartsWith(req.path, "/api/vehicles") && "fleet:view" !in permissions then
        ForbiddenOrRedirect(req, None)
      else Pass(role, s.userId.value, s.orgId, permissions)
  }

  /** `m` after the session headers are set on it. */
  function WithSessionHeaders(m: map<string, string>, role: string, userId: string, orgId: Option<string>,
                              permissions: seq<string>): map<string, string>
  {
    var base := m["x-user-role" := role]["x-user-id" := userId];
    var withOrg := if Truthy(orgId) then base["x-org-id" := orgId.value] else base;
    if |permissions| > 0 then withOrg["x-user-permissions" := Join(permissions, ",")] else withOrg
  }

  /** The headers a passed request carries downstream. */
  function SessionHeaders(role: string, userId: string, orgId: Option<string>, permissions: seq<string>): map<string, string>
  {
    WithSessionHeaders(map[], role, userId, orgId, permissions)
  }

  /** The mutable header list of a response. */
  class ResponseHeaders {
    var values: map<string, string>

    constructor ()
      ensures values == map[]
    {
      values := map[];
    }

    method Set(name: string, value: string)
      modifies this
      ensures values == old(values)[name := value]
    {
      values := values[name := value];
    }
  }

  /** The tail of the guard: sets the session headers one by one. */
  method SetSessionHeaders(h: ResponseHeaders, role: string, userId: string, orgId: Option<string>, permissions: seq<string>)
    modifies h
    ensures h.values == WithSessionHeaders(old(h.values), role, userId, orgId, permissions)
  {
    h.Set("x-user-role", role);
    h.Set("x-user-id", userId);
    if Truthy(orgId) {
      h.Set("x-org-id", orgId.value);
    }
    if |permissions| > 0 {
      h.Set("x-user-permissions", Join(permissions, ","));
    }
  }

  /** The whole middleware: the guard, and for a passed request a fresh
      response with the session headers. */
  method Handle(req: Request, f: RouteFlags, s: Session) returns (d: Decision, headers: map<string, string>)
    ensures d == Guard(req, f, s)
    ensures headers == if d.Pass? then SessionHeaders(d.role, d.userId, d.orgId, d.permissions) else map[]
  {
    d := Guard(req, f, s);
    headers := map[];
    if d.Pass? {
      var h := new ResponseHeaders();
      SetSessionHeaders(h, d.role, d.userId, d.orgId, d.permissions);
      headers := h.values;
    }
  }

  // ---------------------------------------------------------------------
  // Properties

  /** A signed-in user on a sign-in or sign-up page goes to the dashboard,
      whatever the route flags say. */
  lemma SignedInAuthPageRedirects(req: Request, f: RouteFlags, s: Session)
    requires Truthy(s.userId) && IsAuthPage(req.path)
    ensures Guard(req, f, s) == Redirect("/dashboard")
  {
  }

  /** Public routes pass untouched unless the first rule applies. */
  lemma PublicPasses(req: Request, f: RouteFlags, s: Session)
    requires f.isPublic
    ensures Guard(req, f, s) == PassPublic <==> !(Truthy(s.userId) && IsAuthPage(req.path))
  {
  }

  /** The session defaults. */
  lemma SessionDefaults(s: Session)
    ensures !Truthy(Claims(s).role) ==> RoleOf(s) == "viewer"
    ensures ActiveOf(s) <==> Claims(s).isActive != Some(false)
    ensures s.metadata.None? ==> ActiveOf(s) && !OnboardedOf(s) && PermissionsOf(s) == [] && RoleOf(s) == "viewer"
    ensures OnboardedOf(s) ==> Claims(s).onboardingCompleted == Some(true)
  {
  }

  /** An inactive signed-in user reaches no non-public route. */
  lemma InactiveRejected(req: Request, f: RouteFlags, s: Session)
    requires !f.isPublic && Truthy(s.userId) && !IsAuthPage(req.path) && !ActiveOf(s)
    ensures Guard(req, f, s) == ForbiddenOrRedirect(req, Some("/sign-in?error=account_disabled"))
    ensures !Guard(req, f, s).Pass? && Guard(req, f, s) != PassPublic
  {
  }

  /** The onboarding rules: an active user who has not finished onboarding is
      sent to `/onboarding` from any other protected route; one who has is
      sent from an onboarding route to the dashboard. */
  lemma OnboardingRules(req: Request, f: RouteFlags, s: Session)
    requires !f.isPublic && Truthy(s.userId) && !IsAuthPage(req.path) && ActiveOf(s)
    ensures !OnboardedOf(s) && !f.isOnboarding ==> Guard(req, f, s) == ForbiddenOrRedirect(req, Some("/onboarding"))
    ensures OnboardedOf(s) && f.isOnboarding ==> Guard(req, f, s) == Redirect("/dashboard")
  {
  }

  /** A protected route outside onboarding needs an organisation. */
  lemma OrganizationRequired(req: Request, f: RouteFlags, s: Session)
    requires !f.isPublic && !f.isOnboarding && Truthy(s.userId) && !IsAuthPage(req.path)
    requires ActiveOf(s) && OnboardedOf(s) && !Truthy(s.orgId)
    ensures Guard(req, f, s) == ForbiddenOrRedirect(req, Some("/onboarding/organization"))
  {
  }

  /** A request passes with headers exactly when it clears every rule; the
      role gates then admit only the listed roles, and `/api/vehicles` needs
      `fleet:view`. */
  lemma PassExact(req: Request, f: RouteFlags, s: Session)
    ensures Guard(req, f, s).Pass? <==>
      && !f.isPublic && Truthy(s.userId) && !IsAuthPage(req.path)
      && ActiveOf(s)
      && (if f.isOnboarding then !OnboardedOf(s) else OnboardedOf(s) && Truthy(s.orgId))
      && (f.isAdmin ==> RoleOf(s) == "admin")
      && (f.isDispatcher ==> RoleOf(s) in ["admin", "dispatcher"])
      && (f.isDriver ==> RoleOf(s) in ["admin", "dispatcher", "driver"])
      && (StartsWith(req.path, "/api/vehicles") ==> "fleet:view" in PermissionsOf(s))
    ensures Guard(req, f, s).Pass? ==>
      Guard(req, f, s) == Pass(RoleOf(s), s.userId.value, s.orgId, PermissionsOf(s))
  {
    if StartsWith(req.path, "/api/vehicles") {
      assert req.path[..5] == "/api/vehicles"[..5];
    }
  }

  /** A rejection is a 403 for API requests and a redirect to the given
      target otherwise, whatever that target is. */
  lemma ApiRejectionsAreForbidden(req: Request, target: Option<string>)
    requires StartsWith(req.path, "/api/")
    ensures ForbiddenOrRedirect(req, target) == Forbidden
  {
  }

  /** The session headers: role and user id always; the organisation only
      when there is one; the permissions, comma-joined, only when there are
      some, and they split back into the list when no permission has a
      comma. */
  lemma SessionHeadersExact(role: string, userId: string, orgId: Option<string>, permissions: seq<string>)
    ensures var h := SessionHeaders(role, userId, orgId, permissions);
      && h["x-user-role"] == role && h["x-user-id"] == userId
      && ("x-org-id" in h <==> Truthy(orgId))
      && (Truthy(orgId) ==> h["x-org-id"] == orgId.value)
      && ("x-user-permissions" in h <==> |permissions| > 0)
      && h.Keys <= {"x-user-role", "x-user-id", "x-org-id", "x-user-permissions"}
    ensures |permissions| > 0 && (forall i :: 0 <= i < |permissions| ==> ',' !in permissions[i]) ==>
      Split(SessionHeaders(role, userId, orgId, permissions)["x-user-permissions"], ',') == permissions
  {
    if |permissions| > 0 && (forall i :: 0 <= i < |permissions| ==> ',' !in permissions[i]) {
      SplitJoin(permissions, ',');
    }
  }
}
