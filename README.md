# FleetFusion core, modelled in Dafny

FleetFusion is a multi-tenant fleet-management web application. Its
organisations, users and roles come from an external identity provider (Clerk),
which also sends webhooks. The operations are served from a relational database.
This project models the core logic of the application and proves properties
of it:

- **Hours of Service** (`hos.dfy`, `sorting.dfy`): the calculator that turns a driver's
  duty-status logs into the time used and left against the 11-hour driving,
  14-hour on-duty and 70-hour cycle limits. It also works out whether a 34-hour
  restart is available and which violations were reached. It is written
  imperatively, in the source's own loops, and proved equal to a functional
  specification.
- **Access control** (`permissions.dfy`): `action:resource` permission strings,
  the `has*` checks on active users, the rule that `manage:r` grants every action on `r`,
  and owner-or-permission access to driver, load and compliance records.
  Route protection is by exact path.
- **Form validation** (`auth_validation.dfy`): the sign-in, sign-up, reset and onboarding
  schemas. Each one is a list of issues, with their paths and messages.
- **Database helpers** (`database.dfy`): error translation. Also a `DatabaseQueries` class whose
  two tables are maps keyed by Clerk id, with the same update-or-insert
  rules and schema defaults as the source.
- **Clerk webhook handler** (`webhook.dfy`): the slug normaliser and the gate on event
  types. It also gives the record each event derives and the effect of the whole `POST` handler on the
  two tables.
- **Request middleware** (`middleware.dfy`): the ordered chain of early returns over the
  session (sign-in, activity, onboarding, organisation, role gates, API
  permission) and the session headers it sets.
- **Dispatch board** (`dispatch_board.dfy`): the load filter and the status tabs.
- **Vehicle listing** (`vehicle_fetchers.dfy`): the `where` object is built by sequential
  assignment. The module also covers its meaning over rows, the pagination and the mapping to the public shape.
- **Audit actions** (`audit_actions.dfy`): the filtered, newest-first, paginated listing,
  the retention cleanup, the export file name and the logging wrappers.

Clocks, sessions and database contents are parameters. These include `now`, the local
midnight, the authenticated user and organisation, the table snapshots and the route matchers'
answers. Durations are integer milliseconds.

## Model

| member | source | states |
|---|---|---|
| Hos.CalculateHosStatus | lib/utils/hos.ts:26-144 | The method's result is exactly the specification snapshot `HosStatus`, for every input. |
| Hos.CollectEntries | lib/utils/hos.ts:58-64 | The collecting loop yields the concatenation of the `logs` lists, in order, skipping logs that hold no list. |
| Hos.AccumulateTotals | lib/utils/hos.ts:69-81 | The three running totals equal driving time since midnight, on-duty time since midnight and on-duty time since the cycle start. On-duty means `driving` or `on_duty`, and each entry counts by its start time and its clamped duration. |
| Hos.FindLastOnDutyEnd | lib/utils/hos.ts:84-90 | The loop finds the latest end among entries that are neither `off_duty` nor `sleeper_berth`. |
| Hos.EmptyLogsArePending | lib/utils/hos.ts:30-45 | With no logs: `pending`, no violations, no restart, nothing used, full limits, `off_duty`, no last-logged time. |
| Hos.EntrylessLogsAreCompliant | lib/utils/hos.ts:58-143 | Logs without entries are not "no logs": the driver is compliant with a restart available and nothing used. |
| Hos.AvailableTimes | lib/utils/hos.ts:133-134 | The driving and on-duty time left is the limit minus the time used, never below zero. |
| Hos.WindowSortInvariant | lib/utils/hos.ts:65-81 | Sorting by start time does not change any window total. |
| Hos.TotalsIgnoreOrder | lib/utils/hos.ts:65-81 | The reported totals equal the window totals of the unsorted flattened entries. |
| Hos.WindowsNested | lib/utils/hos.ts:74-80 | Driving today is at most on-duty today, which is at most on-duty in the cycle when the cycle starts no later than midnight. |
| Hos.UsedTimesOrdered | lib/utils/hos.ts:74-80 | `usedDriveTime <= usedOnDutyTime <= usedCycleHours` whenever midnight falls inside the last seven days. |
| Hos.WindowMembership | lib/utils/hos.ts:72-80 | An entry adds to a window only when it starts inside it, has a counted status and has positive length; then it adds exactly its duration. |
| Hos.DrivingEntryMonotone | lib/utils/hos.ts:74-75 | Adding a driving entry that starts today raises driving time by its duration and never raises the driving time left. |
| Hos.ViolationsExact | lib/utils/hos.ts:95-128 | Each violation appears exactly when its total reaches its limit, inclusively. They come in the order 11-hour, 14-hour, 70-hour, and each is major, open, unresolved and stamped `now`. |
| Hos.ComplianceStatusExact | lib/utils/hos.ts:30-142 | The status is `pending` exactly with no logs, and `violation` exactly when a violation was emitted. The violations are those of the reported totals. |
| Hos.LastOnDutyEndIsMax | lib/utils/hos.ts:84-90 | The tracked end is absent exactly when every entry is rest. Otherwise it is the end time of some non-rest entry, and no non-rest entry ends later. |
| Hos.RestartExact | lib/utils/hos.ts:91-93 | A restart is available exactly when every non-rest entry ended at least 34 hours before `now`. |
| Hos.CurrentStatusIsLatestEntry | lib/utils/hos.ts:83-141 | The current status and last-logged time come from the entry that starts last, the last-listed one on ties. Without entries they are `off_duty` and none. |
| Sorting.SortPermutes | lib/utils/hos.ts:65-67 | The sort is a permutation of its input. |
| Sorting.SortSorted | lib/utils/hos.ts:65-67 | The sort orders its input by start time, ascending. |
| Sorting.SortLast | lib/utils/hos.ts:65-67 | After the stable sort, the last element is the last-listed one of the largest key. |
| Permissions.ParseCreate | lib/auth/permissions.ts:13-24 | Parsing a created permission gives back its action and resource when neither contains `:`. |
| Permissions.ParseExact | lib/auth/permissions.ts:20-24 | Parsing succeeds exactly when the string has one `:`, and the halves re-create the string. |
| Permissions.ParsePermission | lib/auth/permissions.ts:20-24 | The parsed halves never contain `:`. |
| Permissions.GetPermissionsForRole | lib/auth/permissions.ts:109-111 | A listed role's permissions; none for an unlisted role. |
| Permissions.InactiveUserHasNothing | lib/auth/permissions.ts:29-76 | Every `has*` check refuses a missing or inactive user. |
| Permissions.ResourcePermissionExact | lib/auth/permissions.ts:37-44 | A resource permission holds exactly when the active user holds `a:r` or `manage:r`, so `manage:r` grants every action. |
| Permissions.AnyAllPermissions | lib/auth/permissions.ts:49-60 | For an active user: nothing from an empty list, all of an empty list, and all of a non-empty list implies any of it. |
| Permissions.BelongsIgnoresActivity | lib/auth/permissions.ts:116-119 | Organisation membership compares the organisation only and ignores `isActive`. |
| Permissions.ManageUsersPassesUserChecks | lib/auth/permissions.ts:124-169 | A user who may manage users passes every user check of the `PermissionChecks` table. |
| Permissions.OwnerAccessIgnoresActivity | lib/auth/permissions.ts:174-221 | An inactive driver still reaches their own driver, load and document records through the owner route, never through a view permission. Unassigned records stay closed to them. |
| Permissions.RouteAccessExact | lib/auth/permissions.ts:240-263 | Route protection is an exact-key lookup: unlisted paths (including sub-paths) are open, and listed ones need any of their permissions. |
| AuthValidation.SignInPasswordExact | validations/auth.ts:8-12 | A sign-in password passes exactly when its JavaScript `length` (UTF-16 units) is at least 8; the form passes exactly with a valid e-mail too. |
| AuthValidation.StrongPasswordIssuesExact | validations/auth.ts:17-23 | The five password rules report nothing exactly for a strong password: length at least 8 in UTF-16 units, with an upper-case letter, a lower-case letter, a digit and a special character. |
| AuthValidation.SignUpExact | validations/auth.ts:14-34 | Sign-up passes exactly when the e-mail is valid, the password is strong, name and company have length at least 2 in UTF-16 units, the terms are agreed to and the passwords match. |
| AuthValidation.SignUpMismatchAtConfirm | validations/auth.ts:31-34 | At path `confirmPassword`, sign-up reports exactly "Passwords do not match", and only when the passwords differ. |
| AuthValidation.ResetExact | validations/auth.ts:40-54 | Reset passes exactly when the password is strong and confirmed. |
| AuthValidation.ResetMismatchAtConfirm | validations/auth.ts:51-54 | At path `confirmPassword`, reset reports exactly the mismatch, and only when the passwords differ. |
| AuthValidation.SignUpPasswordPassesSignIn | validations/auth.ts:8-23 | Any password sign-up accepts is accepted at sign-in. |
| AuthValidation.ServiceIssues | validations/auth.ts:69 | The services pass exactly when every one is a listed literal, with at most one issue per element. |
| AuthValidation.ServiceIssueAt | validations/auth.ts:69 | Each service outside the literals is reported at `services.<its index>` with the enum message naming the options and the value received. |
| AuthValidation.AstralNameMeetsMinimum | validations/auth.ts:25 | A name of one emoji counts two UTF-16 units and so meets the two-character minimum. |
| AuthValidation.OnboardingExact | validations/auth.ts:56-71 | Onboarding passes exactly when the minimum lengths (in UTF-16 units) hold and each enumerated field holds a listed literal; DOT and MC numbers are free. |
| Database.HandleDatabaseError | lib/database/index.ts:28-47 | The function always fails, with the fixed message of each listed code, `Database error: <message>` for another code, and the unknown-error message without a code. |
| Database.DatabaseQueries.GetOrganizationByClerkId | lib/database/index.ts:54-66 | The row is returned exactly when one has the Clerk id, and null otherwise. |
| Database.DatabaseQueries.GetUserByClerkId | lib/database/index.ts:71-83 | The row is returned exactly when one has the Clerk id, and null otherwise. |
| Database.DatabaseQueries.UpsertOrganization | lib/database/index.ts:88-140 | The upsert fails with "Record already exists", changing nothing, exactly when another organisation has the slug. Otherwise it stores the updated or inserted row at the Clerk id. |
| Database.DatabaseQueries.UpsertUser | lib/database/index.ts:145-204 | Stores the updated or inserted row at the Clerk id and leaves the other table alone. |
| Database.DatabaseQueries.DeleteOrganization | lib/database/index.ts:209-217 | Removes exactly the row with the Clerk id. |
| Database.DatabaseQueries.DeleteUser | lib/database/index.ts:222-230 | Removes exactly the row with the Clerk id. |
| Database.InsertedUserDefaults | lib/database/index.ts:182-200 | A new user gets role `viewer`, no permissions, active and not onboarded, unless values are given. |
| Database.UpdatedUserConditional | lib/database/index.ts:160-180 | An update always writes the e-mail and writes every other column only when a value is given (the role only when non-empty). It never changes the organisation. |
| Database.UpsertUserIdempotent | lib/database/index.ts:145-204 | Upserting the same input twice leaves the same row as once. |
| Database.UpsertUserFrame | lib/database/index.ts:145-204 | An upsert keeps the table keyed and changes no other row. |
| Database.InsertedOrgDefaults | lib/database/index.ts:117-136 | A new organisation is active, with tier `free`, status `trial` and 5 seats unless the metadata gives a non-empty or non-zero value. |
| Database.UpdatedOrgWithoutMetadata | lib/database/index.ts:97-116 | An update without metadata changes only the name and the slug. |
| Database.OrgActivityNeverWritten | lib/database/index.ts:88-140 | No upsert changes an organisation's `isActive`. |
| Webhook.SlugShape | app/api/clerk/webhook-handler/route.ts:371-379 | A slug is never empty, has at most 50 characters, uses only `a-z0-9-` and never two dashes in a row; a missing or empty name gives `org`. |
| Webhook.CleanSlugIsFixed | app/api/clerk/webhook-handler/route.ts:371-379 | A slug that is already clean is its own slug. |
| Webhook.SlugMayEndWithDash | app/api/clerk/webhook-handler/route.ts:376-377 | Truncation comes after the edge dashes are stripped, so a slug can end with `-`. |
| Webhook.Post | app/api/clerk/webhook-handler/route.ts:92-347 | The handler answers "ignored" for event types outside the list and "ok" otherwise, and changes the two tables exactly as `Effect` describes. |
| Webhook.OrgNameAndSlugNonEmpty | app/api/clerk/webhook-handler/route.ts:191-202 | The name falls back from name to slug to `Organization <id prefix>`, and the slug to the generated slug; neither is ever empty. |
| Webhook.UnhandledEventsWriteNothing | app/api/clerk/webhook-handler/route.ts:92-94 | An event type outside the list writes nothing. |
| Webhook.SoftDeleteRecord | app/api/clerk/webhook-handler/route.ts:249-264 | The delete record is inactive, with no seats and no business details, and falls back to `Deleted Organization` and `deleted-<id>`. |
| Webhook.SoftDeleteKeepsRowActive | app/api/clerk/webhook-handler/route.ts:244-271 | The stored organisation stays active with its seats after the soft delete. |
| Webhook.UserSyncWritesExactly | app/api/clerk/webhook-handler/route.ts:101-151 | A user event writes exactly when onboarding is complete and the user's organisation is known and stored. |
| Webhook.UserSyncStoredRow | app/api/clerk/webhook-handler/route.ts:136-145 | The written row is active, with the stored or default role and onboarding flag whatever the metadata says. A new user gets the event's organisation. |
| Webhook.UserDeletedEffect | app/api/clerk/webhook-handler/route.ts:153-169 | `user.deleted` deactivates a stored user with an organisation and overwrites the e-mail from the event. Otherwise it writes nothing. |
| Webhook.MembershipRules | app/api/clerk/webhook-handler/route.ts:274-325 | The user id comes from `user_id`, else the public data. A deleted membership deactivates only a stored user and keeps its organisation. A new member gets a placeholder e-mail. |
| Webhook.EffectFrame | app/api/clerk/webhook-handler/route.ts:99-344 | Each event changes at most one of the two tables and keeps both keyed by Clerk id. |
| Middleware.ForbiddenOrRedirect | middleware.ts:127-136 | API paths and JSON requests get 403, exactly those; the rest are redirected to the target or to `/dashboard?error=forbidden`. |
| Middleware.SignedInAuthPageRedirects | middleware.ts:50-52 | A signed-in user on a sign-in or sign-up page goes to the dashboard. |
| Middleware.PublicPasses | middleware.ts:50-57 | Public routes pass untouched unless the first rule applies. |
| Middleware.SessionDefaults | middleware.ts:63-67 | Role defaults to `viewer`, a user is active unless exactly false and onboarded only when exactly true, and permissions default to none. |
| Middleware.InactiveRejected | middleware.ts:70-72 | An inactive user is rejected toward `/sign-in?error=account_disabled` and never passes. |
| Middleware.OnboardingRules | middleware.ts:75-82 | Not onboarded: sent to `/onboarding` from any non-onboarding route. Onboarded: sent from onboarding routes to the dashboard. |
| Middleware.OrganizationRequired | middleware.ts:85-89 | A protected non-onboarding route without an organisation is rejected toward `/onboarding/organization`. |
| Middleware.PassExact | middleware.ts:45-124 | A request passes exactly when it clears every rule in order, including the role gates and `fleet:view` for `/api/vehicles`. It passes with the session's role, ids and permissions. |
| Middleware.ApiRejectionsAreForbidden | middleware.ts:127-131 | Any rejection of an `/api/` path is a 403. |
| Middleware.SetSessionHeaders | middleware.ts:113-123 | The method sets the role and user id, the organisation when present, and the joined permissions when non-empty. |
| Middleware.Handle | middleware.ts:45-124 | The decision is the guard's; headers are set only on a passed request. |
| Middleware.SessionHeadersExact | middleware.ts:113-123 | The headers are exactly those four keys under their conditions, and the permissions header splits back into the list when no permission has a comma. |
| DispatchBoard.ResetFilters | components/dispatch/dispatch-board.tsx:144-152 | Every filter is empty after a reset. |
| DispatchBoard.KeepExact | components/dispatch/dispatch-board.tsx:185-201 | A load is kept exactly when every non-empty filter matches. A driver filter needs an assigned driver, and `recent` drops only pickups before the cutoff. |
| DispatchBoard.FilterIsSubsequence | components/dispatch/dispatch-board.tsx:185-201 | The filtered loads are a subsequence of the input. |
| DispatchBoard.FilterMembership | components/dispatch/dispatch-board.tsx:185-201 | A load is in the result exactly when it is in the input and kept. |
| DispatchBoard.ResetShowsEverything | components/dispatch/dispatch-board.tsx:144-152 | After a reset, the filter shows every load. |
| DispatchBoard.OtherDateRangesIgnoreDates | components/dispatch/dispatch-board.tsx:193-197 | Only the `recent` date range looks at dates. |
| DispatchBoard.DriverFilterDropsUnassigned | components/dispatch/dispatch-board.tsx:188 | With a driver filter, every remaining load has that driver. |
| DispatchBoard.BucketExact | components/dispatch/dispatch-board.tsx:112-115 | A tab holds exactly the input's loads of its status, as a subsequence. |
| DispatchBoard.BucketsDisjoint | components/dispatch/dispatch-board.tsx:112-115 | The tabs are pairwise disjoint, and a load of an unlisted status is in none. |
| DispatchBoard.FilterBucketCommute | components/dispatch/dispatch-board.tsx:204-208 | Filtering a tab gives the tab of the filtered loads. |
| VehicleFetchers.BuildWhere | lib/fetchers/vehicleFetchers.ts:29-72 | The sequential assignments build exactly the key-by-key `WhereFor` object. |
| VehicleFetchers.WhereIsScoped | lib/fetchers/vehicleFetchers.ts:29 | Every matching row belongs to the organisation. |
| VehicleFetchers.SearchExact | lib/fetchers/vehicleFetchers.ts:31-40 | Without the maintenance filter, the search keeps exactly the rows with the term in one of the five columns, ignoring case. |
| VehicleFetchers.MaintenanceReplacesSearch | lib/fetchers/vehicleFetchers.ts:66-72 | With `maintenanceDue`, the search term is irrelevant and the `OR` list keeps exactly the rows due for maintenance or inspection. |
| VehicleFetchers.PlainFiltersExact | lib/fetchers/vehicleFetchers.ts:42-64 | Each other filter constrains its column exactly when it is set; year 0 is unset. |
| VehicleFetchers.PageOf | lib/fetchers/vehicleFetchers.ts:75 | The page is the given one when non-zero, else 1. |
| VehicleFetchers.LimitOf | lib/fetchers/vehicleFetchers.ts:76 | The limit is in 1..100: the given one when non-zero and at most 100, 10 when absent or zero. |
| VehicleFetchers.PaginationExact | lib/fetchers/vehicleFetchers.ts:75-77 | `skip = (page - 1) * limit`, and the page count is the least count that holds every match. |
| VehicleFetchers.ListVehiclesByOrg | lib/fetchers/vehicleFetchers.ts:17-152 | The response is empty without a session or on failure. Otherwise it is the mapped page of matches, with the total, the page, the limit and the page count. |
| VehicleFetchers.ListedVehiclesMatch | lib/fetchers/vehicleFetchers.ts:79-139 | A page has at most `limit` vehicles, each mapped from a matching row of the organisation. |
| VehicleFetchers.MappingDefaults | lib/fetchers/vehicleFetchers.ts:100-139 | Make, model and VIN default to empty and year to 0, and the maintenance date falls back to the inspection date. |
| AuditActions.WhereExact | lib/actions/auditActions.ts:74-86 | The query is scoped to the organisation. Text filters apply only when non-empty, and the range only with both ends, inclusively. |
| AuditActions.GetAuditLogs | lib/actions/auditActions.ts:51-128 | The listing fails with "User must be authenticated" exactly without a session. It is refused for a negative offset. Otherwise it echoes page and limit (defaults 1 and 50), the total, and the page count rounded up. |
| AuditActions.Offset | lib/actions/auditActions.ts:71-72 | The offset is zero for the default page and never negative from page 1 on. |
| AuditActions.OrderedExact | lib/actions/auditActions.ts:88-105 | The ordered result is a permutation of the matches, newest first. |
| AuditActions.PageIsWindow | lib/actions/auditActions.ts:88-106 | A signed-in call with a non-negative offset returns a page, and its logs are the ordered matches from the offset, at most `limit` of them. |
| AuditActions.PageExact | lib/actions/auditActions.ts:88-106 | A page has at most `limit` entries, newest first, each a matching table entry, and is the ordered matches from the offset on. |
| AuditActions.PagesTile | lib/actions/auditActions.ts:71-93 | Entry `i` of page `n + 1` is ordered match `n * limit + i`. |
| AuditActions.SelectMembership | lib/actions/auditActions.ts:74-105 | An entry is selected exactly when it is in the table and matches. |
| AuditActions.Cutoff | lib/actions/auditActions.ts:195-204 | The cutoff is 365 days before now by default, and never after now for a non-negative count. |
| AuditActions.CleanupAuditLogs | lib/actions/auditActions.ts:195-227 | Cleanup fails with the authentication message exactly without a session, and succeeds otherwise. |
| AuditActions.RetainExact | lib/actions/auditActions.ts:206-213 | An entry survives unless it is both the organisation's and strictly older than the cutoff. Survivors keep their order, and survivors plus deleted account for the table. |
| AuditActions.CleanupExact | lib/actions/auditActions.ts:195-218 | Another organisation's entries and entries at or after the cutoff are never removed, and the deleted count is reported. |
| AuditActions.ExportAuditLogs | lib/actions/auditActions.ts:232-301 | The export fails with the authentication message exactly without a session. |
| AuditActions.ExportFilename | lib/actions/auditActions.ts:291 | The export file name is `audit-logs-<date part of the ISO instant>.csv`. |
| AuditActions.LogAuditEvent | lib/actions/auditActions.ts:24-46 | The logger returns nothing exactly for a session with user and organisation, and the authentication failure otherwise. It persists nothing. |
| AuditActions.WrappersExact | lib/actions/auditActions.ts:133-190 | Each wrapper passes its own fixed resource name, no two share one, and the outcome depends only on the session. |

## Left out

- I/O, network and foreign calls: the webhook signature verification, the rate limiter, the Clerk API calls, console logging and the `NextResponse` objects. Decisions and headers are values instead.
- Concurrency: the database is a snapshot, and concurrent webhooks and database race conditions are not modelled.
- `requirePermission` (permissions.ts:227-235) is a React wrapper; it is not modelled.
- `ROLE_PERMISSIONS` is defined outside the modelled files, so `GetPermissionsForRole` takes it as a parameter.
- Route matchers (`createRouteMatcher` patterns in middleware.ts:6-43) are taken as given booleans, and signing in (`auth.protect()`) is a `SignInRequired` decision.
- E-mail syntax (`z.string().email()`) is a parameter `isEmail`; Zod's own e-mail pattern is not modelled.
- Case folding is ASCII-only in `Common.ToLower`, so `generateSlug`, `mode: "insensitive"` and `toLowerCase` differ from JavaScript on non-ASCII letters.
- Date parsing is not modelled: times are integer milliseconds, and an unparsable pickup date is `None`, which the `recent` filter keeps.
- Hos.CalculateHosStatus: durations are in milliseconds, not fractional minutes; the limits are compared as `minutes * 60000`, which is exact. Invalid dates (NaN) are not modelled.
- AuditActions.Cutoff: `setDate(getDate() - days)` steps local calendar days; the model takes a day as 24 hours and ignores daylight-saving shifts.
- AuditActions.GetAuditLogs: ties in timestamp keep table order (the database does not promise one). A negative offset is `SkipRejected` without the ORM's message. `totalPages` for limit 0 (not finite in JavaScript) is `None`. Page and limit are natural numbers. Database failures, and the generic messages of non-`Error` throws, are not modelled.
- AuditActions.ExportAuditLogs: the instant's ISO string is a parameter; the CSV headers are built but never returned, so they are not modelled.
- VehicleFetchers.ListVehiclesByOrg: the table is given already in `unitNumber` order (string ordering is not modelled). `vehicleFilterSchema` parsing is not part of this model, so page and limit are natural numbers. Database failure is a boolean parameter. The public vehicle shape keeps only the fields with a rule.
- Database.HandleDatabaseError: only the unique-slug violation is raised by the table model; other codes are translated but never produced. Lookup failures inside the helpers are not modelled.
- Database.DatabaseQueries.UpsertUser: the user fields the webhook leaves `null` and those it leaves `undefined` are both `None`, that is "left unchanged".
- Webhook.Post: user upsert failures cannot occur in the table model. In the source, those of `user.created` and `user.updated` are logged and swallowed, while those of `user.deleted` and the membership events reach the outer handler and return 500, and the organisation error path that returns 500 is unreachable because the only modelled error says "already exists". Session and other handled events only log.
- Database.DatabaseQueries.DeleteOrganization, Database.DatabaseQueries.UpsertUser, Webhook.Post: the schema's foreign key from `users.organization_id` to `organizations.id`, its `onDelete: "cascade"` and the `uuid` type of that column are not modelled. So deleting an organisation leaves its users in the model, where the database deletes them. A user row whose organisation id is a Clerk id is stored with "ok", where the database refuses it: that failure is swallowed for `user.created` and `user.updated` (route.ts:136-145), and for a new membership (route.ts:313-322) it returns 500.
- Permissions.CanAccessRoute: the lookup is on the listed keys only. A JavaScript object lookup also finds inherited names such as `constructor` or `toString`, which the source would then treat as protected; no route path has such a name, since paths start with `/`.
- Lengths outside the form schemas count characters, not UTF-16 units: the slug truncation and the eight-character id prefix of the webhook. Both apply to ASCII text only (Clerk ids and slugs stripped to `[a-z0-9-]`), where the two agree.
- AuthValidation: enum messages follow Zod 3's wording (`Invalid enum value. Expected 'a' | 'b', received 'x'`), and an issue path is written with dots (`companyDetails.name`, `services.2`) rather than as an array.
- The webhook passes object literals with keys the upsert helpers do not read: `onboardingComplete` instead of `onboardingCompleted`, and organisation fields outside `metadata`. The model keeps them in the records and drops them exactly where the helpers do, so the lemmas above show their effect.
