# Leave-management client: session slots, route guards and form rules

This project models the deterministic core of a React leave-management
client. Its shared session state is five role-keyed localStorage slots —
`user`, `partner`, `manager`, `hr-manager` and `hr` — which may coexist. The
route guards, the header, the leave form's pre-fill and the login pages read
or write them. The leave form and the partner panel also keep their own state,
which the model holds in the classes `LeaveFormState` and `PartnerPanel`.
The model covers:

- the route guards: `ProtectedRoutes` admits a visitor to a panel, and
  `PublicRoute` sends a signed-in visitor away from the landing and login pages;
- the route table, which binds each panel to the role it requires;
- the header, which resolves the current user and logs out;
- the leave form, its login counterparts and their validation schemas;
- the partner's approval panel.

A slot counts as present when its key exists and holds a non-empty string,
because the code tests the result of `getItem` for truthiness. `JSON.parse`
is a parameter (`Parser`) that yields an identity or nothing. The backend is a
settled `Response` (`Ok(data)` or `Err(message)`) passed into the operations
that await it.

Files, one module each: `storage.dfy` (roles, slots, the priority-chain
specification `FirstPresent`, the `BrowserStorage` class), `router.dfy`,
`api.dfy`, `protected_routes.dfy`, `public_route.dfy`, `app_routes.dfy`,
`header.dfy`, `leave_form.dfy`, `employee_login.dfy`, `hr_login.dfy`,
`partner_panel.dfy`, `wrappers.dfy`.

Main results:

- `AppRoutes.NoRedirectLoop`: from any path in the table, whatever the slots
  hold, at most two redirects lead to a rendered page.
- `AppRoutes.PublicRedirectIsAdmitted`: the panel a public page redirects to
  always admits the visitor.
- The header (`Header.GetCurrentUser`) and the public pages (`PublicRoute.Guard`)
  each use their own priority order, and both are proved equal to
  `FirstPresent` over that order. `Header.ResolutionDiffersFromRedirect` shows
  a state where the two orders pick different roles.
- `Header.HandleLogout` removes exactly the five session keys; logout is
  idempotent and leaves no current user.
- The WhatsApp pattern `^\+?[0-9]{10,15}$` is run as an automaton
  (`RegexMatches`) and proved equal to its direct reading (`WhatsappPattern`).

Behaviour of the code worth knowing:

- The code keeps five independent slots that may coexist; there is no single
  active session.
- A panel route with no required role admits any present slot. The table
  never uses that branch.
- This client does not enforce the Pending → Approved/Rejected rule; the
  panel only offers buttons on `Pending` records.

## Model

| member | source | states |
|---|---|---|
| Storage.Role.Key | src/routes/ProtectedRoutes.tsx:18-22 | each role reads its own non-empty localStorage key |
| Storage.KeyInjective | src/components/Header.tsx:29 | the five keys are pairwise distinct, so a write to one slot never touches another |
| Storage.WriteLeavesOtherSlots | src/pages/EmployeeLoginPage.tsx:45 | writing one role's slot leaves every other role's presence as it was |
| Storage.FirstPresent | src/components/Header.tsx:12-17 | the index of the first present role in a priority order: every earlier role is absent, the chosen one is present, and the length of the order when none is present |
| Storage.FirstPresentExhausted | src/routes/PublicRoute.tsx:12-18 | a chain over all five roles finds nothing exactly when no slot is present |
| ProtectedRoutes.IsAuthenticated | src/routes/ProtectedRoutes.tsx:17-44 | with a required role, admitted iff that role's slot is present; without one, admitted iff any slot is present; never admitted when no slot is present |
| ProtectedRoutes.Guard | src/routes/ProtectedRoutes.tsx:48-53 | children are rendered iff admitted; otherwise the redirect is always to "/" |
| ProtectedRoutes.OnlyRequiredSlotMatters | src/routes/ProtectedRoutes.tsx:26-40 | with a required role, the other roles' slots do not affect the decision |
| ProtectedRoutes.EmptySlotIsAbsent | src/routes/ProtectedRoutes.tsx:29-37 | a slot holding "" does not admit, as truthiness demands |
| PublicRoute.Target | src/routes/PublicRoute.tsx:12-16 | each role's redirect target is a panel, never "/" |
| PublicRoute.TargetInjective | src/routes/PublicRoute.tsx:12-16 | distinct roles are redirected to distinct panels |
| PublicRoute.Guard | src/routes/PublicRoute.tsx:12-18 | children are rendered iff no slot is present; otherwise the redirect goes to the panel of the first present role in the order user, manager, hr, hr-manager, partner |
| PublicRoute.RedirectFollowsOrder | src/routes/PublicRoute.tsx:12-16 | the five `if`s select the same role as the priority specification, case by case |
| AppRoutes.LookupAt | src/routes/AppRoutes.tsx:34-124 | a route whose path no earlier route has is the one the router matches |
| AppRoutes.Table | src/routes/AppRoutes.tsx:34-124 | the eleven routes in declaration order, with full paths, their wrapper and the page each renders; its shape is stated by `TableShape` and `PathsDistinct` |
| AppRoutes.Navigate | src/routes/AppRoutes.tsx:34-124 | a navigation finds no route exactly when the path is not in the table, compared exactly (see "## Left out") |
| AppRoutes.PathsDistinct | src/routes/AppRoutes.tsx:34-124 | no path appears twice in the table |
| AppRoutes.TableShape | src/routes/AppRoutes.tsx:35-123 | the index and the five login routes are public; the five panels are protected and each names its role |
| AppRoutes.PanelOfRole | src/routes/AppRoutes.tsx:84-123 | each role's panel is found at the path PublicRoute sends that role to, behind that role alone |
| AppRoutes.PanelAdmits | src/routes/AppRoutes.tsx:84-123 | a panel renders iff its role's slot is present, and otherwise redirects to "/" |
| AppRoutes.RolePanelBijection | src/routes/AppRoutes.tsx:84-123 | every protected route supplies a role, and role to protected route is total, injective and onto |
| AppRoutes.RootIsHome | src/routes/AppRoutes.tsx:35-42 | "/" is the public landing page |
| AppRoutes.PublicPagesOnlyWhenSignedOut | src/routes/AppRoutes.tsx:35-82 | the landing and login pages render exactly when no slot is present |
| AppRoutes.PublicRedirectIsAdmitted | src/routes/PublicRoute.tsx:12-16 | a signed-in visitor on a public page is sent to a panel whose required role is present, and that panel renders |
| AppRoutes.DenialLandsOnRoot | src/routes/ProtectedRoutes.tsx:48-50 | a refused visitor lands on "/", which shows Home when no slot is present and otherwise redirects once to a panel that renders |
| AppRoutes.NoRedirectLoop | src/routes/AppRoutes.tsx:34-124 | from any path in the table, at most two redirects reach a rendered page |
| Header.StoredUser | src/components/Header.tsx:12-17 | the `||` chain yields a truthy value exactly when some slot is present |
| Header.StoredUserFollowsOrder | src/components/Header.tsx:12-17 | the `||` chain selects the slot of the first present role in the order user, partner, manager, hr-manager, hr |
| Header.GetCurrentUser | src/components/Header.tsx:10-23 | the identity parsed from the first present slot in the header's order; none when no slot is present, and none without falling back when that slot fails to parse |
| Header.WithoutSessions | src/components/Header.tsx:29-31 | logout's storage: the five session keys are gone and every other key keeps its value |
| Header.HandleLogout | src/components/Header.tsx:27-34 | the loop removes the five keys in place, and the method then navigates to "/" |
| Header.LogoutIdempotent | src/components/Header.tsx:29-31 | logging out twice leaves the same storage as logging out once |
| Header.LogoutClearsCurrentUser | src/components/Header.tsx:12-31 | after logout no slot is present and there is no current user, however many slots were set |
| Header.DisplayName | src/components/Header.tsx:57-59 | the shown name is `Employee Name`, else `Partner Name`, else `name`, and a non-empty name is one of the identity's values |
| Header.SignedInAs | src/components/Header.tsx:47-59 | the name and the logout control appear iff there is a current user |
| Header.ResolutionDiffersFromRedirect | src/components/Header.tsx:12-17 | with the partner and manager slots set, the header shows the partner identity while PublicRoute sends the visitor to the manager panel |
| Api.ErrorText | src/pages/HrLoginPage.tsx:59-61 | the server's message when it is non-empty, else the fixed fallback |
| LeaveForm.SchemaErrors | src/components/LeaveForm.tsx:22-30 | the submission is valid iff employeeCode, fromDate and toDate are non-empty and the reason has 10 to 500 characters; each error holds iff its own check fails |
| LeaveForm.ReasonBoundaries | src/components/LeaveForm.tsx:26-29 | 9 characters fail, 10 and 500 pass, 501 fail |
| LeaveForm.DatesUnordered | src/components/LeaveForm.tsx:24-25 | once both dates are filled in, their values (a "from" after the "to" included) change no check |
| LeaveForm.GetUserData | src/components/LeaveForm.tsx:48-57 | the identity parsed from `user`, else from `hr-manager`; none when both are absent or the chosen one fails to parse |
| LeaveForm.GetUserDataIgnoresOtherSlots | src/components/LeaveForm.tsx:50-51 | the partner, manager and hr slots play no part |
| LeaveForm.LeaveFormState.Enter | src/components/LeaveForm.tsx:267-312 | typing changes the two dates and the reason, and never the employee code |
| LeaveForm.LeaveFormState.PrefillEmployeeCode | src/components/LeaveForm.tsx:73-77 | employeeCode is set from the identity's `Employee Code` only when that is present; otherwise the form is unchanged |
| LeaveForm.LeaveFormState.constructor | src/components/LeaveForm.tsx:61-69 | the form starts blank with no submission in flight |
| LeaveForm.LeaveFormState.Submit | src/components/LeaveForm.tsx:79-95 | a body is sent iff the schema accepts the values and no submission is in flight; it is the form's values, and sending it puts the submission in flight |
| LeaveForm.LeaveFormState.Settle | src/components/LeaveForm.tsx:79-88 | the submission is no longer in flight; on success the form is reset and onSuccess is called; on error the form is kept and onError is called |
| EmployeeLoginPage.RunDigits | src/pages/EmployeeLoginPage.tsx:16 | after n digits the automaton accepts further digits up to 15 in all, and dies on anything else |
| EmployeeLoginPage.RunMatchesPattern | src/pages/EmployeeLoginPage.tsx:16 | the automaton, run over the whole string, accepts exactly an optional leading `+` followed by 10 to 15 digits and nothing else |
| EmployeeLoginPage.RegexMatches | src/pages/EmployeeLoginPage.tsx:16 | the regex test holds exactly when the string is an optional `+` and 10 to 15 digits |
| EmployeeLoginPage.WhatsappError | src/pages/EmployeeLoginPage.tsx:12-17 | no message iff the number matches the pattern; the "required" message iff the field is empty |
| EmployeeLoginPage.PatternImpliesMinLength | src/pages/EmployeeLoginPage.tsx:15-16 | every accepted number has at least 10 characters, so `min(1)` is implied |
| EmployeeLoginPage.AcceptedExample | src/pages/EmployeeLoginPage.tsx:16 | `+919147389854` is accepted |
| EmployeeLoginPage.RejectedExamples | src/pages/EmployeeLoginPage.tsx:16 | 9 digits, 16 digits, a doubled `+` and an embedded letter are refused |
| EmployeeLoginPage.SubmitLogin | src/pages/EmployeeLoginPage.tsx:37-63 | an invalid number sends nothing; success writes only the `user` slot and targets the employee panel; failure writes nothing and shows the server message or the fallback |
| EmployeeLoginPage.TargetIsPanel | src/pages/EmployeeLoginPage.tsx:51 | the page's target `/employee-leave` is the path the public guard sends a `user` session to |
| EmployeeLoginPage.LoginOpensTarget | src/pages/EmployeeLoginPage.tsx:50-52 | after the `user` slot is written, navigating to the `user` panel renders the employee leave page |
| EmployeeLoginPage.LoginFromSignedOut | src/pages/EmployeeLoginPage.tsx:45 | from the signed-out state in which the login page is shown, a successful login leaves exactly the `user` slot present |
| HrLoginPage.SchemaErrors | src/pages/HrLoginPage.tsx:12-15 | the employee code is refused iff empty; the password is refused iff shorter than 5 characters |
| HrLoginPage.PasswordBoundary | src/pages/HrLoginPage.tsx:14 | with a code entered, 4 characters fail and 5 pass; with an empty code every password fails |
| HrLoginPage.SubmitLogin | src/pages/HrLoginPage.tsx:35-63 | an invalid form sends nothing; success writes only the `hr` slot and targets the HR panel; failure writes nothing and shows the server message or the fallback |
| HrLoginPage.TargetIsPanel | src/pages/HrLoginPage.tsx:50 | the page's target `/hr-panel` is the path the public guard sends an `hr` session to |
| HrLoginPage.LoginOpensTarget | src/pages/HrLoginPage.tsx:48-51 | after the `hr` slot is written, navigating to the `hr` panel renders the HR panel page |
| HrLoginPage.LoginFromSignedOut | src/pages/HrLoginPage.tsx:44 | from the signed-out state in which the login page is shown, a successful login leaves exactly the `hr` slot present |
| PartnerPanelPage.Badge | src/pages/PartnerPanelPage.tsx:120-126 | green iff Approved, red iff Rejected, yellow for every other status, Pending included |
| PartnerPanelPage.AtMostOneExpanded | src/pages/PartnerPanelPage.tsx:24 | at most one card is open, which the single optional id of `expandedCard` carries by its type |
| PartnerPanelPage.Toggled | src/pages/PartnerPanelPage.tsx:77-79 | an open card closes; otherwise the toggled card becomes the only open one |
| PartnerPanelPage.ToggleTwice | src/pages/PartnerPanelPage.tsx:77-79 | toggling one card twice restores the state when no other card was open |
| PartnerPanelPage.ToggleTwiceClosesOther | src/pages/PartnerPanelPage.tsx:77-79 | with another card open, toggling a card twice leaves all cards closed |
| PartnerPanelPage.CardActions | src/pages/PartnerPanelPage.tsx:196-224 | Reject and Approve appear only on the open card of a record whose status is exactly `Pending`; each sends that record's id with `Rejected` or `Approved`; both are disabled while a change is in flight |
| PartnerPanelPage.PartnerPanel.ToggleExpand | src/pages/PartnerPanelPage.tsx:77-79 | the open card becomes the toggled state of the old one |
| PartnerPanelPage.PartnerPanel.constructor | src/pages/PartnerPanelPage.tsx:24 | no card is open and no status change is in flight; the list is the fetched data |
| PartnerPanelPage.PartnerPanel.Requests | src/pages/PartnerPanelPage.tsx:196-222 | no request can be sent while a change is in flight; every request the enabled buttons send carries `Approved` or `Rejected` and the id of a listed record whose status is `Pending` |
| PartnerPanelPage.PartnerPanel.Press | src/pages/PartnerPanelPage.tsx:196-222 | a click on a listed record's card sends a request exactly when the card shows the buttons and no change is in flight; it carries the record's id and the button's status, is one of the panel's current `Requests()`, and puts the change in flight |
| PartnerPanelPage.PartnerPanel.OnStatusSettled | src/pages/PartnerPanelPage.tsx:48-74 | the change is no longer in flight; success asks for a re-fetch and edits neither the list nor the open card; failure shows the server message or the fallback |

## Left out

- Rendering, animation, icons and CSS are not modelled; they carry no decisions.
- react-router mechanics are not modelled: lazy loading, `Suspense`, and the
  `state={{ from: location }}` passed with the redirect. Only the paths and
  the decisions are.
- AppRoutes.Navigate: paths are matched exactly. No route sets
  `caseSensitive`, so react-router also matches a path that differs in letter
  case or has a trailing slash (`/HR-PANEL`, `/hr-panel/`); the model finds no
  route for those, and its lemmas speak only of the table's own spellings.
- HTTP, react-query caching and `staleTime` are not modelled. A request's
  outcome is a `Response` parameter.
- The partner's pending-leaves query (`getPartnerData` and the list fetch) is
  not modelled; the list is the `leaves` field the panel is given.
- Toasts on success and `console` output are not modelled. The delay before
  navigation after a login is not modelled either. The login effect records
  the success toast text and the target path.
- The login forms' own `reset()` after success is not modelled. Neither is the
  disabled login button while a login is in flight. The leave form's and the
  partner panel's in-flight flags are fields (`isPending`, `statusPending`).
- `JSON.parse` and `JSON.stringify` are not modelled. Parsing is a parameter;
  a stored payload is any non-empty string.
- Identity fields are modelled as strings only. A non-string JSON value is not
  distinguished from a missing one.
- String lengths count Dafny characters. JavaScript counts UTF-16 code units,
  so a character outside the Basic Multilingual Plane counts as one here and
  two there.
- The re-running of the pre-fill effect on each render is not modelled. It
  re-runs because `getUserData` returns a new object every time.
  `PrefillEmployeeCode` is an operation that can be applied at any time.
- Whatever the backend does with a status change is not modelled; this client
  has no transition rule for leave statuses beyond offering buttons on
  `Pending` records.
- `src/pages/Home.tsx`, `src/components/layout/AppLayout.tsx` and the two leave
  pages are not modelled. The leave pages only pass an endpoint and
  notification callbacks to the leave form.
