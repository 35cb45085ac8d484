# Employee management front end — a Dafny model

This project models the logic of a React single-page application for
employee activity and management (`frontend_web_app/src`):

- **Route gate** (`App.js`). Four public pages are shown to anyone. Every other
  location passes through `RequireAuth`, which sends a visitor with no user to
  `/login`. Six nested routes add `ProtectedRoute`, which sends a user whose
  `role` is not exactly the required string to `/`.
- **Navigation** (`Header.js`, `Sidebar.js`, `Navbar.js`). Each component maps
  the current user to an ordered list of links, with role-dependent links and a
  logout control last. Clicking a control performs a list of actions: clear the
  user, navigate, or call a prop callback.
- **User context** (`UserContext.js`). A single cell that holds the user object
  or nothing, written by `login`, `logout` and `setUser`; the last write wins.
- **API client** (`services/apiService.js`). Its configuration (base URL and a
  `parseInt` timeout with a fallback), a request interceptor that adds a bearer
  token from browser storage, and a response interceptor that clears the token
  and redirects on 401. It has three authentication calls and a work-log upload
  that builds a multipart body by a loop.
- **Employee details form** (`EmployeeDetailsForm.js`). The validator: required
  fields with fixed messages, an e-mail regular expression and a phone-digits
  regular expression, each given a character-level meaning and proved
  equivalent to it. It also covers the employee-number precedence, field edits
  with touched flags, and submit gating.
- **Employee table** (`pages/EmployeeManagement.js`). An admin check and
  in-memory append, replace-by-number and filter-delete over a sequence.
- **Sign-up** (`SignUpForm.jsx`). The password-confirmation guard, the
  registration payload (renamed fields, empty-to-null, hire date), and the
  loading flag and outcome messages around the register call.

JavaScript values are modelled by a small `Js` module. Objects are
`map<string, JsValue>`, and an absent key reads as `undefined`. A value is
truthy when it is a non-empty string. `Decimal` gives `String(n)` for a
non-negative integer and `parseInt(text)` without a radix, following section
19.2.5 of ECMA-262.

Where the code and its documentation differ, the model follows the code:

- A 401 answer to `/auth/login` or `/auth/register` goes through the response
  interceptor like any other call. It clears the stored token and redirects to
  `/login`.
- A login response carrying only `access_token` stores nothing, because the
  code reads `data.token`.
- The `*` catch-all route after the `/*` splat route never matches.

## Model

| member | source | states |
|---|---|---|
| Decimal.ToDecimal | frontend_web_app/src/components/EmployeeDetailsForm.js:45 | `String(n)` is a non-empty run of ASCII digits with no leading zero except for 0, one digit exactly when n < 10 |
| Decimal.DecimalLength | frontend_web_app/src/components/EmployeeDetailsForm.js:45 | a number in [10^(k-1), 10^k) has exactly k decimal digits |
| Decimal.ParseInt | frontend_web_app/src/services/apiService.js:6 | `parseInt` of text starting with a digit 1–9 is a positive number |
| Decimal.ParseIntOfDecimal | frontend_web_app/src/services/apiService.js:6 | `parseInt(String(n)) == n` for every non-negative n |
| Decimal.ParseIntNaN | frontend_web_app/src/services/apiService.js:6 | text starting with anything but white space, a sign or a digit reads as `NaN` |
| Decimal.ParseIntOfNumeral | frontend_web_app/src/services/apiService.js:6 | a plain numeral is read entirely, in radix 10 |
| RouteGate.RequireAuth | frontend_web_app/src/App.js:61-65 | renders children exactly when there is a user, otherwise redirects to `/login` |
| RouteGate.ProtectedRoute | frontend_web_app/src/App.js:91-98 | no user goes to `/login`; a user is allowed iff no role is required or `user.role` equals it strictly; otherwise `/` |
| RouteGate.Resolve | frontend_web_app/src/App.js:40-81 | outside the public pages, no user always means `/login`; every redirect goes to `/login` or `/` |
| RouteGate.NoUserGoesToLogin | frontend_web_app/src/App.js:45 | with no user, every non-public location redirects to `/login` |
| RouteGate.PublicPagesIgnoreUser | frontend_web_app/src/App.js:41-44 | `/login`, `/signup`, `/onboarding`, `/calendar` render whoever is logged in |
| RouteGate.NestedRouteDecision | frontend_web_app/src/App.js:70-80 | the full decision at each nested route: login redirect, unconditional page, or page iff the role matches, else `/` |
| RouteGate.AdminRouteSet | frontend_web_app/src/App.js:77-80 | exactly admin-panel, audit-trail, reporting and hierarchy require "admin" |
| RouteGate.ManagerRouteSet | frontend_web_app/src/App.js:75-76 | exactly team-review and leave-approvals require "manager" |
| RouteGate.LoginOnlyRouteSet | frontend_web_app/src/App.js:71-74 | exactly the index, work-log, leave-requests and notifications need only a login |
| RouteGate.WrongRoleSentHome | frontend_web_app/src/App.js:94-96 | a logged-in user whose `role` differs from the route's role is sent to `/` |
| RouteGate.NoRoleHierarchy | frontend_web_app/src/App.js:75-80 | an admin is sent home from manager screens and a manager from admin screens |
| RouteGate.RolelessUserSentHome | frontend_web_app/src/App.js:94-96 | a user object without `role` is sent to `/` from every role-protected route |
| UserContext.Written | frontend_web_app/src/contexts/UserContext.js:17-23 | login stores the object as given, logout stores nothing, setUser stores its argument |
| UserContext.LastWriteWins | frontend_web_app/src/contexts/UserContext.js:14-26 | after any non-empty sequence of writes the cell holds what the last write stored |
| UserContext.LogoutClears | frontend_web_app/src/contexts/UserContext.js:21-23 | logout after any history leaves no user, and is idempotent |
| UserContext.UserProvider.constructor | frontend_web_app/src/contexts/UserContext.js:14 | the cell starts empty |
| UserContext.UserProvider.Login | frontend_web_app/src/contexts/UserContext.js:17-19 | the cell holds exactly the given object |
| UserContext.UserProvider.Logout | frontend_web_app/src/contexts/UserContext.js:21-23 | the cell is emptied |
| UserContext.UserProvider.SetUser | frontend_web_app/src/contexts/UserContext.js:26 | the cell holds exactly the given value |
| UserContext.SignInUser | frontend_web_app/src/components/SignInForm.jsx:21-24 | the object the sign-in form logs in with has e-mail and password and no `role` |
| Navigation.Header | frontend_web_app/src/components/Header.js:20-137 | nothing without a user; otherwise the five base links, the role's links, and Logout last |
| Navigation.SidebarLogoutButton | frontend_web_app/src/components/Sidebar.js:126-148 | the sidebar logout renders only for a user and only calls `logout` |
| Navigation.Sidebar | frontend_web_app/src/components/Sidebar.js:11-121 | nothing without a user; 8, 11 or 6 entries for manager, admin or other; head, role links, tail, logout |
| Navigation.Navbar | frontend_web_app/src/components/Navbar.js:13-114 | nothing iff no user; hamburger iff closed; the toggle calls `onToggle`; closed shows no links; open shows the eight fixed links Dashboard … Notifications, then logout |
| Navigation.TeamReviewPlacement | frontend_web_app/src/components/Header.js:62-80 | Team Review is listed among the manager links and nowhere else |
| Navigation.AdminPanelPlacement | frontend_web_app/src/components/Header.js:82-122 | Admin Panel is listed among the admin links and nowhere else |
| Navigation.HeaderRoleLinks | frontend_web_app/src/components/Header.js:62-122 | the header shows Team Review iff the user is a manager and Admin Panel iff an admin |
| Navigation.SidebarRoleLinks | frontend_web_app/src/components/Sidebar.js:39-101 | the same for the sidebar |
| Navigation.RoleLinksExclusive | frontend_web_app/src/components/Header.js:62-82 | manager and admin links never appear together |
| Navigation.HeaderLogoutOnlyAtEnd | frontend_web_app/src/components/Header.js:126-136 | the header's only logout control is its last entry |
| Navigation.NavbarIgnoresRole | frontend_web_app/src/components/Navbar.js:66-112 | the navbar shows the same entries for every role |
| Navigation.HeaderLogoutShowsLogin | frontend_web_app/src/components/Header.js:128-132 | header logout clears the user, moves to `/login`, and the login page renders |
| Navigation.SidebarLogoutStays | frontend_web_app/src/components/Sidebar.js:132 | sidebar logout clears the user without navigating; a protected location then redirects to `/login` |
| Navigation.NavbarLogoutNotifies | frontend_web_app/src/components/Navbar.js:110 | navbar logout clears the user and calls `onNavigate` once |
| ApiService.BaseUrl | frontend_web_app/src/services/apiService.js:5 | the configured URL when non-empty, otherwise `http://localhost:8000` |
| ApiService.ApiTimeout | frontend_web_app/src/services/apiService.js:6 | never 0; any non-zero number `parseInt` reads from the setting (an unset one reads as "undefined") is used, and `NaN` or 0 gives 10000 |
| ApiService.ApiTimeoutOfNumeral | frontend_web_app/src/services/apiService.js:6 | a positive decimal setting is used as is |
| ApiService.ApiTimeoutUnset | frontend_web_app/src/services/apiService.js:6 | an unset timeout reads as "undefined", which is `NaN`, so 10000 applies |
| ApiService.ApiTimeoutZeroOrEmpty | frontend_web_app/src/services/apiService.js:6 | "0" and "" both give 10000 |
| ApiService.Settle | frontend_web_app/src/services/apiService.js:33-43 | a call resolves with the response data iff the status is 2xx, and otherwise rejects with the error |
| ApiService.WithAuth | frontend_web_app/src/services/apiService.js:18-26 | `Authorization: Bearer <token>` is added iff a non-empty token is stored; no other header changes |
| ApiService.AfterResponse | frontend_web_app/src/services/apiService.js:37-41 | a 401 removes exactly the token key from storage; any other outcome leaves storage as it was |
| ApiService.PresentFieldsAppend | frontend_web_app/src/services/apiService.js:94-99 | the upload keeps the fields' order (filtering distributes over concatenation) |
| ApiService.PresentFieldsMembership | frontend_web_app/src/services/apiService.js:94-99 | a pair is uploaded iff the object holds that key with that string value |
| ApiService.BuildFormData | frontend_web_app/src/services/apiService.js:94-99 | the loop appends exactly the non-null, non-undefined fields, in order |
| ApiService.ApiClient.constructor | frontend_web_app/src/services/apiService.js:9-15 | a client over the given storage with nothing sent and no redirect |
| ApiService.ApiClient.Send | frontend_web_app/src/services/apiService.js:18-44 | the request leaves with the interceptor's headers; the promise settles by status; a 401 clears the token and redirects to `/login` |
| ApiService.ApiClient.Login | frontend_web_app/src/services/apiService.js:54-60 | posts the credentials; stores `data.token` iff the post succeeded and it is truthy; otherwise only the 401 rule touches storage |
| ApiService.ApiClient.Logout | frontend_web_app/src/services/apiService.js:66-72 | posts, and removes the token whether or not the post succeeded |
| ApiService.ApiClient.Register | frontend_web_app/src/services/apiService.js:79-82 | posts the payload; storage changes only through the 401 rule |
| ApiService.ApiClient.SubmitLog | frontend_web_app/src/services/apiService.js:93-107 | posts the present fields as a multipart body |
| ApiService.LoginThenRequest | frontend_web_app/src/services/apiService.js:54-58 | after a login, the next request carries `Bearer <token>` iff the response had a truthy `token`; otherwise its headers are what the earlier storage gave |
| ApiService.LogoutThenRequest | frontend_web_app/src/services/apiService.js:66-71 | after any logout the next request carries no bearer header |
| ApiService.UnauthorizedThenRequest | frontend_web_app/src/services/apiService.js:37-41 | after a 401 the page is sent to `/login` and the next request carries no bearer header |
| EmployeeForm.EmailRegexMeaning | frontend_web_app/src/components/EmployeeDetailsForm.js:56-57 | the e-mail pattern matches iff the text has no white space, exactly one `@` with text before it, and a `.` inside the domain with text on both sides |
| EmployeeForm.EmailRegexHasShape | frontend_web_app/src/components/EmployeeDetailsForm.js:56 | any match of the pattern has that shape |
| EmployeeForm.ShapeIsEmailRegex | frontend_web_app/src/components/EmployeeDetailsForm.js:56 | any text of that shape matches the pattern |
| EmployeeForm.StripNonDigits | frontend_web_app/src/components/EmployeeDetailsForm.js:59 | stripping `\D` leaves only ASCII digits and never lengthens the text |
| EmployeeForm.StripLength | frontend_web_app/src/components/EmployeeDetailsForm.js:59 | the stripped text has one character per digit position of the original |
| EmployeeForm.PhoneRegexMeaning | frontend_web_app/src/components/EmployeeDetailsForm.js:58-60 | the phone check passes iff the text holds 10 to 15 ASCII digits |
| EmployeeForm.StripAppend | frontend_web_app/src/components/EmployeeDetailsForm.js:59 | stripping distributes over concatenation |
| EmployeeForm.NonDigitIgnored | frontend_web_app/src/components/EmployeeDetailsForm.js:59 | inserting a non-digit anywhere changes neither the stripped text nor the verdict |
| EmployeeForm.Validate | frontend_web_app/src/components/EmployeeDetailsForm.js:52-70 | errors only for the 11 fields (never `address` or `empNo`); each empty one gets its fixed message; filled fields other than e-mail and phone never err |
| EmployeeForm.ValidateEmail | frontend_web_app/src/components/EmployeeDetailsForm.js:55-57 | a filled e-mail errs iff it lacks the accepted shape, with "Invalid email format" |
| EmployeeForm.ValidatePhone | frontend_web_app/src/components/EmployeeDetailsForm.js:58-60 | a filled phone errs iff it does not hold 10 to 15 digits, with "Enter valid phone number" |
| EmployeeForm.ValidatePerField | frontend_web_app/src/components/EmployeeDetailsForm.js:52-70 | changing one field never changes another field's error |
| EmployeeForm.ValidIff | frontend_web_app/src/components/EmployeeDetailsForm.js:52-70 | a form has no errors iff all 11 fields are filled, the e-mail has the shape and the phone has 10–15 digits |
| EmployeeForm.EmptyFormErrors | frontend_web_app/src/components/EmployeeDetailsForm.js:23-37 | the opening form has an error on each of the 11 validated fields |
| EmployeeForm.GeneratedEmpNo | frontend_web_app/src/components/EmployeeDetailsForm.js:45 | a generated number is "EMP" followed by six digits that read back as the random number |
| EmployeeForm.ChooseEmpNo | frontend_web_app/src/components/EmployeeDetailsForm.js:45 | initial number, then `genEmpNo`, then the current number, otherwise a generated one; never empty |
| EmployeeForm.EmpNoLockedForSession | frontend_web_app/src/components/EmployeeDetailsForm.js:41-49 | once the form has a number, reopening with no supplied number keeps it whatever the random draw |
| EmployeeForm.FieldHasError | frontend_web_app/src/components/EmployeeDetailsForm.js:52-70 | a field errs iff it is one of the 11, and it is empty, or it is a malformed e-mail, or a phone without 10–15 digits |
| EmployeeForm.DetailsForm.constructor | frontend_web_app/src/components/EmployeeDetailsForm.js:23-49 | mounting: thirteen empty fields, then the opening effect spreads `initial` and sets a non-empty number; nothing touched, nothing saved |
| EmployeeForm.DetailsForm.SubmitDisabled | frontend_web_app/src/components/EmployeeDetailsForm.js:373 | submit is disabled iff some validated field is empty, the e-mail lacks the shape, or the phone lacks 10–15 digits |
| EmployeeForm.DetailsForm.ErrorShown | frontend_web_app/src/components/EmployeeDetailsForm.js:181-182 | a field's message shows iff it was touched and it is an empty validated field, a malformed e-mail or a phone without 10–15 digits |
| EmployeeForm.DetailsForm.Open | frontend_web_app/src/components/EmployeeDetailsForm.js:41-49 | the initial values are spread over the form and the number is chosen; touched flags are kept |
| EmployeeForm.DetailsForm.OnFieldChange | frontend_web_app/src/components/EmployeeDetailsForm.js:77-80 | never the read-only number (line 159); sets only that field and touches only it; that field's error shows iff it has one; every other field's display is unchanged |
| EmployeeForm.DetailsForm.HandleSubmit | frontend_web_app/src/components/EmployeeDetailsForm.js:82-89 | `onSave(form)` runs iff a callback exists and the form has no errors (iff submit is enabled); only validated forms are ever saved |
| EmployeeManagement.Replaced | frontend_web_app/src/pages/EmployeeManagement.js:55-57 | same length; each record with the edited number becomes the new record, others stay |
| EmployeeManagement.Removed | frontend_web_app/src/pages/EmployeeManagement.js:63 | deleting never lengthens the table |
| EmployeeManagement.AddKeepsDuplicates | frontend_web_app/src/pages/EmployeeManagement.js:50 | adding performs no duplicate check: the number occurs once more |
| EmployeeManagement.InitialTableAcceptsDuplicate | frontend_web_app/src/pages/EmployeeManagement.js:14-50 | adding another EMP001 to the initial table leaves two EMP001 records |
| EmployeeManagement.ReplaceAbsent | frontend_web_app/src/pages/EmployeeManagement.js:55-57 | editing with a number no record has changes nothing |
| EmployeeManagement.ReplaceKeepsCount | frontend_web_app/src/pages/EmployeeManagement.js:55-57 | editing keeps the number of records with that number |
| EmployeeManagement.RemovedAppend | frontend_web_app/src/pages/EmployeeManagement.js:63 | deleting keeps the relative order of the remaining records |
| EmployeeManagement.RemovedExactly | frontend_web_app/src/pages/EmployeeManagement.js:63 | all records with the number go, and exactly the others stay |
| EmployeeManagement.HasAccess | frontend_web_app/src/pages/EmployeeManagement.js:37 | access needs a user whose `role` is a text (never `undefined` or `null`); `AccessGranted` states which texts, in both directions |
| EmployeeManagement.AccessGranted | frontend_web_app/src/pages/EmployeeManagement.js:37 | a user whose `role` is a text gets in iff it is exactly "admin" or "Administrator" |
| EmployeeManagement.AccessRoleSpellings | frontend_web_app/src/pages/EmployeeManagement.js:37 | no user, a user without `role`, and role "Admin" are all refused |
| EmployeeManagement.InitialTable | frontend_web_app/src/pages/EmployeeManagement.js:14-35 | the table starts with EMP001 then EMP002 |
| EmployeeManagement.FormRecordsHaveNumbers | frontend_web_app/src/components/EmployeeDetailsForm.js:41-49 | every record a details form has handed to `onSave` has a non-empty `empNo` |
| EmployeeManagement.EmployeeManagementPage.constructor | frontend_web_app/src/pages/EmployeeManagement.js:12-35 | the context user, the initial table, add form closed, nothing being edited |
| EmployeeManagement.EmployeeManagementPage.Rendered | frontend_web_app/src/pages/EmployeeManagement.js:37-47 | the refusal message iff the user lacks access, otherwise the table in order; the handlers below all require access, since their controls render only then |
| EmployeeManagement.EmployeeManagementPage.OpenAddForm | frontend_web_app/src/pages/EmployeeManagement.js:74 | opens the add form and changes nothing else |
| EmployeeManagement.EmployeeManagementPage.CancelAdd | frontend_web_app/src/pages/EmployeeManagement.js:132 | closes the add form and changes nothing else |
| EmployeeManagement.EmployeeManagementPage.StartEdit | frontend_web_app/src/pages/EmployeeManagement.js:109 | selects the record to edit and changes nothing else |
| EmployeeManagement.EmployeeManagementPage.CancelEdit | frontend_web_app/src/pages/EmployeeManagement.js:142 | clears the record being edited and changes nothing else |
| EmployeeManagement.EmployeeManagementPage.HandleAddEmployee | frontend_web_app/src/pages/EmployeeManagement.js:49-52 | appends at the end, keeps the rest in order, closes the add form |
| EmployeeManagement.EmployeeManagementPage.HandleEditEmployee | frontend_web_app/src/pages/EmployeeManagement.js:54-59 | replaces by number, keeps the length, clears the edited record |
| EmployeeManagement.EmployeeManagementPage.HandleDeleteEmployee | frontend_web_app/src/pages/EmployeeManagement.js:61-65 | filters by number when confirmed; changes nothing otherwise |
| SignUp.OrNull | frontend_web_app/src/components/SignUpForm.jsx:43-44 | an empty text becomes `null`, any other passes through |
| SignUp.HireDate | frontend_web_app/src/components/SignUpForm.jsx:45 | the prefix before the first `T` (all of the text when there is none) |
| SignUp.HireDateOfTimestamp | frontend_web_app/src/components/SignUpForm.jsx:45 | the hire date of `<date>T<time>` is `<date>` |
| SignUp.RegistrationPayload | frontend_web_app/src/components/SignUpForm.jsx:37-46 | exactly the eight backend keys; no confirmation and no camel-case names; nothing undefined |
| SignUp.PayloadRoundTrip | frontend_web_app/src/components/SignUpForm.jsx:37-46 | for matching passwords the form fields can be read back from the payload |
| SignUp.PayloadFields | frontend_web_app/src/components/SignUpForm.jsx:37-45 | the names are renamed, e-mail, password and role are copied, and department and position are null iff empty |
| SignUp.FailureMessage | frontend_web_app/src/components/SignUpForm.jsx:54 | the backend `detail` when truthy, otherwise the default failure text |
| SignUp.SignUpForm.constructor | frontend_web_app/src/components/SignUpForm.jsx:11-21 | empty fields with role "employee", not loading |
| SignUp.SignUpForm.BeginSignUp | frontend_web_app/src/components/SignUpForm.jsx:28-46 | mismatched passwords alert and change nothing else, loading included; otherwise loading is raised and the payload is built |
| SignUp.SignUpForm.FinishSignUp | frontend_web_app/src/components/SignUpForm.jsx:48-58 | register is posted; success alerts and navigates to `/login`, failure alerts the message; loading is lowered either way |
| SignUp.SignUpForm.DoSignUp | frontend_web_app/src/components/SignUpForm.jsx:24-59 | the whole submit: nothing is sent on a mismatch; otherwise exactly one register request, then the outcome's alert and navigation, and the 401 redirect to `/login`, and loading ends false |

## Left out

- React Router matching is modelled on exact paths. Case-insensitive matching and trailing slashes are not modelled.
- Browser storage, `window.location`, `alert`, `navigate` and `window.confirm` are fields or parameters of the model. The network is an outcome given to each call, and the current time is an ISO text given to the sign-up.
- `Math.random` is a parameter restricted to [100000, 999999], the range `Math.floor(100000 + Math.random() * 900000)` produces. Floating point is not modelled.
- The interleaving of requests in flight is not modelled. Each call completes before the next starts, so `DoSignUp` runs both halves of its `await` back to back. The state between `BeginSignUp` and `FinishSignUp` is the in-flight state.
- The employee page takes the context user once, when it is created. A later change of user re-renders the page in the source; here it needs a new page.
- `useEffect` timing and the ESC-key listener of the details form are not modelled. `errors` is the derived value `validate(form)`.
- The remaining API wrappers (`getLogs`, `updateLog`, the employee, leave and report calls) are one-line axios calls with no logic of their own. They are not part of this model; `ApiClient.Send` covers what they share.
- Presentational pages, `Footer.js`, `LocalizationSwitcher.js` and the static text of `Dashboard.js` carry no logic. They are not part of this model.
- The per-field `onChange` setters of the sign-up form are not modelled; each replaces one field of the form object.
- JavaScript values other than strings, `null` and `undefined` are not modelled. This covers numbers in the employee records, an array `detail` in a failure response, and non-string form values.
- Decimal.ParseInt: does not model the precision loss of `parseInt` on numerals beyond 2^53.
- ApiService.ApiClient.SubmitLog: the order of `Object.keys` is the sequence the caller gives. JavaScript's rule of listing integer-like keys first is not modelled.
- The dropdown lists of the details form (departments, designations, roles, locations) are rendering only. Validation checks only that a value is non-empty.
