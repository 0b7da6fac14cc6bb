# Blood-donation site: verified model of its state logic

The site is a client-side mock of a blood-donation platform. Its landing page
lets a visitor sign in or register as a donor or a patient (the hospital role
exists, but no button on the page reaches it). A simulated sign-in then
replaces the page with that role's dashboard. This
project models the four pieces of the site that hold state or make decisions:

- **Blood-type selector** (`blood_type_selector.dfy`, module `BloodTypeSelector`).
  The closed set of eight ABO/Rh blood types, as a datatype (an ABO group and an
  Rh factor) together with the eight strings in the order they are listed and
  rendered. It also holds the selector's option list and the value its change
  callback receives. The hospital dashboard's tables use this datatype; the
  sign-in form keeps the selector's string.
- **Hospital dashboard** (`hospital_dashboard.dfy`, module `HospitalDashboard`).
  The inventory table and the pending-request table, with their seed data, as
  the two sequence fields of class `Dashboard`. Approving a request finds it by
  id. It then takes the request's units from every inventory row of its blood
  type, floored at zero, and drops every request with that id from the pending
  list. The derived figures are the critical-type count, the total-units sum and
  the pending count. The status-colour switch is modelled too.
- **Sign-in dialog** (`auth_dialog.dfy`, module `AuthDialog`). The eleven-field
  form record, the login/register flag set by the tabs, the submit decision (an
  error notification, or a scheduled success) and the per-role portal heading.
- **Page shell** (`index_page.dfy`, module `IndexPage`). The three state cells
  `authOpen`, `authType` and `isLoggedIn` as class `Page`. The same transitions
  are written as a pure step function over a state record. On top of that sit
  the rendered screen, and which events a rendered control can fire in each
  state. Lemmas over whole event sequences show that, once logged in, the page
  shows the same dashboard for ever. They also show that the hospital role
  cannot be reached from the wired buttons.

`wrappers.dfy` holds `Option` (the result of `find`), and `user_roles.dfy` holds
the donor/patient/hospital role type.

Two behaviours of the code worth stating:

- Approval decrements every inventory row of the request's blood type. In the
  seed data each type has exactly one row.
- The selector's incoming value is typed as any string and is never checked
  against the eight types. Only the values it emits are canonical.

## Model

| member | source | states |
|---|---|---|
| BloodTypeSelector.Name | src/components/shared/BloodTypeSelector.tsx:9 | a type's string is its ABO group followed by its Rh sign, ending in `+` or `-` |
| BloodTypeSelector.NameOfType | src/components/shared/BloodTypeSelector.tsx:9 | the string of each of the eight types, spelled out |
| BloodTypeSelector.BloodTypesAreNames | src/components/shared/BloodTypeSelector.tsx:9 | the list A+, A-, B+, B-, AB+, AB-, O+, O- is, position by position, the names of the eight group/Rh values in that order |
| BloodTypeSelector.BloodTypesDistinct | src/components/shared/BloodTypeSelector.tsx:9 | the list has exactly eight pairwise distinct entries |
| BloodTypeSelector.AllTypesComplete | src/components/shared/BloodTypeSelector.tsx:9 | every blood type value and its string occur in the list, so the list is the whole closed set |
| BloodTypeSelector.NameInjective | src/components/shared/BloodTypeSelector.tsx:9 | two types have equal strings exactly when they are equal, so string comparison of types is type equality |
| BloodTypeSelector.Parse | src/components/shared/BloodTypeSelector.tsx:9 | reading a string back yields a type whose name is that string, or nothing |
| BloodTypeSelector.ParseName | src/components/shared/BloodTypeSelector.tsx:9 | reading a type's string back gives the same type |
| BloodTypeSelector.ParseIffListed | src/components/shared/BloodTypeSelector.tsx:9 | a string reads as a blood type exactly when it is one of the eight listed strings |
| BloodTypeSelector.Options | src/components/shared/BloodTypeSelector.tsx:18-22 | eight options in list order, each with key, value and text equal to the type's string |
| BloodTypeSelector.Render | src/components/shared/BloodTypeSelector.tsx:4-13 | the view shows the incoming value unchanged, with no check against the set, beside the fixed options |
| BloodTypeSelector.RenderIgnoresValue | src/components/shared/BloodTypeSelector.tsx:13-22 | the options offered do not depend on the incoming value |
| BloodTypeSelector.Choose | src/components/shared/BloodTypeSelector.tsx:13-19 | picking option i sends the callback that option's value unchanged, which is the i-th listed type and a canonical blood type |
| HospitalDashboard.StatusColor | src/components/dashboard/HospitalDashboard.tsx:56-67 | Critical, Low and Normal each get their own colour; any other status, and only such a status, gets the grey default |
| HospitalDashboard.CountCritical | src/components/dashboard/HospitalDashboard.tsx:112 | the critical count is at most the number of rows, and is zero exactly when no row's status is "Critical" |
| HospitalDashboard.TotalUnits | src/components/dashboard/HospitalDashboard.tsx:143 | the total of rows that are all non-negative is non-negative |
| HospitalDashboard.Allocate | src/components/dashboard/HospitalDashboard.tsx:73-79 | allocation keeps the inventory's length |
| HospitalDashboard.AllocateAt | src/components/dashboard/HospitalDashboard.tsx:73-79 | row by row: a row of the request's type keeps type, status and expiry and gets max(0, units − requested units); every other row is unchanged, so order is kept |
| HospitalDashboard.AllocateNoMatch | src/components/dashboard/HospitalDashboard.tsx:73-79 | with no row of the request's type the inventory is unchanged, with no error |
| HospitalDashboard.AllocateNonNegative | src/components/dashboard/HospitalDashboard.tsx:76 | if every row was non-negative before approval, every row is non-negative after |
| HospitalDashboard.AllocateKeepsCriticalCount | src/components/dashboard/HospitalDashboard.tsx:73-79 | allocation never touches status, so the critical count is the same after it |
| HospitalDashboard.AllocateTotalNonIncreasing | src/components/dashboard/HospitalDashboard.tsx:73-79 | taking a non-negative number of units from non-negative rows never raises the total |
| HospitalDashboard.FindRequest | src/components/dashboard/HospitalDashboard.tsx:70 | a found request is pending and carries the id; nothing is found exactly when no pending request carries the id |
| HospitalDashboard.FindRequestIsFirst | src/components/dashboard/HospitalDashboard.tsx:70 | the found request is the first pending one with that id |
| HospitalDashboard.RemoveRequest | src/components/dashboard/HospitalDashboard.tsx:82 | the result holds exactly the pending requests whose id differs, is no longer, and is the same list when no request has the id |
| HospitalDashboard.RemoveRequestAppend | src/components/dashboard/HospitalDashboard.tsx:82 | removal distributes over concatenation, so survivors keep their relative order |
| HospitalDashboard.RemoveUniqueAt | src/components/dashboard/HospitalDashboard.tsx:82 | with unique ids, removing the id at position k deletes exactly that entry, so the pending count drops by one |
| HospitalDashboard.RemoveKeepsUnique | src/components/dashboard/HospitalDashboard.tsx:82 | removal keeps the ids unique |
| HospitalDashboard.SeedFacts | src/components/dashboard/HospitalDashboard.tsx:12-54 | the seed has unique request ids 1, 2, 3, non-negative units, positive requested units, three critical types and 80 units in total |
| HospitalDashboard.SeedApproveExample | src/components/dashboard/HospitalDashboard.tsx:69-89 | approving request 3 (one unit of B+) on the seed leaves 11 B+ units and two pending requests |
| HospitalDashboard.Dashboard.constructor | src/components/dashboard/HospitalDashboard.tsx:12-54 | the dashboard starts with the seed tables, which satisfy the invariant |
| HospitalDashboard.Dashboard.CriticalTypes | src/components/dashboard/HospitalDashboard.tsx:112 | the critical-types figure counts rows of the current inventory |
| HospitalDashboard.Dashboard.Total | src/components/dashboard/HospitalDashboard.tsx:143 | in a valid state the total-units figure is non-negative |
| HospitalDashboard.Dashboard.PendingCount | src/components/dashboard/HospitalDashboard.tsx:164 | the pending-count figure is zero exactly when no request is pending, and positive whenever some pending request can be found by id |
| HospitalDashboard.Dashboard.ApproveRequest | src/components/dashboard/HospitalDashboard.tsx:69-89 | an unknown id changes nothing; a known id allocates the found request's units from its type's rows and removes the id from the pending list; afterwards no pending request has the id, the critical count is unchanged, and in a valid state the invariant is kept, the total does not rise and the pending count drops by one |
| AuthDialog.FormData.With | src/components/auth/AuthDialog.tsx:37-39 | writing a field sets exactly that field and leaves the other ten as they were |
| AuthDialog.FormExtensional | src/components/auth/AuthDialog.tsx:22-34 | a form is determined by the texts of its eleven fields |
| AuthDialog.WithLaws | src/components/auth/AuthDialog.tsx:37-39 | writing a field's own text back changes nothing, and the later of two writes to one field wins |
| AuthDialog.WithCommutes | src/components/auth/AuthDialog.tsx:37-39 | writes to two different fields commute |
| AuthDialog.InitialFormFacts | src/components/auth/AuthDialog.tsx:22-34 | the initial form has blood type O+ (the name of group O, Rh positive) and every other field empty |
| AuthDialog.TabValue | src/components/auth/AuthDialog.tsx:115 | the shown tab is "login" or "register" |
| AuthDialog.ModeOfTab | src/components/auth/AuthDialog.tsx:115 | a tab change selects login mode exactly when the tab is "login" |
| AuthDialog.TabRoundTrip | src/components/auth/AuthDialog.tsx:115 | selecting the tab shown for a mode gives back that mode |
| AuthDialog.HandleSubmit | src/components/auth/AuthDialog.tsx:41-71 | success is scheduled exactly when email and password are non-empty and, in register mode, the password equals the confirmation; an empty email or password is the required-fields error; a register-mode mismatch is the password-mismatch error; the success notice depends on the mode |
| AuthDialog.SubmitReadsOnlyCredentials | src/components/auth/AuthDialog.tsx:45-61 | forms that agree on email, password and, in register mode, the confirmation get the same outcome: the confirmation is never read in login mode, and the other eight fields are never read |
| AuthDialog.RequiredCheckComesFirst | src/components/auth/AuthDialog.tsx:45-61 | an empty password with a differing confirmation reports the required-fields error, not the mismatch |
| AuthDialog.GetUserTypeInfo | src/components/auth/AuthDialog.tsx:73-97 | each role's heading is a title ending in " Portal", a non-empty tagline and one of the red, blue or green text colours |
| AuthDialog.UserTypeInfoDistinct | src/components/auth/AuthDialog.tsx:73-97 | two roles get the same portal title exactly when they are the same role |
| AuthDialog.Dialog.constructor | src/components/auth/AuthDialog.tsx:21-34 | the dialog starts in login mode with the initial form |
| AuthDialog.Dialog.HandleInputChange | src/components/auth/AuthDialog.tsx:37-39 | sets exactly the named field; the mode and every other field keep their values |
| AuthDialog.Dialog.HandleTabChange | src/components/auth/AuthDialog.tsx:115 | sets login mode exactly for the "login" tab and keeps the form |
| AuthDialog.Dialog.Submit | src/components/auth/AuthDialog.tsx:41-71 | submitting yields the submit decision for the current mode and form, and changes no state |
| IndexPage.Step | src/pages/Index.tsx:14-17 | the three handlers (lines 14-17, 209, 211-214): a click sets the role and opens the dialog, an open change sets only the dialog, success logs in and closes the dialog; no handler logs out and only a click changes the role |
| IndexPage.CanOccur | src/pages/Index.tsx:19-29 | only rendered controls fire events: clicks and open changes only while logged out, and clicks only for donor or patient (lines 27-28, 148, 156; the hospital callback is never called by the hero section, HeroSection.tsx:299-338); the timer's success callback may fire in any state; once logged in, success is the only possible event |
| IndexPage.View | src/pages/Index.tsx:19-21 | logged in, the page is the current role's dashboard and nothing else; logged out, it is the landing page with the dialog in its current open state and role |
| IndexPage.AfterSubmit | src/pages/Index.tsx:207-215 | after a submit plays out, the page is logged in exactly when it already was or the submit scheduled success; the role is unchanged; a success shows that role's dashboard |
| IndexPage.LoggedInIsFinal | src/pages/Index.tsx:19-21 | from a logged-in page, every possible run stays logged in with the same role and shows the same dashboard |
| IndexPage.NoHospitalFrom | src/pages/Index.tsx:27-29 | a role other than hospital stays other than hospital along every possible run, since the wired buttons pass only donor or patient |
| IndexPage.HospitalUnreachable | src/pages/Index.tsx:27-29 | from the initial page, the role is always donor or patient, and the hospital dashboard is never shown |
| IndexPage.Page.constructor | src/pages/Index.tsx:10-12 | the page starts with the dialog closed, role donor, not logged in |
| IndexPage.Page.Render | src/pages/Index.tsx:19-21 | the page renders `IndexPage.View` of its three state cells |
| IndexPage.Page.HandleAuthClick | src/pages/Index.tsx:14-17 | sets the role and opens the dialog; the login flag is unchanged |
| IndexPage.Page.OnOpenChange | src/pages/Index.tsx:209 | sets only whether the dialog is open |
| IndexPage.Page.OnSuccess | src/pages/Index.tsx:211-214 | logs in and closes the dialog; the role is unchanged |

## Left out

- The 1000 ms timer before a successful submit is not modelled. A scheduled success is an outcome value, and nothing is said about time. Submitting twice starts two timers; `IndexPage.CanOccur` lets the success callback fire in any state to cover that.
- Notifications are recorded only as the title, text and error flag that a submit outcome carries. The approval notification is left out; its text embeds a number, and `ApproveRequest` returns the approved request instead.
- `handleInputChange` accepts any field name string. The model takes one of the eleven field names, which is all the form's inputs ever pass. A key outside the record is not modelled.
- Browser validation is not modelled: the `required` and `type="number"` attributes on the inputs.
- The set of fields shown per mode and role is markup, and is not modelled.
- The Dialog, Tabs, Select and Card library components, React's re-rendering and CSS class strings are left out. The exceptions are the status colour switch and the selector's option list.
- The dashboard's other buttons only show notifications: request donors, schedule a drive, export reports.
- The donor and patient dashboards are not part of this model. Their lists are constants, and their handlers only notify.
- The logout reload and the role-to-dashboard switch are not part of this model. Logout is a full page reload. The model's `Screen` names the role whose dashboard is shown.
- The hero section's menus, hover, scroll and resize effects are not part of this model.
- Unit counts are unbounded integers. JavaScript numbers are floats, but every count the site handles is a small whole number.
