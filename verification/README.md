# Tenanto record-keeping layer in Dafny

Tenanto is a browser-only property-management demo. Landlords register and log
in, assign tenants, record rent payments and flip a simulated power switch per
tenant. All of its state sits in the browser's local storage under the keys
`tenants`, `users` and `currentUser`, stored as JSON. This project models the
part of the application that makes decisions about that state:

- the tenant list view (`TenantDetails`). It loads the stored tenants and fills
  in defaults for fields that older records lack. It deletes tenants, flips a
  tenant's power flag, and adds or deletes payment rows. After every change it
  writes the whole in-memory list back to storage.
- the tenant assignment form (`AssignTenant`). It checks that the required
  fields are filled in, appends one record to the stored list and resets itself.
- the registration form (`Register`). It refuses empty fields and an email that
  is already registered, and otherwise appends one account.
- the login form (`Login`). It looks for the first account whose name, password
  and role all match, and stores that account as the current session.

Layout, one module per source file plus two shared modules:

- `options.dfy` (`Options`): an optional value. It stands for a missing JSON
  field or an empty storage slot.
- `lists.dfy` (`Lists`): the two array primitives the components use.
  `RemoveAt` is `splice(i, 1)` and `FindIndex` is `find`.
- `storage.dfy` (`Storage`): the stored records and the class `LocalStorage`,
  which holds the three keys. Every component object keeps a reference to the
  one shared `LocalStorage`, as every page shares the browser's store.
- `tenant_details.dfy` (`Tenants`), `assign_tenant.dfy` (`Assignment`),
  `register.dfy` (`Registration`), `login.dfy` (`Session`): one class per
  component. The class fields are the component's state. Each event handler is a
  method that changes those fields and the storage fields it writes, and no
  others.

Modelling choices:

- JSON encoding is abstracted away. A stored tenant (`StoredTenant`) has
  optional emergency contact, emergency phone, transactions and power fields.
  A tenant in memory (`Tenant`) always has all of them. Writing the list back
  (`Persist`) stores every field.
- A JavaScript "truthy" string is a non-empty string. `value || default` on a
  missing or empty string gives the default. `value ?? true` gives `true` only
  for a missing or null value, so a stored `false` stays `false`.
- The answer to `window.confirm` is a parameter (`confirmed`). Each `alert` is a
  returned status (`deleted`, `added`, `submitted`, `RegisterOutcome`,
  `loggedIn`). `navigate` has no effect on the stored state and is left out.
- The selectors only offer fixed values: rent plan "1month"/"2month", grace
  period "7"/"14", role "landlord"/"admin", payment status "Paid"/"Overdue".
  Each selector's method requires one of those values. Each class's `Valid()`
  keeps its selector fields within them.
- `togglePower`, `addTransaction` (once the draft is complete) and the row delete
  button read `updated[index]`. In JavaScript that throws when `index` is out of
  range, so these methods require a valid tenant index. The view only passes
  indices of rendered rows. `splice` with an index past the end removes nothing,
  and `RemoveAt` models that.
- `togglePower` and `addTransaction` copy the array but then change tenant
  objects that the old state shares. The net effect on the state is the same as
  the value update modelled here.
- A confirmed tenant delete with an index past the end removes no tenant. It
  still reports success and still rewrites the `tenants` key with the in-memory
  list, defaults filled in (src/components/TenantDetails.tsx:42-47). A failed
  login keeps the previous session.

## Model

| member | source | states |
|---|---|---|
| `Lists.RemoveAt` | src/components/TenantDetails.tsx:44 | `splice(i, 1)` with `i` in range yields a list one shorter, with the elements before `i` kept and the ones after it moved down by one; with `i` past the end the list is unchanged |
| `Lists.RemoveLastAfterAppend` | src/components/TenantDetails.tsx:136 | removing the element at index `|s|` of `s + [x]` gives back `s` |
| `Lists.FindIndex` | src/components/ui/Login.jsx:13-15 | `find` stops at the first element satisfying the predicate: the result is in range and satisfies it, no earlier element does, and there is no result exactly when no element satisfies it |
| `Storage.LocalStorage.constructor` | src/components/TenantDetails.tsx:30 | a fresh store has no tenants, no users and no session; a missing key reads as an empty list |
| `Tenants.LoadTenant` | src/components/TenantDetails.tsx:31-37 | loading keeps name, phone, rent, start date, rent plan and grace period. A missing or empty emergency contact becomes "Wife" and a missing or empty emergency phone becomes "+255747822160"; non-empty values are kept. Missing transactions become []. Power is true unless the stored value is `false`. Both emergency fields of the result are non-empty |
| `Tenants.LoadTenants` | src/components/TenantDetails.tsx:30-38 | loading the stored list keeps its length and order; element k is stored record k with the defaults filled in |
| `Tenants.PersistTenant` | src/components/TenantDetails.tsx:46 | writing a tenant back stores all ten fields; loading the written record gives back the tenant whenever its emergency fields are non-empty |
| `Tenants.Persist` | src/components/TenantDetails.tsx:46 | the written list has one record per in-memory tenant, in the same order |
| `Tenants.ReloadRoundTrip` | src/components/TenantDetails.tsx:30-38 | for a list as loading leaves it, loading what was written back gives exactly that list |
| `Tenants.WithPowerToggled` | src/components/TenantDetails.tsx:52-53 | tenant i's power flag is negated, its other fields are kept, every other tenant is unchanged and the length is the same |
| `Tenants.TogglePowerInvolution` | src/components/TenantDetails.tsx:51-55 | toggling the same tenant twice restores the original list |
| `Tenants.WithTransaction` | src/components/TenantDetails.tsx:64-65 | tenant i gets one more payment row. Its earlier rows are unchanged and the new last row is the draft. Its other fields and all other tenants are unchanged |
| `Tenants.WithoutTransaction` | src/components/TenantDetails.tsx:135-136 | tenant i's rows become `splice(j, 1)` of its rows. Its other fields and all other tenants are unchanged. An index past the end changes nothing |
| `Tenants.AddThenDeleteTransactionRestores` | src/components/TenantDetails.tsx:134-138 | adding a row to tenant i and then deleting that tenant's last row restores the list |
| `Tenants.TenantDetails.constructor` | src/components/TenantDetails.tsx:26-39 | on mount the in-memory list is the loaded stored list and the draft is {date: "", status: "Paid", amount: ""} |
| `Tenants.TenantDetails.DeleteTenant` | src/components/TenantDetails.tsx:41-49 | a confirmed delete removes exactly tenant `index` (splice) and writes the new list to storage. An unconfirmed delete changes neither the view nor storage. The success notice appears exactly when confirmed |
| `Tenants.TenantDetails.TogglePower` | src/components/TenantDetails.tsx:51-56 | only tenant `index`'s power flag flips, and storage then holds the written in-memory list |
| `Tenants.TenantDetails.AddTransaction` | src/components/TenantDetails.tsx:59-69 | it succeeds exactly when the draft's date and amount are non-empty. On failure the tenants, the draft and storage are unchanged. On success a copy of the draft is appended to tenant `index`'s rows, storage holds the written list and the draft is reset |
| `Tenants.TenantDetails.DeleteTransaction` | src/components/TenantDetails.tsx:134-139 | row `txIndex` of tenant `index` is removed by splice, nothing else changes, and storage holds the written list |
| `Tenants.TenantDetails.SetTxDate` | src/components/TenantDetails.tsx:156 | only the draft's date changes |
| `Tenants.TenantDetails.SetTxStatus` | src/components/TenantDetails.tsx:158-165 | only the draft's status changes, and it stays "Paid" or "Overdue" |
| `Tenants.TenantDetails.SetTxAmount` | src/components/TenantDetails.tsx:171 | only the draft's amount changes |
| `Assignment.AssignedRecord` | src/components/AssignTenant.tsx:24 | the pushed record holds the six form fields and has no emergency, transaction or power field |
| `Assignment.AssignedTenantLoadsWithDefaults` | src/components/AssignTenant.tsx:24 | an assigned record, once loaded by the tenant list view, has emergency contact "Wife", phone "+255747822160", no payment rows and power on |
| `Assignment.AssignTenant.constructor` | src/components/AssignTenant.tsx:9-14 | the form starts with empty text fields, rent plan "1month" and grace period "7" |
| `Assignment.AssignTenant.SetName` | src/components/AssignTenant.tsx:44 | the name field takes the typed value |
| `Assignment.AssignTenant.SetPhone` | src/components/AssignTenant.tsx:45 | the phone field takes the typed value |
| `Assignment.AssignTenant.SetRent` | src/components/AssignTenant.tsx:46 | the rent field takes the typed value |
| `Assignment.AssignTenant.SetStartDate` | src/components/AssignTenant.tsx:51-56 | the start date field takes the picked value |
| `Assignment.AssignTenant.SetRentPlan` | src/components/AssignTenant.tsx:59-62 | the rent plan becomes the picked option and stays "1month" or "2month" |
| `Assignment.AssignTenant.SetGracePeriod` | src/components/AssignTenant.tsx:63-66 | the grace period becomes the picked option and stays "7" or "14" |
| `Assignment.AssignTenant.HandleSubmit` | src/components/AssignTenant.tsx:17-38 | it succeeds exactly when name, phone, rent and start date are all non-empty. On failure neither the form nor the stored tenants change. On success exactly one record is appended at the end of the stored list, the earlier records are kept in order, and the form is reset to its defaults |
| `Registration.FindByEmail` | src/components/ui/Register.jsx:15 | the duplicate lookup finds an account with the given email, and finds none exactly when no stored account has it |
| `Registration.RegisterKeepsEmailsDistinct` | src/components/ui/Register.jsx:15-21 | appending an account whose email the lookup does not find keeps the stored emails pairwise distinct |
| `Registration.DuplicateCheckUsesEmailOnly` | src/components/ui/Register.jsx:15 | two account lists with the same emails in the same order get the same duplicate verdict, whatever their names, passwords and roles |
| `Registration.Register.constructor` | src/components/ui/Register.jsx:6-9 | the form starts with empty fields and role "landlord" |
| `Registration.Register.SetName` | src/components/ui/Register.jsx:42 | the name field takes the typed value |
| `Registration.Register.SetEmail` | src/components/ui/Register.jsx:52 | the email field takes the typed value |
| `Registration.Register.SetPassword` | src/components/ui/Register.jsx:62 | the password field takes the typed value |
| `Registration.Register.SetRole` | src/components/ui/Register.jsx:69-76 | the role becomes the picked option and stays "landlord" or "admin" |
| `Registration.Register.HandleRegister` | src/components/ui/Register.jsx:11-28 | an empty name, email or password leaves the accounts unchanged. An email already stored leaves them unchanged. Otherwise exactly one {name, email, password, role} is appended at the end. Stored emails stay pairwise distinct |
| `Session.FindUser` | src/components/ui/Login.jsx:13-15 | the login lookup gives the first account whose name, password and role equal the inputs, and none exactly when no account matches |
| `Session.SessionAfterLogin` | src/components/ui/Login.jsx:17-19 | with no matching account the session is unchanged; otherwise it is the first matching account in list order |
| `Session.LoginIdempotent` | src/components/ui/Login.jsx:13-19 | repeating a login with the same inputs leaves the session that the first login set |
| `Session.LoginIgnoresEmail` | src/components/ui/Login.jsx:14 | account lists that differ only in their emails give the same matching account index |
| `Session.Login.constructor` | src/components/ui/Login.jsx:6-8 | the form starts with empty name and password and role "landlord" |
| `Session.Login.SetName` | src/components/ui/Login.jsx:39 | the name field takes the typed value |
| `Session.Login.SetPassword` | src/components/ui/Login.jsx:49 | the password field takes the typed value |
| `Session.Login.SetRole` | src/components/ui/Login.jsx:56-63 | the role becomes the picked option and stays "landlord" or "admin" |
| `Session.Login.HandleLogin` | src/components/ui/Login.jsx:10-25 | it succeeds exactly when some stored account matches name, password and role. On success the session is the first matching account; on failure the session is unchanged. The account list is never modified |

## Left out

- JSON encoding and decoding: storage holds typed records. The source does not catch parse errors, so no recovery from corrupt data is modelled.
- `window.confirm`, `alert`, `navigate` and React re-rendering: the confirmation is a parameter, alerts are returned statuses, and navigation does not change stored state.
- Fields of stored records beyond the ten tenant fields and four user fields: the object spread on load would keep them, but no component writes any.
- The grace period countdown: the grace period is only displayed, and the application's source does no time arithmetic.
- Password handling: passwords are compared in plain text, exactly as stored.
- Units, the dashboard figures, unit power switches and adding units: `src/components/Dashboard.tsx`, `src/components/Units.tsx` and `src/components/AddUnit.tsx` hold only fixed literals, styling and a logging handler, so they are not part of this model. Routing (`src/App.tsx`, `src/index.tsx`) and the generic widgets under `src/components/ui/` are not part of it either.
- Browser form validation: the `required` attributes on the login and registration inputs and the `type="email"` input make the browser refuse empty fields or a malformed email before the handler runs. The handlers here accept any strings, so they also describe inputs the form never passes on (`MissingFields`, a login with empty fields).
- Logout: no file of the application clears the `currentUser` key, so there is no logout operation to model.
