# Blood-donation dashboard: orchestration model

A Dafny model of the browser dashboard of a blood-donation coordination
platform. Hospitals and blood banks use it to keep a donor roster, watch
blood stock, raise emergency requests, read donor notifications, mark
donations complete (which issues certificates) and ask a Q&A assistant.

The model covers the dashboard's orchestration layer and the login and
registration form's submit handler. It has these parts:

- **State** (`Dashboard.DashState`). The session (`me`) and the active tab.
  Five resource caches: donors, inventory, requests, notifications and
  certificates. The shared busy flag (`loading`), the two entry forms, the
  chat input and transcript, and the donation unit count.
- **Stores.** `Reload` applies one answer to one store. An ok answer replaces
  the store wholesale. A failed answer changes nothing.
- **Workflows.** Adding a donor, raising a request, marking a donation
  complete, the chat relay, and tab clicks. Each is a pure function from a
  state and abstract server answers to a `Step`. A `Step` holds the new
  state, the requests issued in order, and the alert shown, if any.
- **Derivations.** The stock-level classifier and the "Units Available"
  total.
- **Sessions** (`Session`). A whole session is a sequence of events. Answers
  nobody awaits (startup loads, the donor reload after a save, chat replies)
  are events of their own, so they can land in any order.
- **Auth.** The register body, the login body, and the form's
  error/busy/token transitions.

The network is abstract everywhere. A response is an `ok` flag plus the
decoded body. Browser dialogs become values: `confirm` is a boolean input and
`alert` is the `alert` field of a `Step`. The persisted token is a field of
the form state, and each write to it is also listed as an effect.

Some behaviour of the dashboard is easy to misread; the model follows the
code as written:

- The workflows alert fixed messages ("Failed to add donor", "Failed to
  create request", "Failed to complete donation"), not the response body.
  Only the auth form shows the response text.
- Marking a donation complete never touches the busy flag.
- The completion POST takes its affiliation from the donor record, not from
  the session. It runs even when the session has no affiliation.
- A failed certificate fetch is skipped silently. The certificate store keeps
  its old contents, and the view still switches to the certificates tab.
- Failed reloads inside a workflow are silent, like every other read.
- The unit count sent with a completion is a state field that starts at 1.
  Nothing ever writes it, so every completion reports one unit
  (`Session.CompletionsReportOneUnit`).
- `localStorage.setItem` stores the string form of its argument. A
  successful auth answer whose `access_token` is missing therefore stores the
  text "undefined", and one whose `access_token` is `null` stores "null". The
  application still counts as authenticated (`Auth.StoredText`).

## Model

| member | source | states |
|---|---|---|
| `Records.BloodGroupOptionsComplete` | src/components/Dashboard.jsx:193 | each of the eight blood groups is offered exactly once, and its option value reads back to the same group |
| `Records.ParseBloodGroup` | src/components/Dashboard.jsx:192-193 | an option value names the group it reads back to; a value that is not an option names no group |
| `Text.TrimStart` | src/components/Dashboard.jsx:98 | the result is a suffix of the input that starts with a non-space, and everything cut off is ECMAScript white space |
| `Text.TrimEnd` | src/components/Dashboard.jsx:98 | the result is a prefix of the input that ends with a non-space, and everything cut off is ECMAScript white space |
| `Text.TrimEmptyIffBlank` | src/components/Dashboard.jsx:98 | `!s.trim()` holds exactly when every character of `s` is white space |
| `Stock.EntryLevel` | src/components/Dashboard.jsx:205-207 | an entry's level compares its count, absent read as 0, with the snapshot's thresholds; an entry without a count is critical unless the critical threshold is negative |
| `Stock.Classify` | src/components/Dashboard.jsx:206-207 | critical iff the count is at or below the critical threshold; low iff above it and at or below the low threshold; ok iff above both. Thresholds default to 2 and 5 when absent or 0 |
| `Stock.ClassifyMonotone` | src/components/Dashboard.jsx:207 | a larger count is never classified as more severe |
| `Stock.ClassifyDefaults` | src/components/Dashboard.jsx:207 | missing thresholds and thresholds of 0 classify exactly like 2 and 5 |
| `Stock.ClassifyNeverLowWhenThresholdsCross` | src/components/Dashboard.jsx:207 | when the effective critical threshold reaches the low one, no count is low |
| `Stock.ClassifyExamples` | src/components/Dashboard.jsx:207 | with thresholds 2 and 5: 1 and 2 are critical, 3 and 5 are low, 6 is ok |
| `Stock.FoldUnits` | src/components/Dashboard.jsx:147 | the `reduce` never lowers its running total, and leaves it as seeded when every count is absent or 0 |
| `Stock.FoldUnitsIsSum` | src/components/Dashboard.jsx:147 | the left-to-right `reduce` with seed `acc` equals `acc` plus the sum of all counts |
| `Stock.UnitsTotal` | src/components/Dashboard.jsx:147 | "Units Available" is 0 without an inventory or its `units`, otherwise the sum of all counts, with absent counts as 0 |
| `Stock.SumAppend` | src/components/Dashboard.jsx:147 | the total of two groups of entries is the sum of their totals |
| `Stock.SumBoundsEntries` | src/components/Dashboard.jsx:147 | each count is at most the total, and the total is 0 exactly when every count is absent or 0 |
| `Stock.SumPermutation` | src/components/Dashboard.jsx:147 | the total does not depend on the order of the inventory's keys |
| `Dashboard.Init` | src/components/Dashboard.jsx:20-27 | the mounted state: no session, no inventory, empty lists, the donors tab, not busy, both forms at their initial values (lines 59 and 76), empty chat input and transcript (lines 94-95), and a unit count of 1 (line 107) |
| `Dashboard.Mount` | src/components/Dashboard.jsx:51-57 | mounting yields the initial state and fires one load for each store that has one (every store but certificates), each exactly once, and nothing else |
| `Dashboard.ParseTab` | src/components/Dashboard.jsx:152 | a tab key names the tab whose button carries it; any other string names no tab |
| `Dashboard.TabButtonsComplete` | src/components/Dashboard.jsx:152 | the six tabs each have one button with a distinct key that reads back to the tab |
| `Dashboard.ClickTab` | src/components/Dashboard.jsx:153 | a click selects that tab and changes nothing else |
| `Dashboard.Reload` | src/components/Dashboard.jsx:30-49 | an ok answer replaces its own store with the payload; no other store and no UI field changes; a failed answer leaves the whole state unchanged |
| `Dashboard.ReloadIdempotent` | src/components/Dashboard.jsx:30-49 | applying the same answer twice is the same as applying it once |
| `Dashboard.ReloadsCommute` | src/components/Dashboard.jsx:51-57 | answers for two different stores can be applied in either order with the same result |
| `Dashboard.ReloadAllKeepsLastOk` | src/components/Dashboard.jsx:30-49 | after any run of answers, each store holds the last ok answer it received, or its earlier contents if none succeeded; UI fields are untouched |
| `Dashboard.LastOkIsTheOkAnswer` | src/components/Dashboard.jsx:51-57 | with one answer per store, the last ok answer for a store is that store's ok answer in the batch |
| `Dashboard.ArrivalOrderIrrelevant` | src/components/Dashboard.jsx:51-57 | the un-joined startup loads, one per store, give the same state in every arrival order |
| `Workflows.PostFor` | src/components/Dashboard.jsx:65-85 | the donor POST carries the donor form and the request POST carries the request form, each with the session's affiliation id |
| `Workflows.Submit` | src/components/Dashboard.jsx:62-63 | a form submission issues a POST exactly when the button is enabled and the session is linked; an unlinked session gets "Hospital not linked" and no request; an issued POST only raises the busy flag (same for lines 79-80) |
| `Workflows.SecondSubmissionIsInert` | src/components/Dashboard.jsx:197 | while either form is in flight, a second submission of either form issues nothing and changes nothing (the shared flag also disables the button at line 258) |
| `Workflows.FinishAddDonor` | src/components/Dashboard.jsx:70-73 | success resets the donor form and fires a donor reload; failure keeps the form and alerts "Failed to add donor"; the busy flag ends down and nothing else changes |
| `Workflows.AddDonor` | src/components/Dashboard.jsx:60-74 | blocked: no request and no change. Success: POST then donor reload, form reset, donors replaced only by an ok reload, busy flag down, and no other field changes. Failure: the state is exactly as before |
| `Workflows.FinishCreateRequest` | src/components/Dashboard.jsx:87-91 | success reloads requests then notifications, forces the requests tab and changes no other field besides the busy flag; failure alerts "Failed to create request"; forms and the other stores are untouched; the busy flag ends down |
| `Workflows.ForcedTabWinsOverClick` | src/components/Dashboard.jsx:90 | a tab clicked while a request is in flight is overridden by the forced switch to the requests tab |
| `Workflows.CreateRequest` | src/components/Dashboard.jsx:77-92 | blocked: no request and no change. Success: POST, requests, notifications in that order, tab = requests, and no other field changes. Failure: state exactly as before. Only the requests and notifications stores can change |
| `Workflows.CompleteDonation` | src/components/Dashboard.jsx:108-124 | unconfirmed: nothing happens. Failed POST: the state is unchanged plus the alert. Success: donors, inventory, certificates in order; certificates replaced only by an ok fetch; tab = certs even when that fetch fails; no other field changes, and the busy flag is never touched |
| `Workflows.CompleteDonationIgnoresSession` | src/components/Dashboard.jsx:114 | the completion sends the same requests whatever the session holds: the affiliation comes from the donor record |
| `ChatRelay.SubmitChat` | src/components/Dashboard.jsx:98-102 | a blank message is a no-op; otherwise exactly one user turn with the untrimmed text is appended, the input is cleared, and only that text is sent |
| `ChatRelay.ReceiveReply` | src/components/Dashboard.jsx:103-104 | the reply becomes one assistant turn after all earlier entries, which stay unaltered; nothing else changes |
| `ChatRelay.SendChat` | src/components/Dashboard.jsx:96-105 | a full exchange appends exactly a user turn and then an assistant turn, keeps earlier entries, clears the input, and changes neither stores, tab nor busy flag |
| `Session.RunKeepsDonationUnits` | src/components/Dashboard.jsx:107 | no event ever changes the donation unit count |
| `Session.RunOnlyExtendsChat` | src/components/Dashboard.jsx:100 | across any sequence of events the transcript only grows, and earlier entries are never altered or removed |
| `Session.CompletionsReportOneUnit` | src/components/Dashboard.jsx:107 | every completion sent in a session that starts from the mounted state reports one unit |
| `Session.PostsCarryAffiliation` | src/components/Dashboard.jsx:68 | every donor or request POST sent in any session carries a non-empty affiliation id |
| `Auth.RegisterPayload` | src/components/Auth.jsx:24-29 | `hospital_name` is present iff the role is not donor; `contact_numbers` is `[contact]` when a contact was typed and `[]` otherwise; the other fields are copied |
| `Auth.DonorHospitalNameNotSent` | src/components/Auth.jsx:26 | for a donor, the typed hospital name does not affect the register body |
| `Auth.LoginBody` | src/components/Auth.jsx:36-38 | the login body is two parameters: the email under `username`, then the password |
| `Auth.LoginBodyFields` | src/components/Auth.jsx:36-38 | the login body has exactly two fields: `username` is the email and `password` the password |
| `Auth.CallFor` | src/components/Auth.jsx:20-39 | register mode sends the register body, and login mode sends the login form body |
| `Auth.BeginSubmit` | src/components/Auth.jsx:17-18 | a submit raises the busy flag, clears the error and issues the mode's call; while busy it does nothing |
| `Auth.FinishSubmit` | src/components/Auth.jsx:31-48 | failure sets the error to the response text and leaves the token alone; success stores the token and then notifies the application; the busy flag ends down |
| `Auth.StoredText` | src/components/Auth.jsx:33 | the stored token is the `access_token` string itself, "null" for a JSON `null`, and "undefined" when the member is missing (same at line 42) |
| `Auth.HandleSubmit` | src/components/Auth.jsx:15-50 | from click to answer: one call; on failure the error is the response text and there are no effects, so the token is not written and the application is not notified; on success the token is stored and then the application is notified; the busy flag ends down and no other field changes |
| `Auth.SubmitAllKeepsLastToken` | src/components/Auth.jsx:31-48 | from an idle form, after any series of submissions the form is idle, the token is that of the last successful answer (or the starting one when none succeeded), and the typed fields are unchanged |

## Left out

- Network I/O (`fetch`), the base URL, the auth headers and `localStorage` are replaced by abstract responses and a token field.
- Exceptions other than a non-ok status are not modelled: a `fetch` that rejects, or a body that is not JSON. What the user would see depends on where one happens:
  - inside the `try` of addDonor, createRequest or completeDonation, an alert of the exception's message;
  - in the donor reload that addDonor fires without awaiting (`Dashboard.jsx:72`), in the startup loads and in sendChat, an unhandled rejection with no alert;
  - in the auth form (`Auth.jsx:45-46`), the error line shows the exception's message, and no alert is shown.
- A chat answer whose body is JSON `null` is not modelled. Reading `data.reply` then throws (`Dashboard.jsx:104`) and no assistant turn is appended, while `ChatRelay.ReceiveReply` always appends one.
- An `access_token` that is a number, boolean or object is not modelled. `setItem` would store its string form; only a string, `null` and a missing member are modelled.
- `Number()` of a non-numeric string (NaN) is left out. Counts are naturals and an absent count is 0.
- Date formatting of certificates (`Dashboard.jsx:306`) and the certificate download link (`Dashboard.jsx:309`) are foreign library calls.
- Logout (`Dashboard.jsx:136`) clears the token and reloads the page, which leaves the modelled state.
- The onChange handlers that edit form fields and the chat input are plain field assignments. They are not modelled as events.
- Switching the auth mode and role is also not modelled as events. Both are plain field assignments.
- All JSX markup and styling are left out. The Hero component (presentation over a third-party 3D scene) and App (only a token-presence check) are not part of this model.
- Concurrency is not modelled as such. Each answer is a separate sequential event, and events may come in any order.
- The addDonor donor reload is one of those separate events. It is not awaited at `Dashboard.jsx:72`.
- The chat replies are separate events too. The composite `ChatRelay.SendChat` only covers an exchange with nothing in between.
- Form validation by the browser (`required`, `min="1"`, `type="email"`) is left out. The model accepts any field values.
