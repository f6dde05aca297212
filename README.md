# OpportunityUpdateForm — a verified model of the edit session

The repository holds one Lightning Web Component, `OpportunityUpdateForm`: a modal that
shows an opportunity's name and account, lets the user edit its amount and number of
employees, validates the input and saves it through a remote call, with toast notifications
for every outcome. This project models the component's edit-session state machine and the
two pieces of decision logic beside it, and proves what each handler does to the state.

- `wrappers.dfy` — `Option`, for absent JavaScript properties and a `NaN` from `parseInt`.
- `notifications.dfy` — the `Toast(title, message, variant)` value `showToast` dispatches.
- `errors.dfy` — `getErrorMessage`, proved equal to a reference "first truthy candidate"
  definition of its preference order (`body.message`, then `message`, then
  "An unknown error occurred").
- `validation.dfy` — the decision of `validateForm`: the `reduce` over the controls'
  validity flags (proved to be their conjunction), then the inclusive range check [10, 100000]
  on the parsed employee count.
- `session.dfy` — the component's fields as a `FormState` value, one transition function per
  handler or callback, and a form's lifetime as a sequence of events, with lemmas over whole
  event sequences: the reset snapshot is always the last successful load's, closing always
  shows it, and the form is busy only while open, provided every submit comes from the open
  modal.
- `component.dfy` — the class `OpportunityUpdateForm` with the component's fields and one
  method per handler. Every method's `ensures` states the full new state (and ties it to the
  matching `Session` function), the toasts dispatched, and the requests issued.

Remote calls are modelled as an issuing method, which appends the request to a ghost log
(`fetches`, `updates`), and two completion methods (`LoadSucceeded`/`LoadFailed`,
`SubmitSucceeded`/`SubmitFailed`) for the success callback and the failure callback. Like the callbacks in
the component, the completion methods have no precondition on the state. Toasts go to a ghost
log, the page refresh to a ghost counter. Each input control is represented by its validity
flag, and `parseInt(value, 10)` is a function the class is constructed with, returning
`None` for `NaN`.

`resetForm` restores the edited values from `originalAmount`/`originalEmployees`, which only a
successful load sets. `Session.CloseShowsLastLoad` shows what that means: after a failed first
load the form shows zeros, the values the component was initialised with.

## Model

| member | source | states |
|---|---|---|
| `Component.OpportunityUpdateForm.constructor` | force-app/main/default/lwc/opportunityUpdateForm/opportunityUpdateForm.js:8-21 | the form starts closed, not busy, with empty names and all four numbers 0, and nothing logged |
| `Component.OpportunityUpdateForm.HandleOpenModal` | force-app/main/default/lwc/opportunityUpdateForm/opportunityUpdateForm.js:26-30 | opening sets the modal open and busy and issues exactly one fetch, for `recordId`; no other field changes |
| `Component.OpportunityUpdateForm.HandleCloseModal` | force-app/main/default/lwc/opportunityUpdateForm/opportunityUpdateForm.js:35-38 | after closing the modal is closed, not busy, amount and employees equal the snapshot; snapshot, names and logs are untouched |
| `Component.OpportunityUpdateForm.LoadOpportunityData` | force-app/main/default/lwc/opportunityUpdateForm/opportunityUpdateForm.js:43-44 | issuing the fetch appends `recordId` to the fetch log |
| `Component.OpportunityUpdateForm.LoadSucceeded` | force-app/main/default/lwc/opportunityUpdateForm/opportunityUpdateForm.js:45-56 | a successful load sets the names, sets amount and employees to the returned values (0 when absent), makes the snapshot equal to them and clears busy |
| `Component.OpportunityUpdateForm.LoadFailed` | force-app/main/default/lwc/opportunityUpdateForm/opportunityUpdateForm.js:57-61 | a failed load clears busy, logs exactly one error toast carrying `GetErrorMessage(error)`, and closes, restoring the snapshot |
| `Component.OpportunityUpdateForm.HandleAmountChange` | force-app/main/default/lwc/opportunityUpdateForm/opportunityUpdateForm.js:67-69 | the amount becomes the raw input value; nothing else can change |
| `Component.OpportunityUpdateForm.HandleEmployeesChange` | force-app/main/default/lwc/opportunityUpdateForm/opportunityUpdateForm.js:74-76 | the employee count becomes the raw input value; nothing else can change |
| `Component.OpportunityUpdateForm.ValidateForm` | force-app/main/default/lwc/opportunityUpdateForm/opportunityUpdateForm.js:109-129 | returns true exactly when `Validate` accepts the controls and the parsed count, and logs the rejection's toast |
| `Component.OpportunityUpdateForm.HandleSubmit` | force-app/main/default/lwc/opportunityUpdateForm/opportunityUpdateForm.js:81-93 | a rejected submit changes no field and issues no update; an accepted one sets busy and issues exactly one update with the record id, the amount and the parsed count |
| `Component.OpportunityUpdateForm.SubmitSucceeded` | force-app/main/default/lwc/opportunityUpdateForm/opportunityUpdateForm.js:94-99 | a successful update logs a success toast whose message is exactly the returned text, closes the form and requests one page refresh |
| `Component.OpportunityUpdateForm.SubmitFailed` | force-app/main/default/lwc/opportunityUpdateForm/opportunityUpdateForm.js:100-103 | a failed update clears busy and logs an error toast, leaving the modal and the unsaved amount and employees as they were |
| `Component.OpportunityUpdateForm.ResetForm` | force-app/main/default/lwc/opportunityUpdateForm/opportunityUpdateForm.js:134-138 | reset clears busy and restores amount and employees from the snapshot; nothing else changes |
| `Component.OpportunityUpdateForm.ShowToast` | force-app/main/default/lwc/opportunityUpdateForm/opportunityUpdateForm.js:143-150 | a toast appends exactly `(title, message, variant)` to the toast log |
| `Component.CloseTwice` | force-app/main/default/lwc/opportunityUpdateForm/opportunityUpdateForm.js:35-38 | closing the component twice leaves it exactly as closing it once does |
| `ErrorMessages.GetErrorMessage` | force-app/main/default/lwc/opportunityUpdateForm/opportunityUpdateForm.js:155-162 | the message is the first truthy of `body.message` and `message`, else the fixed fallback; it is never empty |
| `ErrorMessages.FirstTruthyPicksEarliest` | force-app/main/default/lwc/opportunityUpdateForm/opportunityUpdateForm.js:156-160 | under the preference order, a truthy candidate preceded only by falsy ones is the one chosen |
| `ErrorMessages.FirstTruthyFallsBack` | force-app/main/default/lwc/opportunityUpdateForm/opportunityUpdateForm.js:155-161 | when no candidate is truthy, the fallback text is chosen |
| `ErrorMessages.EmptyBodyMessageFallsThrough` | force-app/main/default/lwc/opportunityUpdateForm/opportunityUpdateForm.js:156-159 | an empty `body.message` falls through to `message`, or to the fallback |
| `Validation.ReduceValidityIsConjunction` | force-app/main/default/lwc/opportunityUpdateForm/opportunityUpdateForm.js:110-114 | the `reduce` over the controls, seeded with true, holds exactly when every control is valid |
| `Validation.Validate` | force-app/main/default/lwc/opportunityUpdateForm/opportunityUpdateForm.js:109-129 | controls first: any invalid control rejects whatever the count; otherwise the count is rejected exactly when it parses and lies outside [10, 100000]; `NaN` passes |
| `Validation.RangeIsInclusive` | force-app/main/default/lwc/opportunityUpdateForm/opportunityUpdateForm.js:122-126 | with valid controls 10 and 100000 are accepted, 9 and 100001 rejected, and an unparseable count accepted |
| `Session.CloseIsIdempotent` | force-app/main/default/lwc/opportunityUpdateForm/opportunityUpdateForm.js:134-138 | closing a form state twice gives the same state as closing it once |
| `Session.LoadFailureIsClose` | force-app/main/default/lwc/opportunityUpdateForm/opportunityUpdateForm.js:57-61 | a failed load yields exactly the closed state: modal closed, not busy |
| `Session.SnapshotIsLastLoad` | force-app/main/default/lwc/opportunityUpdateForm/opportunityUpdateForm.js:51-53 | after any sequence of events the snapshot is the one taken by the most recent successful load, or the initial one if none |
| `Session.CloseShowsLastLoad` | force-app/main/default/lwc/opportunityUpdateForm/opportunityUpdateForm.js:35-38 | closing after any sequence of events shows the last successful load's values, or zeros when no load succeeded |
| `Session.BusyOnlyWhileOpen` | force-app/main/default/lwc/opportunityUpdateForm/opportunityUpdateForm.js:26-38 | when submits come only from the open modal, no sequence of events, late callbacks included, leaves a closed form busy |

## Left out

- The remote calls `getOpportunityData` and `updateAndNotify` and their promise scheduling are not modelled: they are network calls. The model has only the request logs and the completion methods, and whether a result ever arrives is not modelled.
- Interleavings in which a callback completes after the form was closed are not analysed: that is about asynchrony. The completion methods accept any state, as the callbacks do, and `Session.Run` accepts events in any order.
- The failure callbacks are chained after the success callbacks, so they also run when a success callback throws (a missing fetch result, or the page-refresh `eval` failing after a successful update). The model does not capture that: such a run can appear only as `SubmitSucceeded` followed by `SubmitFailed`, or as `LoadFailed` alone for a missing fetch result, both of which `Session.Run` accepts.
- `ShowToastEvent` construction and `dispatchEvent` are platform calls; only the toast values are kept, in a ghost log.
- The `eval` that fires the host page's `force:refreshView` event is a dynamic platform call; it is a ghost refresh counter.
- `querySelectorAll('lightning-input')` and each control's `reportValidity`/`checkValidity` are DOM behaviour; the controls arrive as a sequence of validity flags, and the error display `reportValidity` triggers on each control is not modelled.
- `parseFloat(this.amount)` is floating point: the update request carries the amount as stored, without conversion.
- `parseInt(value, 10)` is not defined here: it is a parameter of the class (`None` stands for `NaN`), so nothing ties it to the numbers a load stores.
- A loaded amount or employee count is a number or absent; other JavaScript falsy values (`NaN`, an empty string) cannot come from the record fetch and are not modelled.
- The `wire` and `getRecord` imports and the `@api` decorator are framework wiring; `recordId` is a constant given to the constructor.
