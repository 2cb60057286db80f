# Notification store and HTTP interceptors of fe-concern, in Dafny

The front end of fe-concern is a Vue single-page application. This project models the two
parts of it with behaviour of their own.

- **The notification store** (`src/stores/alert.ts`) is a Pinia store. It holds one record
  that three UI elements share. A toast shows a message and hides itself 3000 ms later. A
  confirm dialog keeps an action until the user confirms it. A prompt dialog keeps a callback
  and a draft value.
  - `AlertModel` (alert_model.dfy) gives the record as a value and every action as a
    function on it. It also has a trace semantics over events, which include the toast's hide
    callback firing, and lemmas about all traces.
  - `AlertStore` (alert_store.dfy) is the store as a class. Its methods assign fields in
    place, and each one is specified by the matching `AlertModel` function. A ghost `log` holds
    every call the store makes into a stored callback. A ghost `pendingHides` counts the hide
    callbacks that `setTimeout` has scheduled and that have not fired yet.
  - Callbacks are opaque identities (`ActionId`). A call to one is recorded as an `Invocation`.
- **The HTTP client wrapper** (`src/api/index.ts`) configures an axios instance with a base
  URL and two interceptors. `Api` (api.dfy) models the interceptors' decisions:
  - Browser storage is a `map<string, string>`, `window.location.href` a string field, and the
    headers a map.
  - A settled promise is `Resolve(value) | Reject(error)`.
  - Whether assigning the page address throws is a parameter chosen by the environment.
- `Wrappers` (wrappers.dfy) holds `Option`, which stands for `null` / `undefined`.

Optional arguments (`toast`'s type, `prompt`'s default value) are `Option` parameters. `None`
stands for an argument that was left out or was `undefined`. In TypeScript both pick up the
default.

Two behaviours of the code are easy to get wrong:
- `executePrompt` does not clear the stored prompt callback (unlike `executeConfirm`), so the
  callback can be called again.
- A new toast does not restart the hide timer. Earlier timers are never cancelled, so an
  earlier toast's timer hides a later toast early (`StaleTimerHidesNewerToast`).

The application has no navigation guard or token-expiry check; `src/router/index.ts` only
declares two static routes.

## Model

| member | source | states |
|---|---|---|
| AlertModel.Initial | src/stores/alert.ts:16-26 | the initial record: toast hidden, type `success`, empty title, message and draft, no stored callbacks, both dialogs closed |
| AlertModel.Toast | src/stores/alert.ts:29-32 | the toast is shown with the given message and type (`success` when omitted); title, confirm fields and prompt fields are unchanged |
| AlertModel.HideToast | src/stores/alert.ts:33-35 | the hide callback clears `show` and nothing else |
| AlertModel.Confirm | src/stores/alert.ts:39-52 | title, message and action are replaced and the dialog opens; toast and prompt fields are kept; the earlier action is dropped without being called |
| AlertModel.ExecuteConfirm | src/stores/alert.ts:54-58 | the stored action is called exactly once if present and nothing is called otherwise; the dialog closes and the action is forgotten; all other fields are kept |
| AlertModel.Prompt | src/stores/alert.ts:60-65 | title, callback and draft (default `''`) are set and the dialog opens; message, toast and confirm fields are kept |
| AlertModel.EditPromptValue | src/stores/alert.ts:11 | the view's input binding replaces the draft `promptValue` and nothing else |
| AlertModel.ExecutePrompt | src/stores/alert.ts:67-70 | the stored callback is called with the current draft if present; the dialog closes; the callback and the draft are kept |
| AlertModel.Start | src/stores/alert.ts:16-26 | a fresh application has the initial record and no hide callback scheduled |
| AlertModel.Step | src/stores/alert.ts:27-71 | a toast schedules one more hide callback and a firing one consumes it; other events leave the timers alone; only the two execute actions call callbacks |
| AlertModel.StartConsistent | src/stores/alert.ts:16-26 | the initial world satisfies the store invariant `Consistent` |
| AlertModel.StepPreservesConsistent | src/stores/alert.ts:29-70 | every event keeps the invariant: confirm dialog open iff an action is stored, prompt open only with a callback, a visible toast has a hide callback scheduled |
| AlertModel.RunPreservesConsistent | src/stores/alert.ts:29-70 | the invariant holds after every trace of events from a consistent world |
| AlertModel.PromptCallbackNeverCleared | src/stores/alert.ts:60-70 | once a prompt callback is stored, no trace of events removes it |
| AlertModel.ConfirmActionsRunAtMostOnce | src/stores/alert.ts:48-58 | over any trace and for every action `a`, the calls of `a` plus `a` still stored never exceed the `confirm` requests for `a` plus `a` stored at the start |
| AlertModel.UnrequestedActionNeverCalled | src/stores/alert.ts:48-58 | an action that is neither stored nor requested in a trace is never called in it |
| AlertModel.RequestedOnceCalledAtMostOnce | src/stores/alert.ts:48-58 | an action requested once in a trace, and not stored at its start, is called at most once |
| AlertModel.OverwrittenActionNeverCalled | src/stores/alert.ts:48-58 | from any world, an action other than the one a `confirm` stores is never called in the rest of the trace unless requested again; the replaced action may have been stored any number of events earlier |
| AlertModel.ConfirmThenExecuteTwice | src/stores/alert.ts:48-58 | anywhere in a trace, `confirm` followed by two `executeConfirm` calls adds exactly one call, of the action just stored |
| AlertModel.RunConcat | src/stores/alert.ts:27-71 | running two traces one after the other is running their concatenation: final world and calls agree |
| AlertModel.ExecuteConfirmWithNothingWaiting | src/stores/alert.ts:54-58 | with no action stored and the dialog closed, `executeConfirm` calls nothing and changes nothing |
| AlertModel.ConfirmOverwritesPendingAction | src/stores/alert.ts:48-58 | after two `confirm` calls, `executeConfirm` calls only the second action |
| AlertModel.ExecutePromptRepeats | src/stores/alert.ts:67-70 | `n` successive `executePrompt` calls call the same stored callback `n` times with the same draft |
| AlertModel.PromptSharesConfirmTitle | src/stores/alert.ts:48-65 | `prompt` after `confirm` overwrites the shared title but leaves the message and the confirm action |
| AlertModel.StaleTimerHidesNewerToast | src/stores/alert.ts:29-35 | after two toasts, the first timer to fire hides the second toast, and one timer is still scheduled |
| AlertModel.OnlyTimersHideToasts | src/stores/alert.ts:29-70 | a visible toast stays visible over any trace in which no hide callback fires |
| AlertStore.AlertStore.constructor | src/stores/alert.ts:16-26 | a new store holds the initial record, has an empty call log and no scheduled timer, and satisfies the invariant |
| AlertStore.AlertStore.Toast | src/stores/alert.ts:29-36 | the fields change as `AlertModel.Toast` says; one more hide callback is scheduled; nothing is called |
| AlertStore.AlertStore.HideTimerFires | src/stores/alert.ts:33-35 | a scheduled hide callback fires: the fields change as `AlertModel.HideToast` says and one fewer callback is scheduled |
| AlertStore.AlertStore.Confirm | src/stores/alert.ts:39-52 | the fields change as `AlertModel.Confirm` says; nothing is called |
| AlertStore.AlertStore.ExecuteConfirm | src/stores/alert.ts:54-58 | the fields change as `AlertModel.ExecuteConfirm` says, and its calls are appended to the log |
| AlertStore.AlertStore.Prompt | src/stores/alert.ts:60-65 | the fields change as `AlertModel.Prompt` says; nothing is called |
| AlertStore.AlertStore.EditPromptValue | src/stores/alert.ts:11 | the fields change as `AlertModel.EditPromptValue` says |
| AlertStore.AlertStore.ExecutePrompt | src/stores/alert.ts:67-70 | the fields change as `AlertModel.ExecutePrompt` says, and its call is appended to the log |
| AlertStore.ConfirmTwiceClient | src/stores/alert.ts:48-58 | on the class, `confirm` and two `executeConfirm` calls add exactly one call of the action to the log |
| AlertStore.HideVisibleToastClient | src/stores/alert.ts:33-35 | on the class, a visible toast in a valid store always has a hide callback that may fire, and firing it hides the toast |
| AlertStore.StaleTimerClient | src/stores/alert.ts:29-35 | on the class, the first toast's timer hides the second toast |
| Api.GetItem | src/api/index.ts:9 | reading storage gives the stored value, or `null` exactly when the key is absent |
| Api.BaseUrl | src/api/index.ts:4 | the configured base URL when it is truthy, otherwise `http://localhost:3000/api`; never empty |
| Api.Bearer | src/api/index.ts:12 | the header value is `Bearer ` followed by the token, which can be read back after the prefix |
| Api.WithToken | src/api/index.ts:9-13 | a truthy token sets `Authorization` to its bearer value; an absent or empty token leaves the headers as they are; other headers are never touched |
| Api.WithTokenIdempotent | src/api/index.ts:9-13 | running the header update twice gives the same headers as once |
| Api.OnRequest | src/api/index.ts:7-16 | the interceptor updates the headers of the very config object it returns as `WithToken` says, keeps its URL, and does not change storage or location |
| Api.OnRequestError | src/api/index.ts:17-19 | a request-setup error is rejected unchanged |
| Api.OnResponse | src/api/index.ts:23 | a successful response is passed on unchanged |
| Api.AfterResponseError | src/api/index.ts:24-34 | on status 401 the token key is removed and the location becomes `/auth/login`, unless the assignment throws; any other error, or one without a response, changes nothing |
| Api.OnResponseError | src/api/index.ts:24-36 | the browser changes as `AfterResponseError` says, and the result is always a rejection with the same error |
| Api.UnauthorizedDropsBearer | src/api/index.ts:9-27 | after a 401 no token is stored, so the next request gets no `Authorization` header added |
| Api.ResponseErrorIdempotent | src/api/index.ts:25-34 | applying the error handler's effect twice gives the same browser state as once |
| Api.ResponseErrorKeepsOtherKeys | src/api/index.ts:27 | storage keys other than `token` are never changed by the error handler |

## Left out

- Durations: the 3000 ms delay of the toast's hide callback is not modelled. Only the order in
  which hide callbacks fire relative to other events is.
- HideTimer: in the trace model, a `HideTimer` event with no callback scheduled changes
  nothing, because no such event can occur. The class instead requires a scheduled callback.
- AlertModel.ExecuteConfirm: assumes the stored action returns normally and does not call
  the store. In the code (src/stores/alert.ts:55-57) the action runs before the dialog is
  closed and the action cleared. An action that throws leaves the dialog open with the action
  stored, so the next `executeConfirm` calls it again. An action that calls `confirm` itself
  has that new request wiped at once by line 57. The at-most-once lemmas hold only under this
  assumption.
- AlertModel.ExecutePrompt: assumes the stored callback returns normally and does not call the
  store. In the code (src/stores/alert.ts:68-69) a callback that throws leaves the prompt
  dialog open.
- AlertStore.AlertStore.ExecuteConfirm and AlertStore.AlertStore.ExecutePrompt: same
  assumption as their `AlertModel` counterparts.
- Api.OnResponseError: assumes `localStorage.removeItem` returns normally. If it throws
  (src/api/index.ts:27), the handler rejects with that exception instead of the original
  error, and the address is not changed.
- Api.OnRequest: assumes `localStorage.getItem` returns normally. In the code
  (src/api/index.ts:9) reading storage can throw, for example when the browser blocks
  storage. The interceptor then throws, the request is rejected with that exception, and no
  request is sent.
- Callbacks' own effects: a stored callback is an opaque identity. What it does when called
  (network calls, further store actions) is not modelled; only that it was called, and with
  which draft value.
- The view that shows the store and binds `promptValue` is not modelled beyond the
  `EditPromptValue` event. Pinia also lets any component assign store fields directly (for
  example `showConfirm = false` on a cancel button) or use `$patch` and `$reset`. Those writes
  are not events of the model, so `Consistent`, `PromptCallbackNeverCleared` and the
  at-most-once lemmas hold only over the store's own actions and the timer.
- The `console.log` of the token (src/api/index.ts:14) is an output side effect and is left
  out.
- The actual page navigation caused by assigning `window.location.href` is left out. Only the
  new value of the address is kept.
- Why assigning the address throws is not modelled. It is a boolean the environment chooses.
  When it throws, the address is assumed to keep its old value.
- The axios instance, promise scheduling and the order in which axios runs interceptors are
  not modelled. Interceptors are called directly.
- Identity of error objects is value equality of `HttpError`.
- An interceptor receiving `null` or `undefined` as the error object is not modelled. axios
  always passes an error object.
- src/utils/swal.ts is not part of this model. It is configuration of the sweetalert2 library
  and has no logic of its own.
- src/router/index.ts is not part of this model. It is a static route table with no guard.
- src/main.ts is not part of this model. It only bootstraps the application.
