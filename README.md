# Nest Cam account linking, modelled in Dafny

This project models the account-linking dialog of the homebridge-nest-cam
custom plugin UI: the Angular component `HomebridgeNestCamComponent`. The
dialog drives a multi-step Google sign-in on a socket namespace. The linking
agent asks for `username`, then `password`, then `totp`, and finally sends
`credentials`. The dialog writes that bundle into the plugin's configuration
record and saves the configuration list.

The model has two layers.

- `LinkFlow` (`link_flow.dfy`) is the state machine over values. `State` holds:
  - the flow fields (`Session`);
  - the configuration list and the `nestConfig` record it shares (`Store`);
  - logs that stand in for what the component does to the outside world (`Effects`): socket emits, config saves, modal closes and `configUpdated` notifications.

  Every socket handler and every user action is one function from the state before to the state after. The getter `showLinkAccount` is the predicate `ShowLinkAccount`. Whole sessions are covered by `Replay` (inbound events) and `Run` (events and user actions interleaved).
- `NestCamComponent` (`nest_cam_component.dfy`) is the component itself.
  - It is a class with the component's fields, and one method per handler and per action. Each method updates those fields in place.
  - Configuration records are objects (`ConfigRecord`), so `nestConfig` and `pluginConfig[0]` can be the same record.
  - `Valid()` states that aliasing: after `ngOnInit`, `pluginConfig` is either empty or starts with `nestConfig`, and holds it nowhere else.
  - Each method is proved to take the component's `View()` to the state the matching `LinkFlow` function gives, and to keep `Valid()`. It is also proved to keep `nestConfig` the same object, and to say which list object `pluginConfig` holds afterwards.
- `LinkFlowProperties` (`link_flow_properties.dfy`) proves the properties that span several events or actions, including the end-to-end run.

`Store` encodes the aliasing as values. `Store(nest, None)` is an empty list beside a surviving `nestConfig`, the state `unlinkAccount` leaves behind. `Store(nest, Some(rest))` is the list `[nest] + rest`, whose first element is `nestConfig` itself.

Behaviour of the code worth noting:

- `linkAccount` does not clear `accountLinkingError`, `accountLinkingErrorMessage` or `fieldErrorMessage`, and does not guard against a flow already in flight.
  - So a flow relinked after an unlink starts with `fieldErrorMessage` still holding the old rejection, until its first prompt clears it (`UnlinkThenRelinkKeepsMessages`, `RelinkShowsStaleRejection`). Whether the template shows that text is not modelled.
  - The linking error carries over too, but an unlink with the error set closes the modal, so this matters only in a dialog that is already closed.
  - A linking error, once set, is never cleared while the dialog is open, so automated linking is never offered again in that dialog (`Run`).
- `nextStep` sends the whole form value under the event name `currentStep`, even when no step is pending (`StepAnswer(None, …)`).
- `unlinkAccount` keeps `currentStep`.
- `server_error` applies whether or not a flow is in flight. `browser_closed` and `disconnect` act only while `doingAccountLinking` is set.
- The `username`/`password`/`totp` handlers clear `fieldErrorMessage` first and then register a validator on the form. So before `linkAccount` has built the form, they throw with only the field message cleared. The `credentials` handler throws at its first statement and changes nothing. `nextStep` throws after setting `waiting`.
- `saveAndClose` assigns `nestConfig` to index 0. On an empty list this makes the list `[nestConfig]`, the same list `updateConfig` produces.

## Model

Source paths are relative to the repository root.

| member | source | states |
|---|---|---|
| LinkFlow.RetryMessage | ui/src/app/core/manage-plugins/custom-plugins/homebridge-nest-cam/homebridge-nest-cam.component.ts:86-113 | each step's rejection message is a non-empty text |
| LinkFlow.Entries | ui/src/app/core/manage-plugins/custom-plugins/homebridge-nest-cam/homebridge-nest-cam.component.ts:54-57 | the list is non-empty exactly when the store holds a list, and then its first element is `nestConfig` |
| LinkFlow.ShowLinkAccount | ui/src/app/core/manage-plugins/custom-plugins/homebridge-nest-cam/homebridge-nest-cam.component.ts:131-139 | never shown once configured or once the record holds a bundle with truthy `issueToken` and `cookies`; otherwise shown exactly when no linking error is set |
| LinkFlow.Init | ui/src/app/core/manage-plugins/custom-plugins/homebridge-nest-cam/homebridge-nest-cam.component.ts:52-61 | an empty list gets one record naming the platform; `nestConfig` is the list's first record; `alreadyConfigured` holds exactly when linking would not be offered, i.e. when the record already holds a complete bundle; linking is then offered exactly when not configured |
| LinkFlow.OnServerError | ui/src/app/core/manage-plugins/custom-plugins/homebridge-nest-cam/homebridge-nest-cam.component.ts:63-66 | sets the error flag and message, in or out of a flow, and nothing else; linking is no longer offered |
| LinkFlow.OnBrowserClosed | ui/src/app/core/manage-plugins/custom-plugins/homebridge-nest-cam/homebridge-nest-cam.component.ts:68-73 | no effect unless a flow is in flight; then the same as a `server_error` with the payload's message |
| LinkFlow.OnDisconnect | ui/src/app/core/manage-plugins/custom-plugins/homebridge-nest-cam/homebridge-nest-cam.component.ts:75-80 | no effect unless a flow is in flight; then the same as a `server_error` with "Server Disconnected." |
| LinkFlow.PromptSession | ui/src/app/core/manage-plugins/custom-plugins/homebridge-nest-cam/homebridge-nest-cam.component.ts:82-117 | without a form only the field message is cleared; with one, the step becomes `step` and `waiting` false, the field message is non-empty exactly when `step` was already pending (and is then that step's retry message), and only `username` sets the logging-in banner; no other flow field changes |
| LinkFlow.OnStepPrompt | ui/src/app/core/manage-plugins/custom-plugins/homebridge-nest-cam/homebridge-nest-cam.component.ts:82-117 | a step prompt changes only the flow fields and never changes whether linking is offered |
| LinkFlow.UpdateConfig | ui/src/app/core/manage-plugins/custom-plugins/homebridge-nest-cam/homebridge-nest-cam.component.ts:184-189 | `nestConfig` names the platform; an empty list becomes `[nestConfig]`, a non-empty one keeps its other records; nothing else changes |
| LinkFlow.SaveConfig | ui/src/app/core/manage-plugins/custom-plugins/homebridge-nest-cam/homebridge-nest-cam.component.ts:191-202 | one save of the current list is logged; nothing else changes |
| LinkFlow.OnCredentials | ui/src/app/core/manage-plugins/custom-plugins/homebridge-nest-cam/homebridge-nest-cam.component.ts:119-128 | without a form nothing happens; otherwise the bundle is stored verbatim, the platform is named, the list starts with `nestConfig`, exactly one save of that list is logged, the step is unset and the flow is closed; a complete bundle stops linking being offered |
| LinkFlow.LinkAccountManually | ui/src/app/core/manage-plugins/custom-plugins/homebridge-nest-cam/homebridge-nest-cam.component.ts:141-147 | one `cancel` is sent; the step is unset, the flow closed, the dialog marked configured, so linking is not offered; the list is updated as by `updateConfig`, and nothing is saved |
| LinkFlow.LinkAccount | ui/src/app/core/manage-plugins/custom-plugins/homebridge-nest-cam/homebridge-nest-cam.component.ts:149-163 | one `link-account` is sent; a fresh empty form, `waiting` and the set-up banner, flow in flight; errors and field message kept; whether linking is offered is unchanged |
| LinkFlow.UnlinkAccount | ui/src/app/core/manage-plugins/custom-plugins/homebridge-nest-cam/homebridge-nest-cam.component.ts:165-177 | the bundle is removed, the list emptied, one save of the empty list logged, configured and in-flight flags cleared, the step kept; the modal closes exactly when an error is set; afterwards linking is offered exactly when no error was set |
| LinkFlow.NextStep | ui/src/app/core/manage-plugins/custom-plugins/homebridge-nest-cam/homebridge-nest-cam.component.ts:179-182 | `waiting` is set; with a form, the whole form value is sent under the pending step's name (possibly undefined); nothing else changes |
| LinkFlow.EnterForm | ui/src/app/core/manage-plugins/custom-plugins/homebridge-nest-cam/homebridge-nest-cam.component.ts:152-156 | typing replaces the form value once the form exists; nothing else changes |
| LinkFlow.SaveAndClose | ui/src/app/core/manage-plugins/custom-plugins/homebridge-nest-cam/homebridge-nest-cam.component.ts:204-211 | the list ends as `updateConfig` leaves it, is saved once, the modal closes once and one `configUpdated` is announced; the flow is untouched |
| LinkFlow.Receive | ui/src/app/core/manage-plugins/custom-plugins/homebridge-nest-cam/homebridge-nest-cam.component.ts:63-128 | no inbound event sends anything, closes the modal, marks the dialog configured or builds the form; only `credentials` with a form saves, exactly once |
| LinkFlow.Replay | ui/src/app/core/manage-plugins/custom-plugins/homebridge-nest-cam/homebridge-nest-cam.component.ts:63-128 | over any stream of inbound events, the number of saves is the number of `credentials` events once the form exists, and none before |
| LinkFlow.Perform | ui/src/app/core/manage-plugins/custom-plugins/homebridge-nest-cam/homebridge-nest-cam.component.ts:141-211 | no user action clears a linking error |
| LinkFlow.Handle | ui/src/app/core/manage-plugins/custom-plugins/homebridge-nest-cam/homebridge-nest-cam.component.ts:63-211 | no input of either kind clears a linking error |
| LinkFlow.Run | ui/src/app/core/manage-plugins/custom-plugins/homebridge-nest-cam/homebridge-nest-cam.component.ts:63-211 | once a linking error is set, whatever happens next, it stays set and linking is never offered again in that dialog |
| LinkFlowProperties.ReplayAppend | ui/src/app/core/manage-plugins/custom-plugins/homebridge-nest-cam/homebridge-nest-cam.component.ts:63-128 | handling two event streams in turn is handling their concatenation |
| LinkFlowProperties.RunSplit | ui/src/app/core/manage-plugins/custom-plugins/homebridge-nest-cam/homebridge-nest-cam.component.ts:63-211 | running two input lists in turn is running their concatenation |
| LinkFlowProperties.IdleChannelLossIgnored | ui/src/app/core/manage-plugins/custom-plugins/homebridge-nest-cam/homebridge-nest-cam.component.ts:68-80 | any number of `disconnect` and `browser_closed` events outside a flow leave the dialog exactly as it was |
| LinkFlowProperties.StoreUntouchedWithoutCredentials | ui/src/app/core/manage-plugins/custom-plugins/homebridge-nest-cam/homebridge-nest-cam.component.ts:63-117 | until `credentials` arrives, no inbound event changes the list, `nestConfig` or any log |
| LinkFlowProperties.CompletedFlowStoresCredentials | ui/src/app/core/manage-plugins/custom-plugins/homebridge-nest-cam/homebridge-nest-cam.component.ts:119-128 | whatever events came first, a closing `credentials` stores the bundle exactly, names the platform, puts `nestConfig` first in the list, saves it once, sends nothing and closes the flow; a complete bundle stops linking being offered |
| LinkFlowProperties.RepeatedStepRejects | ui/src/app/core/manage-plugins/custom-plugins/homebridge-nest-cam/homebridge-nest-cam.component.ts:82-117 | the same prompt twice: no message the first time (unless already pending), the step's retry message the second, the step stays put |
| LinkFlowProperties.ConfiguredRecordNotOffered | ui/src/app/core/manage-plugins/custom-plugins/homebridge-nest-cam/homebridge-nest-cam.component.ts:52-61 | a first record with a complete bundle makes the dialog configured, not offering linking, without sending anything |
| LinkFlowProperties.UnlinkThenRelinkKeepsMessages | ui/src/app/core/manage-plugins/custom-plugins/homebridge-nest-cam/homebridge-nest-cam.component.ts:82-177 | after unlink and link, the bundle and list are gone, but the previous field message and linking error carry over into the new flow; the new flow's first prompt clears the field message, and an unlink with the error set closes the modal |
| LinkFlowProperties.RelinkShowsStaleRejection | ui/src/app/core/manage-plugins/custom-plugins/homebridge-nest-cam/homebridge-nest-cam.component.ts:82-117 | a concrete run: a rejected username, unlink, link again; the relinked flow starts with `fieldErrorMessage` still holding "Couldn't find your Google Account", until its first prompt clears it |
| LinkFlowProperties.UpdateConfigIdempotent | ui/src/app/core/manage-plugins/custom-plugins/homebridge-nest-cam/homebridge-nest-cam.component.ts:184-189 | a second `updateConfig` changes nothing |
| LinkFlowProperties.RunLinkAndType | ui/src/app/core/manage-plugins/custom-plugins/homebridge-nest-cam/homebridge-nest-cam.component.ts:149-163 | from an empty list, link, a username prompt and typing leave the username pending, the typed form, one `link-account` sent and a fresh unsaved record |
| LinkFlowProperties.RunAnswerAndFinish | ui/src/app/core/manage-plugins/custom-plugins/homebridge-nest-cam/homebridge-nest-cam.component.ts:95-128 | with the username pending: send it, a password prompt, type and send it, then a complete bundle: exactly those two answers go out, the one-record list holding the bundle is saved once, and linking is no longer offered |
| LinkFlowProperties.ScenarioEmptyListToLinked | ui/src/app/core/manage-plugins/custom-plugins/homebridge-nest-cam/homebridge-nest-cam.component.ts:52-182 | the end-to-end run from an empty list sends exactly `link-account`, the username answer and the password answer, saves once the single record `{platform: alias, googleAuth: bundle}`, and stops offering linking |
| NestCamComponent.ConfigRecord.constructor | ui/src/app/core/manage-plugins/custom-plugins/homebridge-nest-cam/homebridge-nest-cam.component.ts:54 | a new record holds the given keys |
| NestCamComponent.Values | ui/src/app/core/manage-plugins/custom-plugins/homebridge-nest-cam/homebridge-nest-cam.component.ts:41 | the list of records read element by element, same length |
| NestCamComponent.HomebridgeNestCam.constructor | ui/src/app/core/manage-plugins/custom-plugins/homebridge-nest-cam/homebridge-nest-cam.component.ts:19-30 | the field initialisers: no record yet, all flags false, all messages empty, no step, no form, nothing logged |
| NestCamComponent.HomebridgeNestCam.NgOnInit | ui/src/app/core/manage-plugins/custom-plugins/homebridge-nest-cam/homebridge-nest-cam.component.ts:52-61 | the component ends in `LinkFlow.Init` of the input records; a non-empty list is kept as the same objects and `nestConfig` is its own first record, an empty one gets a freshly created record pushed |
| NestCamComponent.HomebridgeNestCam.ShowLinkAccount | ui/src/app/core/manage-plugins/custom-plugins/homebridge-nest-cam/homebridge-nest-cam.component.ts:131-139 | agrees with `LinkFlow.ShowLinkAccount`, and tolerates a missing `nestConfig` |
| NestCamComponent.HomebridgeNestCam.OnServerError | ui/src/app/core/manage-plugins/custom-plugins/homebridge-nest-cam/homebridge-nest-cam.component.ts:63-66 | the component moves as `LinkFlow.OnServerError` says |
| NestCamComponent.HomebridgeNestCam.OnBrowserClosed | ui/src/app/core/manage-plugins/custom-plugins/homebridge-nest-cam/homebridge-nest-cam.component.ts:68-73 | the component moves as `LinkFlow.OnBrowserClosed` says |
| NestCamComponent.HomebridgeNestCam.OnDisconnect | ui/src/app/core/manage-plugins/custom-plugins/homebridge-nest-cam/homebridge-nest-cam.component.ts:75-80 | the component moves as `LinkFlow.OnDisconnect` says |
| NestCamComponent.HomebridgeNestCam.OnUsername | ui/src/app/core/manage-plugins/custom-plugins/homebridge-nest-cam/homebridge-nest-cam.component.ts:82-93 | the flow fields move as `LinkFlow.PromptSession` says for `username`, and nothing else changes |
| NestCamComponent.HomebridgeNestCam.OnPassword | ui/src/app/core/manage-plugins/custom-plugins/homebridge-nest-cam/homebridge-nest-cam.component.ts:95-105 | the flow fields move as `LinkFlow.PromptSession` says for `password`, and nothing else changes |
| NestCamComponent.HomebridgeNestCam.OnTotp | ui/src/app/core/manage-plugins/custom-plugins/homebridge-nest-cam/homebridge-nest-cam.component.ts:107-117 | the flow fields move as `LinkFlow.PromptSession` says for `totp`, and nothing else changes |
| NestCamComponent.HomebridgeNestCam.OnCredentials | ui/src/app/core/manage-plugins/custom-plugins/homebridge-nest-cam/homebridge-nest-cam.component.ts:119-128 | the bundle is written into the shared record, which stays `nestConfig` and is re-pushed only into an empty list, and the component moves as `LinkFlow.OnCredentials` says |
| NestCamComponent.HomebridgeNestCam.LinkAccountManually | ui/src/app/core/manage-plugins/custom-plugins/homebridge-nest-cam/homebridge-nest-cam.component.ts:141-147 | the component moves as `LinkFlow.LinkAccountManually` says |
| NestCamComponent.HomebridgeNestCam.LinkAccount | ui/src/app/core/manage-plugins/custom-plugins/homebridge-nest-cam/homebridge-nest-cam.component.ts:149-163 | the component moves as `LinkFlow.LinkAccount` says |
| NestCamComponent.HomebridgeNestCam.UnlinkAccount | ui/src/app/core/manage-plugins/custom-plugins/homebridge-nest-cam/homebridge-nest-cam.component.ts:165-177 | the list is spliced empty while `nestConfig` stays the same object, and the component moves as `LinkFlow.UnlinkAccount` says |
| NestCamComponent.HomebridgeNestCam.NextStep | ui/src/app/core/manage-plugins/custom-plugins/homebridge-nest-cam/homebridge-nest-cam.component.ts:179-182 | the component moves as `LinkFlow.NextStep` says |
| NestCamComponent.HomebridgeNestCam.SetFormValue | ui/src/app/core/manage-plugins/custom-plugins/homebridge-nest-cam/homebridge-nest-cam.component.ts:152-156 | the component moves as `LinkFlow.EnterForm` says |
| NestCamComponent.HomebridgeNestCam.UpdateConfig | ui/src/app/core/manage-plugins/custom-plugins/homebridge-nest-cam/homebridge-nest-cam.component.ts:184-189 | the same `nestConfig` object is re-pushed into an empty list, a non-empty list is kept, and the component moves as `LinkFlow.UpdateConfig` says |
| NestCamComponent.HomebridgeNestCam.SaveConfig | ui/src/app/core/manage-plugins/custom-plugins/homebridge-nest-cam/homebridge-nest-cam.component.ts:191-202 | only the save log changes, as `LinkFlow.SaveConfig` says |
| NestCamComponent.HomebridgeNestCam.SaveAndClose | ui/src/app/core/manage-plugins/custom-plugins/homebridge-nest-cam/homebridge-nest-cam.component.ts:204-211 | the component moves as `LinkFlow.SaveAndClose` says |

## Left out

- Angular decorators, dependency injection, the `@Input` wiring, `jsonFormOptions` and the template: presentation only. The inputs are constructor arguments.
- The caller's `pluginConfig` array is not shared with the component: the component keeps its own list of the caller's records. A caller therefore never sees the push (lines 54 and 187), the splice (line 167) or the index assignment (line 206). What is modelled is the component's own list and the records it shares with the caller, `nestConfig` above all; every method after `ngOnInit` keeps `nestConfig` the same object.
- The `FormGroup`, `FormControl` and `Validators` calls: the form is its value (`FormValue`), and validator registration is not modelled. The model keeps only the fact that touching a form not built yet throws.
- The socket transport, handler registration, `ngOnDestroy` and `io.end()`: network I/O. Inbound events are method calls, and outbound emits are appended to a log.
- The HTTP post, toasts and translations in `saveConfig`: I/O and presentation. A save is a logged snapshot of the list. Success and failure leave the in-memory state alike, so neither is told apart.
- `close()` and the modal's own behaviour: UI. Closes and `configUpdated` notifications are counted.
- The asynchronous ordering of `await saveConfig()` in `saveAndClose`: the model is sequential.
- JavaScript truthiness of `issueToken` and `cookies` is modelled for optional strings only. Other value types are not modelled.
- The schema-driven editing of the record's other keys: they are carried unchanged in `settings`.
- NestCamComponent.HomebridgeNestCam.NgOnInit: requires the first input record to appear only once in the list. A list holding the same object twice cannot be represented by `Store`.
- The step handlers, `credentials` and `nextStep` before `linkAccount`: the thrown `TypeError` is modelled as the handler stopping where it throws. The error itself is not reported anywhere.
